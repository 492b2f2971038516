// The older prefab base class (scripts/Prefab.ts): `render` draws the node
// and then renders each child in turn. Nothing is stored, so the model
// records the order in which the nodes' `draw` methods run: a node is
// represented by the value its `draw` stands for.
module LegacyPrefabs {

  datatype Prefab<T> = Prefab(drawn: T, children: seq<Prefab<T>>)

  /** Number of nodes in the tree. */
  function Size<T>(p: Prefab<T>): nat
  {
    1 + SizeAll(p.children)
  }

  function SizeAll<T>(ps: seq<Prefab<T>>): nat
  {
    if ps == [] then 0 else Size(ps[0]) + SizeAll(ps[1..])
  }

  /** The sequence of `draw` calls made by `p.render()`: one per node, the
      node's own first. */
  function Render<T>(p: Prefab<T>): (r: seq<T>)
    ensures |r| == Size(p)
    ensures r[0] == p.drawn
  {
    [p.drawn] + RenderAll(p.children)
  }

  /** Rendering a list of children in order. */
  function RenderAll<T>(ps: seq<Prefab<T>>): (r: seq<T>)
    ensures |r| == SizeAll(ps)
  {
    if ps == [] then [] else Render(ps[0]) + RenderAll(ps[1..])
  }

  /** Without children, `render` is just `draw`. */
  lemma LeafRender<T>(p: Prefab<T>)
    requires p.children == []
    ensures Render(p) == [p.drawn]
  {
  }

  /** Rendering a list splits at any child: what precedes it, the child's
      own rendering, what follows. */
  lemma {:induction false} RenderAllSplit<T>(ps: seq<Prefab<T>>, i: nat)
    requires i < |ps|
    ensures RenderAll(ps) == RenderAll(ps[..i]) + Render(ps[i]) + RenderAll(ps[i + 1..])
  {
    if i == 0 {
      assert ps[..0] == [];
    } else {
      RenderAllSplit(ps[1..], i - 1);
      assert ps[1..][..i - 1] == ps[1..i];
      assert ps[1..][i - 1] == ps[i];
      assert ps[1..][i..] == ps[i + 1..];
      assert ps[..i][0] == ps[0] && ps[..i][1..] == ps[1..i];
    }
  }

  /** Where child i's draws sit in its parent's: after the parent's own
      draw and every draw of the children before it. */
  function ChildStart<T>(p: Prefab<T>, i: nat): nat
    requires i <= |p.children|
  {
    1 + SizeAll(p.children[..i])
  }

  /** Pre-order in insertion order: the draws of child i form one
      contiguous block, exactly that child's own rendering, placed after
      its parent and every earlier sibling. */
  lemma ChildBlock<T>(p: Prefab<T>, i: nat)
    requires i < |p.children|
    ensures ChildStart(p, i) + Size(p.children[i]) <= Size(p)
    ensures Render(p)[ChildStart(p, i)..ChildStart(p, i) + Size(p.children[i])] == Render(p.children[i])
  {
    RenderAllSplit(p.children, i);
    var before := RenderAll(p.children[..i]);
    assert Render(p) == [p.drawn] + before + Render(p.children[i]) + RenderAll(p.children[i + 1..]);
  }
}
