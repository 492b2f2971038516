// The block types the engine places. The repository's block enumeration is
// open-ended; the constructors below are the ones the modelled code names,
// and `Other` stands for every remaining member of the enumeration.
module Blocks {

  datatype Material =
    | Air | Stone | BrickBlock | SpruceWood | Glass | GlassPane
    | Cobblestone | StoneBricks | OakPlanks | AcaciaDoor | BirchDoor
    | NormalStoneSlab | IronBlock | GoldBlock
    | RedStainedGlass | OrangeStainedGlass | YellowStainedGlass
    | LimeStainedGlass | GreenStainedGlass | CyanStainedGlass
    | LightBlueStainedGlass | BlueStainedGlass | PurpleStainedGlass
    | MagentaStainedGlass | PinkStainedGlass | WhiteStainedGlass
    | RedWool | BlueWool | GreenWool | YellowWool | PurpleWool
    | OrangeWool | LimeWool | CyanWool
    | Other(name: string)

  /** A placed block: a wrapper around its block type. */
  datatype Block = Block(block: Material)
}
