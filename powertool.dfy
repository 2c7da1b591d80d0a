/**
  The values the DAO and the listener exchange: item keys, the two power-tool
  actions, commands with their precomputed token flags, and a power tool as
  the map from action to command.
 */
module PowerTools {
  import opened Options

  /** An item type id with an optional data value; equal keys are equal values. */
  datatype ItemKey = ItemKey(typeId: int, data: Option<int>)

  /** The two click kinds a command can be bound to. */
  datatype PowerToolAction = LeftClick | RightClick

  /** PowerToolAction.values(), in declaration order. */
  const Actions: seq<PowerToolAction> := [LeftClick, RightClick]

  /** Every action is listed in Actions. */
  lemma AllActions(a: PowerToolAction)
    ensures a in Actions
  {
  }

  /** A command template and the three flags computed once when it is built. */
  datatype Command = Command(command: string, hasPlayerToken: bool, hasLocationToken: bool, hasAirToken: bool)

  /** At most one command per action. */
  type PowerTool = map<PowerToolAction, Command>

  /** The plugin's configurable placeholder spellings. */
  datatype Tokens = Tokens(player: string, x: string, y: string, z: string, yAir: string)
}
