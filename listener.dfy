/**
  The interaction rules of PowerToolListener, as pure decisions. Each handler
  takes what it would read from the event and the plugin, and yields the
  command string handed to plugin.execute, if any, and whether the event is
  cancelled.
 */
module Listener {
  import opened Options
  import opened Strings
  import opened PowerTools

  /** Bukkit's block.Action. */
  datatype Action = LeftClickAir | LeftClickBlock | RightClickAir | RightClickBlock | Physical

  /** The static actionMap; PHYSICAL has no entry. */
  function ActionMap(action: Action): (r: Option<PowerToolAction>)
    ensures r == Some(LeftClick) <==> action == LeftClickAir || action == LeftClickBlock
    ensures r == Some(RightClick) <==> action == RightClickAir || action == RightClickBlock
    ensures r.None? <==> action == Physical
  {
    match action
    case LeftClickAir | LeftClickBlock => Some(LeftClick)
    case RightClickAir | RightClickBlock => Some(RightClick)
    case Physical => None
  }

  datatype Block = Block(x: int, y: int, z: int)

  /** A player as the handlers see it: its name, whether it holds powertool.use, and the item id in its hand. */
  datatype Player = Player(name: string, canUse: bool, itemInHand: int)

  datatype Entity = PlayerEntity(player: Player) | OtherEntity

  /** Material.AIR.getId(). */
  const AirId: int := 0

  /** The plugin's services the handlers call: getPowerTool, substituteLocation and the player token. */
  datatype Plugin = Plugin(
    getPowerTool: (Player, int) -> Option<PowerTool>,
    substituteLocation: (Player, Option<Block>, string, bool) -> Option<string>,
    playerToken: string)

  /** The string passed to plugin.execute, if the handler calls it, and whether it cancels the event. */
  datatype Outcome = Outcome(executed: Option<string>, cancelled: bool)

  const Ignore: Outcome := Outcome(None, false)

  /** Execute and cancel together, or do neither. */
  function Run(commandString: Option<string>): Outcome {
    Outcome(commandString, commandString.Some?)
  }

  /** The command bound to an action of the tool a player holds. */
  function BoundCommand(plugin: Plugin, player: Player, itemId: int, a: PowerToolAction): Option<Command> {
    match plugin.getPowerTool(player, itemId)
    case None => None
    case Some(pt) => if a in pt then Some(pt[a]) else None
  }

  /** Location tokens go through substituteLocation; anything else is kept. */
  function WithLocation(plugin: Plugin, player: Player, block: Option<Block>, c: Command, s: string): Option<string> {
    if c.hasLocationToken then plugin.substituteLocation(player, block, s, c.hasAirToken) else Some(s)
  }

  /** onPlayerInteract; `item` is the event's item, None for an empty hand. */
  function OnPlayerInteract(plugin: Plugin, player: Player, item: Option<int>, action: Action, clickedBlock: Option<Block>): (r: Outcome)
    ensures r.cancelled <==> r.executed.Some?
    ensures !player.canUse || item.None? ==> r == Ignore
    ensures ActionMap(action).None? ==> r == Ignore
    ensures r.executed.Some? ==>
      item.Some? && ActionMap(action).Some? &&
      var c := BoundCommand(plugin, player, item.value, ActionMap(action).value);
      c.Some? && !c.value.hasPlayerToken
    ensures player.canUse && item.Some? && ActionMap(action).Some? ==>
      var c := BoundCommand(plugin, player, item.value, ActionMap(action).value);
      c.Some? && !c.value.hasPlayerToken && !c.value.hasLocationToken ==> r.executed == Some(c.value.command)
    ensures player.canUse && item.Some? && ActionMap(action).Some? ==>
      var c := BoundCommand(plugin, player, item.value, ActionMap(action).value);
      c.Some? && !c.value.hasPlayerToken && c.value.hasLocationToken ==>
        r.executed == plugin.substituteLocation(player, clickedBlock, c.value.command, c.value.hasAirToken)
  {
    if !player.canUse || item.None? then Ignore
    else match ActionMap(action)
      case None => Ignore
      case Some(a) =>
        match BoundCommand(plugin, player, item.value, a)
        case None => Ignore
        case Some(c) =>
          if c.hasPlayerToken then Ignore
          else Run(WithLocation(plugin, player, clickedBlock, c, c.command))
  }

  /** onPlayerInteractEntity: only the right-click command, and only with a player token aimed at a player. */
  function OnPlayerInteractEntity(plugin: Plugin, player: Player, clicked: Entity): (r: Outcome)
    ensures r.cancelled <==> r.executed.Some?
    ensures !player.canUse || player.itemInHand == AirId ==> r == Ignore
    ensures r.executed.Some? ==>
      clicked.PlayerEntity? &&
      var c := BoundCommand(plugin, player, player.itemInHand, RightClick);
      c.Some? && c.value.hasPlayerToken &&
      r.executed == WithLocation(plugin, player, None, c.value,
                                 ReplaceAll(c.value.command, plugin.playerToken, clicked.player.name))
    ensures player.canUse && player.itemInHand != AirId && clicked.PlayerEntity? ==>
      var c := BoundCommand(plugin, player, player.itemInHand, RightClick);
      c.Some? && c.value.hasPlayerToken ==>
        r.executed == WithLocation(plugin, player, None, c.value,
                                   ReplaceAll(c.value.command, plugin.playerToken, clicked.player.name))
  {
    if !player.canUse || player.itemInHand == AirId then Ignore
    else match BoundCommand(plugin, player, player.itemInHand, RightClick)
      case None => Ignore
      case Some(c) =>
        if c.hasPlayerToken && clicked.PlayerEntity? then
          Run(WithLocation(plugin, player, None, c, ReplaceAll(c.command, plugin.playerToken, clicked.player.name)))
        else Ignore
  }

  /** onEntityDamage; `damager` is None unless the event is an EntityDamageByEntityEvent. */
  function OnEntityDamage(plugin: Plugin, damager: Option<Entity>, victim: Entity): (r: Outcome)
    ensures r.cancelled <==> r.executed.Some?
    ensures r.executed.Some? ==>
      damager.Some? && damager.value.PlayerEntity? &&
      var attacker := damager.value.player;
      attacker.canUse && attacker.itemInHand != AirId &&
      var c := BoundCommand(plugin, attacker, attacker.itemInHand, LeftClick);
      c.Some? && (c.value.hasPlayerToken ==> victim.PlayerEntity?) &&
      r.executed == WithLocation(plugin, attacker, None, c.value,
                                 if c.value.hasPlayerToken
                                 then ReplaceAll(c.value.command, plugin.playerToken, victim.player.name)
                                 else c.value.command)
    ensures damager.Some? && damager.value.PlayerEntity? ==>
      var attacker := damager.value.player;
      attacker.canUse && attacker.itemInHand != AirId ==>
      var c := BoundCommand(plugin, attacker, attacker.itemInHand, LeftClick);
      c.Some? && !c.value.hasPlayerToken ==> r.executed == WithLocation(plugin, attacker, None, c.value, c.value.command)
    ensures damager.Some? && damager.value.PlayerEntity? && victim.PlayerEntity? ==>
      var attacker := damager.value.player;
      attacker.canUse && attacker.itemInHand != AirId ==>
      var c := BoundCommand(plugin, attacker, attacker.itemInHand, LeftClick);
      c.Some? && c.value.hasPlayerToken ==>
        r.executed == WithLocation(plugin, attacker, None, c.value,
                                   ReplaceAll(c.value.command, plugin.playerToken, victim.player.name))
  {
    match damager
    case None => Ignore
    case Some(OtherEntity) => Ignore
    case Some(PlayerEntity(attacker)) =>
      if !attacker.canUse || attacker.itemInHand == AirId then Ignore
      else match BoundCommand(plugin, attacker, attacker.itemInHand, LeftClick)
        case None => Ignore
        case Some(c) =>
          if !c.hasPlayerToken then Run(WithLocation(plugin, attacker, None, c, c.command))
          else if victim.PlayerEntity? then
            Run(WithLocation(plugin, attacker, None, c, ReplaceAll(c.command, plugin.playerToken, victim.player.name)))
          else Ignore
  }

  /**
    A left-click is a left-click: for a command without a player token,
    hitting an entity runs what a left click in the air runs.
   */
  lemma DamageIsLeftClick(plugin: Plugin, attacker: Player, victim: Entity, action: Action)
    requires ActionMap(action) == Some(LeftClick) && attacker.itemInHand != AirId
    requires var c := BoundCommand(plugin, attacker, attacker.itemInHand, LeftClick);
      c.Some? ==> !c.value.hasPlayerToken
    ensures OnEntityDamage(plugin, Some(PlayerEntity(attacker)), victim) ==
            OnPlayerInteract(plugin, attacker, Some(attacker.itemInHand), action, None)
  {
  }

  /** No right-click command runs both on a block click and on an entity click. */
  lemma RightClickPathsExclusive(plugin: Plugin, player: Player, action: Action, block: Option<Block>, clicked: Entity)
    requires ActionMap(action) == Some(RightClick)
    ensures !(OnPlayerInteract(plugin, player, Some(player.itemInHand), action, block).executed.Some? &&
              OnPlayerInteractEntity(plugin, player, clicked).executed.Some?)
  {
  }

  /** Right-clicking a player named Bob with "heal %player%" runs "heal Bob"; right-clicking anything else runs nothing. */
  lemma HealScenario(substitute: (Player, Option<Block>, string, bool) -> Option<string>, player: Player)
    requires player.canUse && player.itemInHand == 276
    ensures var heal := Command("heal %player%", true, false, false);
      var plugin := Plugin((p: Player, id: int) => if id == 276 then Some(map[RightClick := heal]) else None,
                           substitute, "%player%");
      && OnPlayerInteractEntity(plugin, player, PlayerEntity(Player("Bob", false, 0))) == Outcome(Some("heal Bob"), true)
      && OnPlayerInteractEntity(plugin, player, OtherEntity) == Ignore
  {
    HealPrefix();
  }

  /** The five characters in front of the token carry no '%', so only the token is replaced. */
  lemma HealPrefix()
    ensures ReplaceAll("heal %player%", "%player%", "Bob") == "heal Bob"
  {
    assert "heal %player%" == "heal " + "%player%";
    ReplaceAfterPrefix("heal ", "%player%", "Bob");
  }
}
