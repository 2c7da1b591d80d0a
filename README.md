# PowerTool: binding store and interaction rules

This project models two parts of the PowerTool Bukkit plugin. The plugin binds
command templates to left and right clicks made while holding an item.

- **`YamlDao`** models `YamlPowerToolDao`, the store that keeps bindings in a
  YAML document. A scope is either the global section `powertools` or a
  player's section `players.<name>`. Each child of a scope is a raw material
  key. Its value is either a scalar or a section that maps an action's display
  name to a command template. Several raw keys can parse to the same
  `ItemKey`. So loading one binding, loading all bindings, removing and saving
  are all linear scans over the children, in iteration order. The DAO is a
  class. Its `config` field is the document, a map from base path to the
  ordered children. Its methods change `config` the way `config.set` and
  `createSection` do. A ghost field `flushes` records every document written to
  the file.
- **`Listener`** models the three decision rules of `PowerToolListener`
  (`onPlayerInteract`, `onPlayerInteractEntity`, `onEntityDamage`) as pure
  functions. Each returns the string passed to `plugin.execute`, if there is
  one, and whether the event is cancelled.
- **`Strings`** holds `String.contains` and `String.replace` as they behave in
  Java. **`PowerTools`** holds the value types: `ItemKey`, `PowerToolAction`,
  `Command` and `PowerTool`. **`Options`** holds `Option`, which stands for a
  nullable reference.

The collaborators whose code is not part of this model are parameters:

- `Env` holds `ItemKey.fromString`, `ItemKey.toString`, the `useDisplayNames`
  setting, `ToHStringUtils.hasText`, each action's display name, and the token
  strings.
- `Plugin` holds `getPowerTool`, `substituteLocation` and the player token.

Every assumption about them is stated where it is used:

- `Env.Canonical(key)`: `fromString(toString(key))` is `key`.
- `Env.LabelsDistinct()`: the two display names differ.

Each operation returns the warnings it logs as a `seq<Warning>`.

Two behaviours of the source are proved rather than hidden:

- `loadPowerTool` takes the *first* spelling that matches a key. `loadPowerTools`
  keeps the *last* spelling whose tool builds, because `HashMap.put`
  overwrites. `LoadOneAgreesWithCollect` shows that the two agree whenever a
  key has only one spelling.
- `savePowerTool` and `removePowerTool` delete only the first matching
  spelling (`break`). `RemoveExposesNext` shows that another binding for the
  key survives exactly when the scope spelled the key more than once. If that
  second spelling is the canonical one, the save merges new templates into its
  section (`WriteActionsShape`). Both operations keep "one spelling per key"
  true (`SaveKeepsOneSpelling`, `RemoveKeepsOneSpelling`), provided the saved
  key's `toString` parses back to that key (`Env.Canonical`). So two spellings
  arise only from a hand-edited file, or from saving a key whose `toString`
  does not parse back to it.

## Model

| member | source | states |
|---|---|---|
| `YamlDao.BasePathInjective` | src/main/java/org/tyrannyofheaven/bukkit/PowerTool/dao/YamlPowerToolDao.java:58-67 | The base path is `powertools` for no player and `players.<name>` otherwise. Two scopes share a base path exactly when they are the same scope. |
| `YamlDao.MaterialPathInjective` | src/main/java/org/tyrannyofheaven/bukkit/PowerTool/dao/YamlPowerToolDao.java:54-56 | A binding's path is the base path, a dot and `key.toString()`. Within a scope, two keys share a path only if they render the same; with canonical rendering, the keys are then equal. |
| `YamlDao.MakeCommandFlags` | src/main/java/org/tyrannyofheaven/bukkit/PowerTool/dao/YamlPowerToolDao.java:101-103 | `hasAirToken` holds iff the template contains the Y-air token. `hasPlayerToken` holds iff it contains the player token. `hasLocationToken` holds iff it contains the X, Y, Z or Y-air token. |
| `YamlDao.BuildToolSpec` | src/main/java/org/tyrannyofheaven/bukkit/PowerTool/dao/YamlPowerToolDao.java:98-110 | A section is rejected (null) exactly when some action's command mixes player and location tokens. Otherwise an action has a command exactly when its display name maps to text, and that command is built from the text. |
| `YamlDao.YamlPowerToolDao.LoadTool` | src/main/java/org/tyrannyofheaven/bukkit/PowerTool/dao/YamlPowerToolDao.java:95-114 | The loop over the actions yields the tool `BuildTool` describes. It logs one bad-tokens warning exactly when it returns null. |
| `YamlDao.FirstMatch` | src/main/java/org/tyrannyofheaven/bukkit/PowerTool/dao/YamlPowerToolDao.java:76-87 | Gives the least index whose child is a section, whose raw key parses, and whose parsed key equals `key`. It is None exactly when no child matches. Leaf children and unparseable keys are skipped. |
| `YamlDao.YamlPowerToolDao.Scan` | src/main/java/org/tyrannyofheaven/bukkit/PowerTool/dao/YamlPowerToolDao.java:149-166 | The scan loop the three single-key operations share finds `FirstMatch`. Before that match it logs a not-a-map warning for each scalar child and an unknown-material warning for each section child whose key does not parse; a section child that parses to another key logs nothing. |
| `YamlDao.YamlPowerToolDao.LoadPowerTool` | src/main/java/org/tyrannyofheaven/bukkit/PowerTool/dao/YamlPowerToolDao.java:70-93 | Returns None when the scope is absent or no child matches. Otherwise it returns the tool built from the first matching child, or None if that child is rejected. The warnings are those of the scan, plus bad tokens. |
| `YamlDao.YamlPowerToolDao.LoadPowerTools` | src/main/java/org/tyrannyofheaven/bukkit/PowerTool/dao/YamlPowerToolDao.java:117-140 | Returns the empty map when the scope is absent. Otherwise it returns the map the scan fills with `put`, and logs every child's warnings. |
| `YamlDao.CollectToolsKeys` | src/main/java/org/tyrannyofheaven/bukkit/PowerTool/dao/YamlPowerToolDao.java:123-137 | A key is in `loadPowerTools`' result iff some section child's raw key parses to it and that child's tool builds. Leaf children and rejected sections never contribute. |
| `YamlDao.CollectToolsValue` | src/main/java/org/tyrannyofheaven/bukkit/PowerTool/dao/YamlPowerToolDao.java:131-133 | A key's tool comes from its last contributing child in iteration order. |
| `YamlDao.LoadOneAgreesWithCollect` | src/main/java/org/tyrannyofheaven/bukkit/PowerTool/dao/YamlPowerToolDao.java:82-85 | When a scope spells a key at most once, loading that key alone gives what loading all keys gives for it. |
| `YamlDao.YamlPowerToolDao.RemovePowerTool` | src/main/java/org/tyrannyofheaven/bukkit/PowerTool/dao/YamlPowerToolDao.java:143-168 | An absent scope leaves everything unchanged. Otherwise only the first matching child is deleted. The document is persisted exactly when something was deleted. Other scopes are unchanged, and raw keys stay distinct. |
| `YamlDao.YamlPowerToolDao.DeleteEntry` | src/main/java/org/tyrannyofheaven/bukkit/PowerTool/dao/YamlPowerToolDao.java:159 | Setting a child's path to null deletes that one child and keeps the others in order. No other scope changes, raw keys stay distinct, and nothing is persisted. |
| `YamlDao.RemoveMatchKeeps` | src/main/java/org/tyrannyofheaven/bukkit/PowerTool/dao/YamlPowerToolDao.java:157-161 | Every child except the first match survives a remove. |
| `YamlDao.RemoveMatchClears` | src/main/java/org/tyrannyofheaven/bukkit/PowerTool/dao/YamlPowerToolDao.java:149-166 | If a scope spells the key at most once, no child binds it after removal. |
| `YamlDao.RemoveExposesNext` | src/main/java/org/tyrannyofheaven/bukkit/PowerTool/dao/YamlPowerToolDao.java:159-161 | Remove deletes a single spelling. Afterwards no child binds the key iff the scope had exactly one spelling of it. |
| `YamlDao.RemoveKeepsOneSpelling` | src/main/java/org/tyrannyofheaven/bukkit/PowerTool/dao/YamlPowerToolDao.java:155-161 | If each key had at most one spelling before a remove, the same holds after it. |
| `YamlDao.YamlPowerToolDao.SavePowerTool` | src/main/java/org/tyrannyofheaven/bukkit/PowerTool/dao/YamlPowerToolDao.java:171-208 | Creates the scope if it is absent, deletes the first match, writes the tool's commands under `key.toString()`, and always persists. Other scopes are unchanged, and raw keys stay distinct. |
| `YamlDao.YamlPowerToolDao.WriteCommands` | src/main/java/org/tyrannyofheaven/bukkit/PowerTool/dao/YamlPowerToolDao.java:198-204 | The write loop sets one value per action that has a command. Only the scope being saved changes. |
| `YamlDao.WriteActionsShape` | src/main/java/org/tyrannyofheaven/bukkit/PowerTool/dao/YamlPowerToolDao.java:198-204 | An empty tool writes nothing. Otherwise the child at the canonical spelling becomes a section holding its old templates with the tool's templates laid over them. The section stays in place if the key existed (a scalar there is replaced) and is appended otherwise. |
| `YamlDao.SaveFrame` | src/main/java/org/tyrannyofheaven/bukkit/PowerTool/dao/YamlPowerToolDao.java:185-204 | Every child other than the first match and the canonical spelling survives a save. Every child after the save is either an old child or at the canonical spelling. |
| `YamlDao.BuildToolValues` | src/main/java/org/tyrannyofheaven/bukkit/PowerTool/dao/YamlPowerToolDao.java:199-203 | The templates a well-formed tool writes build the same tool back, assuming the display names are distinct. |
| `YamlDao.SaveThenLoad` | src/main/java/org/tyrannyofheaven/bukkit/PowerTool/dao/YamlPowerToolDao.java:198-204 | Round trip. Assume the scope spells the key at most once, `fromString(toString(key))` is `key`, and the tool is well-formed. Then loading after saving gives the tool back, or None for an empty tool. |
| `YamlDao.SaveKeepsOneSpelling` | src/main/java/org/tyrannyofheaven/bukkit/PowerTool/dao/YamlPowerToolDao.java:185-204 | Save keeps every key at most one spelling. Afterwards the key is bound exactly when the tool is not empty. |
| `YamlDao.YamlPowerToolDao.SetConfig` | src/main/java/org/tyrannyofheaven/bukkit/PowerTool/dao/YamlPowerToolDao.java:50-52 | Replaces the document and writes nothing to the file. |
| `YamlDao.YamlPowerToolDao.constructor` | src/main/java/org/tyrannyofheaven/bukkit/PowerTool/dao/YamlPowerToolDao.java:43-48 | Starts from the given document with nothing persisted. |
| `Strings.ContainsIff` | src/main/java/org/tyrannyofheaven/bukkit/PowerTool/dao/YamlPowerToolDao.java:101-103 | `contains` holds exactly when the token occurs at some index of the template. |
| `Strings.ReplaceAbsent` | src/main/java/org/tyrannyofheaven/bukkit/PowerTool/PowerToolListener.java:113 | Replacing a non-empty token that does not occur leaves the template unchanged. |
| `Strings.ReplaceBySelf` | src/main/java/org/tyrannyofheaven/bukkit/PowerTool/PowerToolListener.java:196 | Replacing the token with itself leaves any template unchanged. |
| `Listener.ActionMap` | src/main/java/org/tyrannyofheaven/bukkit/PowerTool/PowerToolListener.java:49-56 | `LEFT_CLICK_AIR` and `LEFT_CLICK_BLOCK` map to `LEFT_CLICK`. `RIGHT_CLICK_AIR` and `RIGHT_CLICK_BLOCK` map to `RIGHT_CLICK`. `PHYSICAL` has no mapping. |
| `Listener.OnPlayerInteract` | src/main/java/org/tyrannyofheaven/bukkit/PowerTool/PowerToolListener.java:64-90 | Cancelled iff something is executed. Nothing happens without permission, without an item, or for an unmapped action. It never runs a command with a player token. A command without a location token runs verbatim. A command with one runs `substituteLocation` with the clicked block. |
| `Listener.OnPlayerInteractEntity` | src/main/java/org/tyrannyofheaven/bukkit/PowerTool/PowerToolListener.java:93-128 | Cancelled iff something is executed. Nothing happens without permission or with AIR in hand. It runs only the right-click command, only when that command has a player token and the clicked entity is a player. For such a command on a player it runs exactly the template with the token replaced by that player's name, passed through `substituteLocation` with no block when it also has location tokens, and it runs nothing when that substitution fails. |
| `Listener.OnEntityDamage` | src/main/java/org/tyrannyofheaven/bukkit/PowerTool/PowerToolListener.java:172-217 | Cancelled iff something is executed. It acts only for a player damager that has permission and no AIR in hand, using the left-click command. Without a player token the template is used as is. With one, the victim must be a player, and for a player victim it runs exactly the template with the token replaced by the victim's name. Either way, location tokens go through `substituteLocation` with no block, and nothing runs when that fails. |
| `Listener.DamageIsLeftClick` | src/main/java/org/tyrannyofheaven/bukkit/PowerTool/PowerToolListener.java:199-202 | For a left-click command without a player token, hitting an entity does what a left click with no clicked block does. |
| `Listener.RightClickPathsExclusive` | src/main/java/org/tyrannyofheaven/bukkit/PowerTool/PowerToolListener.java:78 | No right-click command both runs on a block or air click and runs on an entity click. |
| `Listener.HealScenario` | src/main/java/org/tyrannyofheaven/bukkit/PowerTool/PowerToolListener.java:106-113 | With template `heal %player%`, right-clicking the player Bob runs `heal Bob` and cancels. Right-clicking a non-player entity does nothing. |

## Left out

- TreeSpeciesDataParser is not part of this model. It only wraps Bukkit's tree-species enumeration.
- File I/O is not modelled: `YamlConfiguration.loadConfiguration`, `ToHFileUtils.saveConfig` and the `File` handling. The constructor that loads from a file is left out. Persisting appears only as the ghost `flushes` log. A failed write is not modelled.
- YAML nesting is flattened. The document maps a base path directly to that scope's children. This model does not cover raw keys or player names that contain the path separator `.`.
- The ordering of a section's action-to-template values is not modelled, because those values are a map. Children of a scope keep their order.
- ItemKey.java, PowerTool.java, PowerToolAction.java and PowerToolPlugin.java are not part of this model. `ItemKey` is taken as a type id with optional data and structural equality. `fromString`, `toString`, `hasText`, the display names and the tokens are parameters.
- `warn` and `debug` logging: warnings are returned as values, and debug messages are dropped.
- `onItemHeldChange`, `onPlayerJoin` and `onPlayerQuit` only send messages or call the plugin's cache. The permission system is a boolean on the player.
- `plugin.getPowerTool` is a function parameter (the resolver and its cache are not modelled). `substituteLocation` is uninterpreted. `execute` becomes the returned string.
- The `node != null` test in the private `loadPowerTool` is not modelled, because both callers pass a section.
- `onPlayerInteract` does not compare the item with AIR, and neither does the source. The model takes the host to report an empty hand as no item.
