/**
  The YAML store of power-tool bindings. The configuration document is a
  map from a scope's base path ("powertools", or "players.<name>") to the
  ordered children of that section; each child is a raw material key and
  either a scalar or a section mapping action labels to command templates.
  Several raw keys can parse to the same ItemKey, so every operation scans
  the children in order instead of looking a key up.
 */
module YamlDao {
  import opened Options
  import opened Strings
  import opened PowerTools

  /** What the DAO logs during a scan; each warning names the raw key it is about. */
  datatype Warning =
    | NotMapNode(rawKey: string)       // the child is a scalar, not a section
    | UnknownMaterial(rawKey: string)  // the child's key does not parse
    | BadTokens(rawKey: string)        // a template mixes player and coordinate tokens

  /**
    The collaborators the DAO consults: ItemKey.fromString and ItemKey.toString,
    the useDisplayNames setting, ToHStringUtils.hasText, the display name of
    each action and the plugin's token strings.
   */
  datatype Env = Env(
    fromString: (string, bool) -> Option<ItemKey>,
    render: ItemKey -> string,
    useDisplayNames: bool,
    hasText: string -> bool,
    displayName: PowerToolAction -> string,
    tokens: Tokens)
  {
    /** ItemKey.fromString(raw, useDisplayNames). */
    function Parse(raw: string): Option<ItemKey> {
      fromString(raw, useDisplayNames)
    }

    /** The assumption on ItemKey.toString: its output parses back to the key. */
    predicate Canonical(key: ItemKey) {
      Parse(render(key)) == Some(key)
    }

    predicate LabelsDistinct() {
      displayName(LeftClick) != displayName(RightClick)
    }
  }

  /** A child of a scope section. */
  datatype Node = Leaf(value: string) | Section(values: map<string, string>)
  datatype Entry = Entry(rawKey: string, node: Node)

  /** Base path of a scope to its children, in iteration (insertion) order. */
  type Document = map<string, seq<Entry>>

  /** A YAML mapping never holds the same key twice. */
  predicate DistinctKeys(es: seq<Entry>) {
    forall i, j :: 0 <= i < j < |es| ==> es[i].rawKey != es[j].rawKey
  }

  predicate WellFormed(doc: Document) {
    forall p :: p in doc ==> DistinctKeys(doc[p])
  }

  // ---------------------------------------------------------------- paths

  /** The global scope when there is no player, else the player's own scope. */
  function GetBasePath(player: Option<string>): string {
    if player.Some? then "players." + player.value else "powertools"
  }

  /** Different scopes live under different base paths. */
  lemma BasePathInjective(p: Option<string>, q: Option<string>)
    ensures GetBasePath(p) == GetBasePath(q) <==> p == q
  {
    if p.Some? && q.Some? {
      if GetBasePath(p) == GetBasePath(q) {
        assert p.value == GetBasePath(p)[8..];
        assert q.value == GetBasePath(q)[8..];
      }
    } else if p.Some? || q.Some? {
      assert GetBasePath(p)[2] != GetBasePath(q)[2];
    }
  }

  /** The path a binding is written to: the base path, a dot, and the key's canonical spelling. */
  function GetMaterialPath(env: Env, player: Option<string>, key: ItemKey): string {
    GetBasePath(player) + "." + env.render(key)
  }

  /** Within a scope, two keys share a material path only if they share a spelling. */
  lemma MaterialPathInjective(env: Env, player: Option<string>, k1: ItemKey, k2: ItemKey)
    requires GetMaterialPath(env, player, k1) == GetMaterialPath(env, player, k2)
    ensures env.render(k1) == env.render(k2)
    ensures env.Canonical(k1) && env.Canonical(k2) ==> k1 == k2
  {
    var n := |GetBasePath(player)| + 1;
    assert GetMaterialPath(env, player, k1)[n..] == env.render(k1);
    assert GetMaterialPath(env, player, k2)[n..] == env.render(k2);
  }

  // ------------------------------------------------- building a power tool

  /** The command built for a template: each flag is a substring search. */
  function MakeCommand(tokens: Tokens, template: string): Command {
    var air := Contains(template, tokens.yAir);
    Command(template,
            Contains(template, tokens.player),
            Contains(template, tokens.x) || Contains(template, tokens.y) || Contains(template, tokens.z) || air,
            air)
  }

  /** A command that needs a clicked player and a clicked block at once. */
  predicate Mixed(c: Command) {
    c.hasPlayerToken && c.hasLocationToken
  }

  /** The command a section yields for one action: present when its label maps to text. */
  function LabelCommand(env: Env, node: map<string, string>, a: PowerToolAction): Option<Command> {
    var l := env.displayName(a);
    if l in node && env.hasText(node[l]) then Some(MakeCommand(env.tokens, node[l])) else None
  }

  predicate RejectedBy(env: Env, node: map<string, string>, a: PowerToolAction) {
    LabelCommand(env, node, a).Some? && Mixed(LabelCommand(env, node, a).value)
  }

  /** The commands of the actions in `acts`. */
  function ToolFrom(env: Env, node: map<string, string>, acts: seq<PowerToolAction>): PowerTool {
    map a | a in acts && LabelCommand(env, node, a).Some? :: LabelCommand(env, node, a).value
  }

  /** The private loadPowerTool: the whole tool, or None when any action mixes tokens. */
  function BuildTool(env: Env, node: map<string, string>): Option<PowerTool> {
    if exists a :: a in Actions && RejectedBy(env, node, a) then None
    else Some(ToolFrom(env, node, Actions))
  }

  /** The flags of a built command are exactly the token occurrences in its template. */
  lemma MakeCommandFlags(tokens: Tokens, template: string)
    ensures MakeCommand(tokens, template).command == template
    ensures MakeCommand(tokens, template).hasAirToken <==> exists i :: OccursAt(template, tokens.yAir, i)
    ensures MakeCommand(tokens, template).hasPlayerToken <==> exists i :: OccursAt(template, tokens.player, i)
    ensures MakeCommand(tokens, template).hasLocationToken <==>
      (exists i :: OccursAt(template, tokens.x, i)) || (exists i :: OccursAt(template, tokens.y, i)) ||
      (exists i :: OccursAt(template, tokens.z, i)) || (exists i :: OccursAt(template, tokens.yAir, i))
  {
    ContainsIff(template, tokens.yAir);
    ContainsIff(template, tokens.player);
    ContainsIff(template, tokens.x);
    ContainsIff(template, tokens.y);
    ContainsIff(template, tokens.z);
  }

  /**
    A section is rejected exactly when one of its commands mixes tokens;
    otherwise an action has a command exactly when its label maps to text,
    and that command is built from the text.
   */
  lemma BuildToolSpec(env: Env, node: map<string, string>)
    ensures BuildTool(env, node).None? <==> exists a :: RejectedBy(env, node, a)
    ensures BuildTool(env, node).Some? ==> forall a ::
      (a in BuildTool(env, node).value <==> env.displayName(a) in node && env.hasText(node[env.displayName(a)])) &&
      (a in BuildTool(env, node).value ==>
         BuildTool(env, node).value[a] == MakeCommand(env.tokens, node[env.displayName(a)]) &&
         !Mixed(BuildTool(env, node).value[a]))
  {
    forall a | RejectedBy(env, node, a) ensures a in Actions { AllActions(a); }
    forall a ensures a in Actions { AllActions(a); }
  }

  // ------------------------------------------------------------- scanning

  /** The key an entry binds: only sections count, and only when their raw key parses. */
  function KeyOf(env: Env, e: Entry): Option<ItemKey> {
    if e.node.Section? then env.Parse(e.rawKey) else None
  }

  predicate Matches(env: Env, e: Entry, key: ItemKey) {
    KeyOf(env, e) == Some(key)
  }

  /** The index of the first entry that binds `key`. */
  function FirstMatch(env: Env, es: seq<Entry>, key: ItemKey): (r: Option<nat>)
    ensures r.Some? ==> r.value < |es| && Matches(env, es[r.value], key)
    ensures r.Some? ==> forall j :: 0 <= j < r.value ==> !Matches(env, es[j], key)
    ensures r.None? <==> forall j :: 0 <= j < |es| ==> !Matches(env, es[j], key)
    decreases |es|
  {
    if es == [] then None
    else if Matches(env, es[0], key) then Some(0)
    else match FirstMatch(env, es[1..], key)
      case None => None
      case Some(i) => Some(i + 1)
  }

  /** No two entries bind `key`. */
  predicate UniqueMatch(env: Env, es: seq<Entry>, key: ItemKey) {
    forall i, j :: 0 <= i < |es| && 0 <= j < |es| && Matches(env, es[i], key) && Matches(env, es[j], key) ==> i == j
  }

  /** Every key is bound by at most one spelling. */
  predicate OneSpellingPerKey(env: Env, es: seq<Entry>) {
    forall i, j :: 0 <= i < j < |es| && KeyOf(env, es[i]).Some? ==> KeyOf(env, es[i]) != KeyOf(env, es[j])
  }

  /** The warning a scan logs for an entry that does not bind anything. */
  function EntryWarnings(env: Env, e: Entry): seq<Warning> {
    if e.node.Leaf? then [NotMapNode(e.rawKey)]
    else if env.Parse(e.rawKey).None? then [UnknownMaterial(e.rawKey)]
    else []
  }

  function ScanWarnings(env: Env, es: seq<Entry>): seq<Warning>
    decreases |es|
  {
    if es == [] then [] else ScanWarnings(env, es[..|es| - 1]) + EntryWarnings(env, es[|es| - 1])
  }

  /** What a scan that stops at the first match logs. */
  function MatchWarnings(env: Env, es: seq<Entry>, key: ItemKey): seq<Warning> {
    match FirstMatch(env, es, key)
    case None => ScanWarnings(env, es)
    case Some(i) => ScanWarnings(env, es[..i])
  }

  // ------------------------------------------------------------- loading

  /** loadPowerTool(player, key): the tool built from the first entry binding `key`. */
  function LoadOne(env: Env, doc: Document, base: string, key: ItemKey): Option<PowerTool> {
    if base !in doc then None
    else match FirstMatch(env, doc[base], key)
      case None => None
      case Some(i) => BuildTool(env, doc[base][i].node.values)
  }

  function LoadOneWarnings(env: Env, doc: Document, base: string, key: ItemKey): seq<Warning> {
    if base !in doc then []
    else var es := doc[base];
      match FirstMatch(env, es, key)
      case None => ScanWarnings(env, es)
      case Some(i) =>
        ScanWarnings(env, es[..i]) + (if BuildTool(env, es[i].node.values).None? then [BadTokens(es[i].rawKey)] else [])
  }

  /** An entry puts `key` into the result of loadPowerTools. */
  predicate Contributes(env: Env, e: Entry, key: ItemKey) {
    Matches(env, e, key) && BuildTool(env, e.node.values).Some?
  }

  /** loadPowerTools over a scope's children: HashMap.put in iteration order, so a later spelling wins. */
  function CollectTools(env: Env, es: seq<Entry>): map<ItemKey, PowerTool>
    decreases |es|
  {
    if es == [] then map[]
    else
      var m := CollectTools(env, es[..|es| - 1]);
      var e := es[|es| - 1];
      if e.node.Section? && env.Parse(e.rawKey).Some? && BuildTool(env, e.node.values).Some?
      then m[env.Parse(e.rawKey).value := BuildTool(env, e.node.values).value]
      else m
  }

  function CollectWarnings(env: Env, es: seq<Entry>): seq<Warning>
    decreases |es|
  {
    if es == [] then []
    else
      var e := es[|es| - 1];
      CollectWarnings(env, es[..|es| - 1]) + EntryWarnings(env, e) +
        (if e.node.Section? && env.Parse(e.rawKey).Some? && BuildTool(env, e.node.values).None?
         then [BadTokens(e.rawKey)] else [])
  }

  /** A key is loaded exactly when some section spelling it builds a tool. */
  lemma {:induction false} CollectToolsKeys(env: Env, es: seq<Entry>, key: ItemKey)
    ensures key in CollectTools(env, es) <==> exists i :: 0 <= i < |es| && Contributes(env, es[i], key)
    decreases |es|
  {
    if es != [] {
      var pre := es[..|es| - 1];
      CollectToolsKeys(env, pre, key);
      if exists i :: 0 <= i < |pre| && Contributes(env, pre[i], key) {
        var i :| 0 <= i < |pre| && Contributes(env, pre[i], key);
        assert es[i] == pre[i];
      }
      if exists i :: 0 <= i < |es| && Contributes(env, es[i], key) {
        var i :| 0 <= i < |es| && Contributes(env, es[i], key);
        if i < |pre| { assert pre[i] == es[i]; }
      }
    }
  }

  /** The tool loaded for a key is the one built from its last contributing spelling. */
  lemma {:induction false} CollectToolsValue(env: Env, es: seq<Entry>, key: ItemKey, i: nat)
    requires i < |es| && Contributes(env, es[i], key)
    requires forall j :: i < j < |es| ==> !Contributes(env, es[j], key)
    ensures key in CollectTools(env, es)
    ensures CollectTools(env, es)[key] == BuildTool(env, es[i].node.values).value
    decreases |es|
  {
    var pre := es[..|es| - 1];
    if i < |es| - 1 {
      assert pre[i] == es[i];
      forall j | i < j < |pre| ensures !Contributes(env, pre[j], key) {
        assert pre[j] == es[j];
      }
      CollectToolsValue(env, pre, key, i);
    }
  }

  /** With one spelling per key, loading one key agrees with loading them all. */
  lemma LoadOneAgreesWithCollect(env: Env, doc: Document, base: string, key: ItemKey)
    requires base in doc && UniqueMatch(env, doc[base], key)
    ensures LoadOne(env, doc, base, key) ==
      if key in CollectTools(env, doc[base]) then Some(CollectTools(env, doc[base])[key]) else None
  {
    var es := doc[base];
    CollectToolsKeys(env, es, key);
    match FirstMatch(env, es, key)
    case None =>
    case Some(i) =>
      if BuildTool(env, es[i].node.values).Some? {
        CollectToolsValue(env, es, key, i);
      }
  }

  // ------------------------------------------------------------- writing

  /** The first entry with this raw key. */
  function IndexOf(es: seq<Entry>, raw: string): (r: Option<nat>)
    ensures r.Some? ==> r.value < |es| && es[r.value].rawKey == raw
    ensures r.Some? ==> forall j :: 0 <= j < r.value ==> es[j].rawKey != raw
    ensures r.None? <==> forall j :: 0 <= j < |es| ==> es[j].rawKey != raw
    decreases |es|
  {
    if es == [] then None
    else if es[0].rawKey == raw then Some(0)
    else match IndexOf(es[1..], raw)
      case None => None
      case Some(i) => Some(i + 1)
  }

  /** What `raw` already holds as a section; a scalar or a missing child holds nothing. */
  function Prior(es: seq<Entry>, raw: string): map<string, string> {
    match IndexOf(es, raw)
    case Some(j) => if es[j].node.Section? then es[j].node.values else map[]
    case None => map[]
  }

  /** Make `raw` the section `m`: in place when the key exists (LinkedHashMap.put), else appended. */
  function Place(es: seq<Entry>, raw: string, m: map<string, string>): seq<Entry> {
    match IndexOf(es, raw)
    case Some(j) => es[j := Entry(raw, Section(m))]
    case None => es + [Entry(raw, Section(m))]
  }

  /** config.set("<base>.<raw>.<label>", value): the child becomes a section if it is not one. */
  function SetValue(es: seq<Entry>, raw: string, name: string, value: string): seq<Entry> {
    Place(es, raw, Prior(es, raw)[name := value])
  }

  /** config.set("<base>.<raw>", null) for the first entry binding `key`. */
  function RemoveMatch(env: Env, es: seq<Entry>, key: ItemKey): seq<Entry> {
    match FirstMatch(env, es, key)
    case None => es
    case Some(i) => es[..i] + es[i + 1..]
  }

  /** The writes of savePowerTool for the actions in `acts`, in order. */
  function WriteActions(env: Env, es: seq<Entry>, raw: string, tool: PowerTool, acts: seq<PowerToolAction>): seq<Entry>
    decreases |acts|
  {
    if acts == [] then es
    else
      var prev := WriteActions(env, es, raw, tool, acts[..|acts| - 1]);
      var a := acts[|acts| - 1];
      if a in tool then SetValue(prev, raw, env.displayName(a), tool[a].command) else prev
  }

  /** The scope's children after savePowerTool. */
  function SaveEntries(env: Env, es: seq<Entry>, key: ItemKey, tool: PowerTool): seq<Entry> {
    WriteActions(env, RemoveMatch(env, es, key), env.render(key), tool, Actions)
  }

  /** The label-to-template map savePowerTool writes for a tool. */
  function ToolValues(env: Env, tool: PowerTool): map<string, string> {
    var m := if LeftClick in tool then map[env.displayName(LeftClick) := tool[LeftClick].command] else map[];
    if RightClick in tool then m[env.displayName(RightClick) := tool[RightClick].command] else m
  }

  /** A tool as the DAO itself would build it: every template has text, consistent flags and no mixed tokens. */
  predicate WellFormedTool(env: Env, tool: PowerTool) {
    forall a :: a in tool ==>
      env.hasText(tool[a].command) && tool[a] == MakeCommand(env.tokens, tool[a].command) && !Mixed(tool[a])
  }

  // ------------------------------------------------- lemmas about writing

  lemma RemoveAtDistinct(es: seq<Entry>, i: nat)
    requires i < |es| && DistinctKeys(es)
    ensures DistinctKeys(es[..i] + es[i + 1..])
  {
    var r := es[..i] + es[i + 1..];
    forall a, b | 0 <= a < b < |r| ensures r[a].rawKey != r[b].rawKey {
      var a' := if a < i then a else a + 1;
      var b' := if b < i then b else b + 1;
      assert r[a] == es[a'] && r[b] == es[b'];
    }
  }

  lemma PlaceDistinct(es: seq<Entry>, raw: string, m: map<string, string>)
    requires DistinctKeys(es)
    ensures DistinctKeys(Place(es, raw, m))
  {
  }

  lemma WriteActionsDistinct(env: Env, es: seq<Entry>, raw: string, tool: PowerTool, acts: seq<PowerToolAction>)
    requires DistinctKeys(es)
    ensures DistinctKeys(WriteActions(env, es, raw, tool, acts))
    decreases |acts|
  {
    if acts != [] {
      var prev := WriteActions(env, es, raw, tool, acts[..|acts| - 1]);
      WriteActionsDistinct(env, es, raw, tool, acts[..|acts| - 1]);
      var a := acts[|acts| - 1];
      if a in tool {
        PlaceDistinct(prev, raw, Prior(prev, raw)[env.displayName(a) := tool[a].command]);
      }
    }
  }

  /** Placing twice at the same key is placing the second map; what was placed is then the prior. */
  lemma PlaceTwice(es: seq<Entry>, raw: string, m1: map<string, string>, m2: map<string, string>)
    ensures Prior(Place(es, raw, m1), raw) == m1
    ensures Place(Place(es, raw, m1), raw, m2) == Place(es, raw, m2)
  {
    var p := Place(es, raw, m1);
    match IndexOf(es, raw)
    case Some(j) =>
      assert p[j].rawKey == raw;
      forall k | 0 <= k < j ensures p[k].rawKey != raw { assert p[k] == es[k]; }
      assert IndexOf(p, raw) == Some(j);
    case None =>
      assert p[|es|].rawKey == raw;
      forall k | 0 <= k < |es| ensures p[k].rawKey != raw { assert p[k] == es[k]; }
      assert IndexOf(p, raw) == Some(|es|);
  }

  /**
    The writes of savePowerTool merge the tool's templates into whatever
    section already sits at the canonical spelling, and write nothing for
    an empty tool.
   */
  lemma WriteActionsShape(env: Env, es: seq<Entry>, raw: string, tool: PowerTool)
    ensures WriteActions(env, es, raw, tool, Actions) ==
      if tool == map[] then es else Place(es, raw, Prior(es, raw) + ToolValues(env, tool))
  {
    assert Actions[..1] == [LeftClick] && [LeftClick][..0] == [];
    var l, r := env.displayName(LeftClick), env.displayName(RightClick);
    var p := Prior(es, raw);
    var after1 := WriteActions(env, es, raw, tool, [LeftClick]);
    assert WriteActions(env, es, raw, tool, Actions) ==
      if RightClick in tool then SetValue(after1, raw, r, tool[RightClick].command) else after1;
    if LeftClick in tool {
      assert after1 == Place(es, raw, p[l := tool[LeftClick].command]);
      if RightClick in tool {
        PlaceTwice(es, raw, p[l := tool[LeftClick].command], p[l := tool[LeftClick].command][r := tool[RightClick].command]);
        assert p[l := tool[LeftClick].command][r := tool[RightClick].command] == p + ToolValues(env, tool);
      } else {
        assert p[l := tool[LeftClick].command] == p + ToolValues(env, tool);
      }
    } else if RightClick in tool {
      assert p[r := tool[RightClick].command] == p + ToolValues(env, tool);
    } else {
      forall a ensures a !in tool { AllActions(a); }
    }
  }

  /** Removing the first match leaves every other entry, in order. */
  lemma RemoveMatchKeeps(env: Env, es: seq<Entry>, key: ItemKey, j: nat)
    requires j < |es| && FirstMatch(env, es, key) != Some(j)
    ensures es[j] in RemoveMatch(env, es, key)
  {
    match FirstMatch(env, es, key)
    case None =>
    case Some(i) =>
      var k := if j < i then j else j - 1;
      RemoveAtIndex(es, i, k);
  }

  /** Where the children of es[..i] + es[i + 1..] come from. */
  lemma RemoveAtIndex(es: seq<Entry>, i: nat, k: nat)
    requires i < |es| && k < |es| - 1
    ensures |es[..i] + es[i + 1..]| == |es| - 1
    ensures (es[..i] + es[i + 1..])[k] == if k < i then es[k] else es[k + 1]
  {
  }

  /** With one spelling for the key, nothing binds it once its entry is removed. */
  lemma RemoveMatchClears(env: Env, es: seq<Entry>, key: ItemKey)
    requires UniqueMatch(env, es, key)
    ensures FirstMatch(env, RemoveMatch(env, es, key), key).None?
  {
    match FirstMatch(env, es, key)
    case None =>
    case Some(i) =>
      var r := es[..i] + es[i + 1..];
      forall k | 0 <= k < |r| ensures !Matches(env, r[k], key) {
        if k < i { assert r[k] == es[k]; } else { assert r[k] == es[k + 1]; }
      }
  }

  /**
    removePowerTool deletes one spelling only: afterwards another entry
    binds the key exactly when the scope spelled it more than once.
   */
  lemma RemoveExposesNext(env: Env, es: seq<Entry>, key: ItemKey)
    requires FirstMatch(env, es, key).Some?
    ensures FirstMatch(env, RemoveMatch(env, es, key), key).None? <==> UniqueMatch(env, es, key)
  {
    if UniqueMatch(env, es, key) {
      RemoveMatchClears(env, es, key);
    } else {
      RemoveLeavesOther(env, es, key);
    }
  }

  lemma RemoveLeavesOther(env: Env, es: seq<Entry>, key: ItemKey)
    requires FirstMatch(env, es, key).Some? && !UniqueMatch(env, es, key)
    ensures FirstMatch(env, RemoveMatch(env, es, key), key).Some?
  {
    var i := FirstMatch(env, es, key).value;
    var c := OtherMatch(env, es, key, i);
    RemoveAtIndex(es, i, c - 1);
    assert Matches(env, RemoveMatch(env, es, key)[c - 1], key);
  }

  /** Without a unique spelling, some other child binds the key too. */
  lemma OtherMatch(env: Env, es: seq<Entry>, key: ItemKey, i: nat) returns (c: nat)
    requires i < |es| && Matches(env, es[i], key) && !UniqueMatch(env, es, key)
    requires forall j :: 0 <= j < i ==> !Matches(env, es[j], key)
    ensures i < c < |es| && Matches(env, es[c], key)
  {
    var a, b :| 0 <= a < |es| && 0 <= b < |es| && Matches(env, es[a], key) && Matches(env, es[b], key) && a != b;
    c := if a == i then b else a;
  }

  /** savePowerTool touches no entry of the scope except the first match and the canonical spelling. */
  lemma SaveFrame(env: Env, es: seq<Entry>, key: ItemKey, tool: PowerTool)
    ensures forall j :: 0 <= j < |es| && es[j].rawKey != env.render(key) && FirstMatch(env, es, key) != Some(j) ==>
      es[j] in SaveEntries(env, es, key, tool)
    ensures forall e :: e in SaveEntries(env, es, key, tool) ==> e in es || e.rawKey == env.render(key)
  {
    var raw := env.render(key);
    var es1 := RemoveMatch(env, es, key);
    WriteActionsShape(env, es1, raw, tool);
    forall j | 0 <= j < |es| && es[j].rawKey != raw && FirstMatch(env, es, key) != Some(j)
      ensures es[j] in SaveEntries(env, es, key, tool)
    {
      RemoveMatchKeeps(env, es, key, j);
      PlaceKeeps(es1, raw, Prior(es1, raw) + ToolValues(env, tool));
    }
    assert forall e :: e in es1 ==> e in es;
    PlaceKeeps(es1, raw, Prior(es1, raw) + ToolValues(env, tool));
  }

  lemma PlaceKeeps(es: seq<Entry>, raw: string, m: map<string, string>)
    ensures forall e :: e in es && e.rawKey != raw ==> e in Place(es, raw, m)
    ensures forall e :: e in Place(es, raw, m) ==> e in es || e.rawKey == raw
  {
    match IndexOf(es, raw)
    case Some(j) =>
      forall e | e in es && e.rawKey != raw ensures e in Place(es, raw, m) {
        var k :| 0 <= k < |es| && es[k] == e;
        assert Place(es, raw, m)[k] == e;
      }
    case None =>
  }

  /** Entries at other indices after a Place come from the old children. */
  lemma PlaceIndex(es: seq<Entry>, raw: string, m: map<string, string>) returns (p: nat)
    ensures p < |Place(es, raw, m)| && Place(es, raw, m)[p] == Entry(raw, Section(m))
    ensures forall q :: 0 <= q < |Place(es, raw, m)| && q != p ==> q < |es| && Place(es, raw, m)[q] == es[q]
  {
    match IndexOf(es, raw)
    case Some(j) => p := j;
    case None => p := |es|;
  }

  /** The templates written for a well-formed tool build that same tool back. */
  lemma BuildToolValues(env: Env, tool: PowerTool)
    requires env.LabelsDistinct() && WellFormedTool(env, tool)
    ensures BuildTool(env, ToolValues(env, tool)) == Some(tool)
  {
    var node := ToolValues(env, tool);
    forall a ensures LabelCommand(env, node, a) == (if a in tool then Some(tool[a]) else None) {
      var other := if a == LeftClick then RightClick else LeftClick;
      assert env.displayName(a) != env.displayName(other);
      assert env.displayName(a) in node <==> a in tool;
      if a in tool { assert node[env.displayName(a)] == tool[a].command; }
    }
    forall a ensures !RejectedBy(env, node, a) {
    }
    forall a ensures a in tool <==> a in ToolFrom(env, node, Actions) { AllActions(a); }
    assert ToolFrom(env, node, Actions) == tool;
  }

  /**
    Round trip: when the scope spells `key` at most once and `key`'s
    canonical spelling parses back to it, loading after saving a
    well-formed tool yields that tool (an empty tool leaves nothing to load).
   */
  lemma SaveThenLoad(env: Env, doc: Document, base: string, key: ItemKey, tool: PowerTool)
    requires env.Canonical(key) && env.LabelsDistinct() && WellFormedTool(env, tool)
    requires base in doc ==> UniqueMatch(env, doc[base], key)
    ensures var es := if base in doc then doc[base] else [];
      LoadOne(env, doc[base := SaveEntries(env, es, key, tool)], base, key) ==
        if tool == map[] then None else Some(tool)
  {
    var es := if base in doc then doc[base] else [];
    var raw := env.render(key);
    var es1 := RemoveMatch(env, es, key);
    RemoveMatchClears(env, es, key);
    WriteActionsShape(env, es1, raw, tool);
    var es2 := SaveEntries(env, es, key, tool);
    if tool != map[] {
      assert Prior(es1, raw) == map[];
      assert Prior(es1, raw) + ToolValues(env, tool) == ToolValues(env, tool);
      var p := PlaceIndex(es1, raw, ToolValues(env, tool));
      assert Matches(env, es2[p], key);
      forall q | 0 <= q < |es2| && q != p ensures !Matches(env, es2[q], key) {
        assert es2[q] == es1[q];
      }
      assert FirstMatch(env, es2, key) == Some(p);
      BuildToolValues(env, tool);
    }
  }

  /**
    Saving keeps every key at one spelling at most, and afterwards `key` is
    bound exactly when the tool is not empty.
   */
  lemma SaveKeepsOneSpelling(env: Env, es: seq<Entry>, key: ItemKey, tool: PowerTool)
    requires env.Canonical(key) && OneSpellingPerKey(env, es)
    ensures OneSpellingPerKey(env, SaveEntries(env, es, key, tool))
    ensures FirstMatch(env, SaveEntries(env, es, key, tool), key).Some? <==> tool != map[]
  {
    var raw := env.render(key);
    var es1 := RemoveMatch(env, es, key);
    assert UniqueMatch(env, es, key);
    RemoveMatchClears(env, es, key);
    RemoveKeepsOneSpelling(env, es, key);
    WriteActionsShape(env, es1, raw, tool);
    var es2 := SaveEntries(env, es, key, tool);
    if tool != map[] {
      var m := Prior(es1, raw) + ToolValues(env, tool);
      var p := PlaceIndex(es1, raw, m);
      assert KeyOf(env, es2[p]) == Some(key);
      forall i, j | 0 <= i < j < |es2| && KeyOf(env, es2[i]).Some? ensures KeyOf(env, es2[i]) != KeyOf(env, es2[j]) {
        if i == p {
          assert es2[j] == es1[j];
        } else if j == p {
          assert es2[i] == es1[i];
        } else {
          assert es2[i] == es1[i] && es2[j] == es1[j];
        }
      }
    }
  }

  /** Removing keeps every key at one spelling at most. */
  lemma RemoveKeepsOneSpelling(env: Env, es: seq<Entry>, key: ItemKey)
    requires OneSpellingPerKey(env, es)
    ensures OneSpellingPerKey(env, RemoveMatch(env, es, key))
  {
    match FirstMatch(env, es, key)
    case None =>
    case Some(i) =>
      var r := es[..i] + es[i + 1..];
      forall a, b | 0 <= a < b < |r| && KeyOf(env, r[a]).Some? ensures KeyOf(env, r[a]) != KeyOf(env, r[b]) {
        var a' := if a < i then a else a + 1;
        var b' := if b < i then b else b + 1;
        assert r[a] == es[a'] && r[b] == es[b'];
      }
  }

  // ------------------------------------------------------------- the DAO

  /** YamlPowerToolDao: the configuration document and the operations on it. */
  class YamlPowerToolDao {
    const env: Env
    var config: Document
    /** Every document written to the file by ToHFileUtils.saveConfig, oldest first. */
    ghost var flushes: seq<Document>

    ghost predicate Valid()
      reads this
    {
      WellFormed(config)
    }

    /** The constructor that takes an already loaded configuration. */
    constructor (env: Env, config: Document)
      requires WellFormed(config)
      ensures Valid() && this.env == env && this.config == config && flushes == []
    {
      this.env := env;
      this.config := config;
      flushes := [];
    }

    method SetConfig(config: Document)
      requires WellFormed(config)
      modifies this
      ensures Valid() && this.config == config && flushes == old(flushes)
    {
      this.config := config;
    }

    /**
      The scan shared by three operations: the first child binding `key`,
      and the warnings logged for the children before it.
     */
    method Scan(es: seq<Entry>, key: ItemKey) returns (found: Option<nat>, warns: seq<Warning>)
      ensures found == FirstMatch(env, es, key)
      ensures warns == MatchWarnings(env, es, key)
    {
      warns := [];
      for i := 0 to |es|
        invariant forall j :: 0 <= j < i ==> !Matches(env, es[j], key)
        invariant warns == ScanWarnings(env, es[..i])
      {
        assert es[..i + 1][..i] == es[..i];
        var e := es[i];
        if !e.node.Section? {
          warns := warns + [NotMapNode(e.rawKey)];
          continue;
        }
        var matchedKey := env.Parse(e.rawKey);
        if matchedKey.Some? {
          if matchedKey.value == key {
            return Some(i), warns;
          }
        } else {
          warns := warns + [UnknownMaterial(e.rawKey)];
        }
      }
      assert es[..|es|] == es;
      return None, warns;
    }

    /** The private loadPowerTool(global, node, materialName); the body never reads `global`. */
    method LoadTool(global: bool, node: map<string, string>, materialName: string) returns (pt: Option<PowerTool>, warns: seq<Warning>)
      ensures pt == BuildTool(env, node)
      ensures warns == if pt.None? then [BadTokens(materialName)] else []
    {
      var tool: PowerTool := map[];
      for i := 0 to |Actions|
        invariant tool == ToolFrom(env, node, Actions[..i])
        invariant forall j :: 0 <= j < i ==> !RejectedBy(env, node, Actions[j])
      {
        var action := Actions[i];
        assert Actions[..i + 1] == Actions[..i] + [action];
        var command := if env.displayName(action) in node then node[env.displayName(action)] else "";
        if env.displayName(action) in node && env.hasText(command) {
          var hasPlayerToken := Contains(command, env.tokens.player);
          var hasAirToken := Contains(command, env.tokens.yAir);
          var hasLocationToken := Contains(command, env.tokens.x) || Contains(command, env.tokens.y) ||
                                  Contains(command, env.tokens.z) || hasAirToken;
          if hasPlayerToken && hasLocationToken {
            assert RejectedBy(env, node, action);
            return None, [BadTokens(materialName)];
          }
          tool := tool[action := Command(command, hasPlayerToken, hasLocationToken, hasAirToken)];
        }
      }
      assert Actions[..|Actions|] == Actions;
      forall a | a in Actions ensures !RejectedBy(env, node, a) {
        var j :| 0 <= j < |Actions| && Actions[j] == a;
      }
      return Some(tool), [];
    }

    /** loadPowerTool(player, key). */
    method LoadPowerTool(player: Option<string>, key: ItemKey) returns (pt: Option<PowerTool>, warns: seq<Warning>)
      ensures pt == LoadOne(env, config, GetBasePath(player), key)
      ensures warns == LoadOneWarnings(env, config, GetBasePath(player), key)
    {
      var base := GetBasePath(player);
      if base !in config {
        return None, [];
      }
      var es := config[base];
      var found;
      found, warns := Scan(es, key);
      if found.None? {
        return None, warns;
      }
      var e := es[found.value];
      var w;
      pt, w := LoadTool(player.None?, e.node.values, e.rawKey);
      warns := warns + w;
    }

    /** loadPowerTools(player). */
    method LoadPowerTools(player: Option<string>) returns (powerTools: map<ItemKey, PowerTool>, warns: seq<Warning>)
      ensures var base := GetBasePath(player);
        powerTools == if base in config then CollectTools(env, config[base]) else map[]
      ensures var base := GetBasePath(player);
        warns == if base in config then CollectWarnings(env, config[base]) else []
    {
      powerTools, warns := map[], [];
      var base := GetBasePath(player);
      if base in config {
        var es := config[base];
        for i := 0 to |es|
          invariant powerTools == CollectTools(env, es[..i])
          invariant warns == CollectWarnings(env, es[..i])
        {
          assert es[..i + 1][..i] == es[..i];
          var e := es[i];
          if !e.node.Section? {
            warns := warns + [NotMapNode(e.rawKey)];
            continue;
          }
          var matchedKey := env.Parse(e.rawKey);
          if matchedKey.Some? {
            var pt, w := LoadTool(player.None?, e.node.values, e.rawKey);
            warns := warns + w;
            if pt.Some? {
              powerTools := powerTools[matchedKey.value := pt.value];
            }
          } else {
            warns := warns + [UnknownMaterial(e.rawKey)];
          }
        }
        assert es[..|es|] == es;
      }
    }

    /** removePowerTool(player, key). */
    method RemovePowerTool(player: Option<string>, key: ItemKey) returns (warns: seq<Warning>)
      requires Valid()
      modifies this
      ensures Valid()
      ensures var base := GetBasePath(player);
        base !in old(config) ==> config == old(config) && flushes == old(flushes) && warns == []
      ensures var base := GetBasePath(player);
        base in old(config) ==>
          && config == old(config)[base := RemoveMatch(env, old(config)[base], key)]
          && flushes == old(flushes) + (if FirstMatch(env, old(config)[base], key).Some? then [config] else [])
          && warns == MatchWarnings(env, old(config)[base], key)
    {
      var base := GetBasePath(player);
      warns := [];
      if base in config {
        var es := config[base];
        var found;
        found, warns := Scan(es, key);
        if found.Some? {
          DeleteEntry(base, found.value);
          flushes := flushes + [config];
        }
      }
    }

    /** config.set("<base>.<rawKey>", null) for the child at index i of the scope. */
    method DeleteEntry(base: string, i: nat)
      requires Valid() && base in config && i < |config[base]|
      modifies this
      ensures Valid()
      ensures config == old(config)[base := old(config)[base][..i] + old(config)[base][i + 1..]]
      ensures flushes == old(flushes)
    {
      RemoveAtDistinct(config[base], i);
      config := config[base := config[base][..i] + config[base][i + 1..]];
    }

    /** The loop of savePowerTool that sets "<materialPath>.<displayName>" for each bound action. */
    method WriteCommands(base: string, raw: string, powerTool: PowerTool)
      requires Valid() && base in config
      modifies this
      ensures Valid()
      ensures config == old(config)[base := WriteActions(env, old(config)[base], raw, powerTool, Actions)]
      ensures flushes == old(flushes)
    {
      ghost var es := config[base];
      for i := 0 to |Actions|
        invariant config == old(config)[base := WriteActions(env, es, raw, powerTool, Actions[..i])]
        invariant flushes == old(flushes)
      {
        var action := Actions[i];
        assert Actions[..i + 1][..i] == Actions[..i];
        if action in powerTool {
          config := config[base := SetValue(config[base], raw, env.displayName(action), powerTool[action].command)];
        }
      }
      assert Actions[..|Actions|] == Actions;
      WriteActionsDistinct(env, es, raw, powerTool, Actions);
    }

    /** savePowerTool(player, key, powerTool). */
    method SavePowerTool(player: Option<string>, key: ItemKey, powerTool: PowerTool) returns (warns: seq<Warning>)
      requires Valid()
      modifies this
      ensures Valid()
      ensures var base := GetBasePath(player);
        var es := if base in old(config) then old(config)[base] else [];
        && config == old(config)[base := SaveEntries(env, es, key, powerTool)]
        && flushes == old(flushes) + [config]
        && warns == MatchWarnings(env, es, key)
    {
      var base := GetBasePath(player);
      if base !in config {
        config := config[base := []];
      }
      var es := config[base];
      ghost var doc := old(config);
      assert config == doc[base := es];
      var found;
      found, warns := Scan(es, key);
      if found.Some? {
        DeleteEntry(base, found.value);
      }
      assert config == doc[base := RemoveMatch(env, es, key)];
      // The material path is the base path, a dot and key's canonical spelling.
      WriteCommands(base, env.render(key), powerTool);
      assert config == doc[base := SaveEntries(env, es, key, powerTool)];
      flushes := flushes + [config];
    }
  }
}
