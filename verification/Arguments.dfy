/** The argument guard of the managed Sessionbus grant, and what it guarantees about the
    configuration native Codex builds from the arguments. */
module Arguments {
  import opened Prelude

  // ----- text ----------------------------------------------------------------------------------

  predicate HasPrefix(s: string, p: string) {
    p <= s
  }

  function TrimPrefix(s: string, p: string): string {
    if p <= s then s[|p|..] else s
  }

  /** Before and after the first occurrence of a character; the flag says whether it occurs. */
  function Cut(s: string, c: char): (string, string, bool) {
    if s == "" then ("", "", false)
    else if s[0] == c then ("", s[1..], true)
    else
      var (before, after, found) := Cut(s[1..], c);
      ([s[0]] + before, after, found)
  }

  function Split(s: string, c: char): seq<string>
    decreases |s|
  {
    var (before, after, found) := Cut(s, c);
    CutShrinks(s, c);
    if found then [before] + Split(after, c) else [s]
  }

  lemma CutShrinks(s: string, c: char)
    ensures Cut(s, c).2 ==> |Cut(s, c).1| < |s|
  {
  }

  predicate IsSpace(c: char) {
    || c == '\t' || c == '\n' || c == '\U{000B}' || c == '\U{000C}' || c == '\r' || c == ' '
    || c == '\U{0085}' || c == '\U{00A0}' || c == '\U{1680}' || '\U{2000}' <= c <= '\U{200A}'
    || c == '\U{2028}' || c == '\U{2029}' || c == '\U{202F}' || c == '\U{205F}' || c == '\U{3000}'
  }

  function TrimSpace(s: string): string {
    if s == "" then s
    else if IsSpace(s[0]) then TrimSpace(s[1..])
    else if IsSpace(s[|s| - 1]) then TrimSpace(s[..|s| - 1])
    else s
  }

  predicate IsQuote(c: char) {
    c == '"' || c == '\''
  }

  function TrimQuotes(s: string): string {
    if s == "" then s
    else if IsQuote(s[0]) then TrimQuotes(s[1..])
    else if IsQuote(s[|s| - 1]) then TrimQuotes(s[..|s| - 1])
    else s
  }

  // ----- configuration assignments -------------------------------------------------------------

  type Path = seq<string>

  /** The TOML library: what a source text decodes to as a value of each kind. */
  datatype Toml = Toml(
    truth: string -> Option<bool>,
    strings: string -> Option<seq<string>>,
    text: string -> Option<string>)

  ghost predicate Lawful(t: Toml) {
    t.truth("true") == Some(true) && t.truth("false") == Some(false) && t.text("\"approve\"") == Some("approve")
  }

  const PluginID: string := "codex@sessionbus-peers"

  const FeaturesPlugins: Path := ["features", "plugins"]
  const PluginEnabled: Path := ["plugins", PluginID, "enabled"]
  const ServerEnabled: Path := ["plugins", PluginID, "mcp_servers", "sessionbus", "enabled"]
  const EnabledTools: Path := ["plugins", PluginID, "mcp_servers", "sessionbus", "enabled_tools"]
  const DisabledTools: Path := ["plugins", PluginID, "mcp_servers", "sessionbus", "disabled_tools"]
  const ApprovalMode: Path := ["plugins", PluginID, "mcp_servers", "sessionbus", "tools", "sessionbus", "approval_mode"]

  const ManagedPaths: seq<Path> :=
    [FeaturesPlugins, PluginEnabled, ServerEnabled, EnabledTools, DisabledTools, ApprovalMode]

  /** A key and a TOML source value, if the text is an assignment at all. */
  function Assignment(value: string): Option<(Path, string)> {
    var (before, after, found) := Cut(value, '=');
    var key := TrimSpace(before);
    if !found || key == "" then None else Some((Split(key, '.'), TrimSpace(after)))
  }

  function TextValue(t: Toml, value: string): string {
    match t.text(value)
    case Some(s) => s
    case None => TrimQuotes(TrimSpace(value))
  }

  /** The value repeats or keeps the managed setting at this path. */
  predicate Compatible(t: Toml, path: Path, value: string) {
    if path == FeaturesPlugins || path == PluginEnabled || path == ServerEnabled then t.truth(value) == Some(true)
    else if path == EnabledTools then t.strings(value).Some? && "sessionbus" in t.strings(value).value
    else if path == DisabledTools then t.strings(value).Some? && "sessionbus" !in t.strings(value).value
    else path == ApprovalMode && TextValue(t, value) == "approve"
  }

  /** One path is an ancestor of the other, or they are the same. */
  predicate Related(p: Path, q: Path) {
    p <= q || q <= p
  }

  // ----- the scan ------------------------------------------------------------------------------

  /** What the guard looks at in an argument list. */
  datatype Item = Assign(value: string) | Disable(feature: string)

  /** The guard's own reading of an argument list, left to right, up to the native delimiter. */
  function Scan(args: seq<string>): seq<Item>
    decreases |args|
  {
    if args == [] || args[0] == "--" then []
    else
      var a := args[0];
      if a == "-c" || a == "--config" then
        if |args| > 1 && args[1] != "--" && !HasPrefix(args[1], "-") then [Assign(args[1])] + Scan(args[2..])
        else Scan(args[1..])
      else if HasPrefix(a, "--config=") then [Assign(TrimPrefix(a, "--config="))] + Scan(args[1..])
      else if HasPrefix(a, "-c") then [Assign(TrimPrefix(TrimPrefix(a, "-c"), "="))] + Scan(args[1..])
      else if a == "--disable" then
        if |args| > 1 && args[1] != "--" then [Disable(args[1])] + Scan(args[2..]) else Scan(args[1..])
      else if HasPrefix(a, "--disable=") then [Disable(TrimPrefix(a, "--disable="))] + Scan(args[1..])
      else Scan(args[1..])
  }

  /** A path the guard lets through: it touches no managed path, or repeats one compatibly. */
  ghost predicate Harmless(t: Toml, path: Path, value: string) {
    || (forall m | m in ManagedPaths :: !Related(path, m))
    || (path in ManagedPaths && Compatible(t, path, value))
  }

  ghost predicate ItemOk(t: Toml, item: Item) {
    match item
    case Disable(feature) => feature != "plugins"
    case Assign(value) =>
      match Assignment(value)
      case None => true
      case Some((path, v)) => Harmless(t, path, v)
  }

  ghost predicate Accepts(t: Toml, args: seq<string>) {
    forall item | item in Scan(args) :: ItemOk(t, item)
  }

  // ----- the guard -----------------------------------------------------------------------------

  method PathPrefix(path: Path, target: Path) returns (ok: bool)
    ensures ok <==> path <= target
  {
    if |path| > |target| { return false; }
    for index := 0 to |path|
      invariant path[..index] == target[..index]
    {
      if path[index] != target[index] { return false; }
    }
    return true;
  }

  /** No managed path is an ancestor of another, so the first match settles the matter. */
  lemma ManagedAntichain(i: nat, j: nat)
    requires i < |ManagedPaths| && j < |ManagedPaths| && Related(ManagedPaths[i], ManagedPaths[j])
    ensures i == j
  {
    var p, q := ManagedPaths[i], ManagedPaths[j];
    assert p[0] == q[0];
    if i > 0 && j > 0 {
      assert p[2] == q[2];
      if i > 1 && j > 1 { assert p[4] == q[4]; }
    }
  }

  /** The inner loop: the managed paths in order, leaving early at a compatible repetition. */
  method Conflicts(t: Toml, path: Path, value: string) returns (conflict: bool)
    ensures conflict <==> !Harmless(t, path, value)
  {
    var k := 0;
    while k < |ManagedPaths|
      invariant k <= |ManagedPaths|
      invariant forall j | 0 <= j < k :: !Related(path, ManagedPaths[j])
    {
      var managed := ManagedPaths[k];
      var under := PathPrefix(path, managed);
      var over := PathPrefix(managed, path);
      if under || over {
        if path == managed && Compatible(t, path, value) { return false; }
        conflict := true;
        NotHarmless(t, path, value, k);
        return;
      }
      k := k + 1;
    }
    return false;
  }

  lemma NotHarmless(t: Toml, path: Path, value: string, k: nat)
    requires k < |ManagedPaths| && Related(path, ManagedPaths[k])
    requires !(path == ManagedPaths[k] && Compatible(t, path, value))
    ensures !Harmless(t, path, value)
  {
    assert ManagedPaths[k] in ManagedPaths;
    if path in ManagedPaths {
      var j :| 0 <= j < |ManagedPaths| && ManagedPaths[j] == path;
      ManagedAntichain(j, k);
    }
  }

  /** The switch of the guard: what the argument at `index` contributes and where the scan goes on. */
  method NextItem(arguments: seq<string>, index: nat) returns (item: Option<Item>, next: nat)
    requires index < |arguments| && arguments[index] != "--"
    ensures index < next <= |arguments|
    ensures Scan(arguments[index..]) == (if item.Some? then [item.value] else []) + Scan(arguments[next..])
  {
    var argument := arguments[index];
    ghost var rest := arguments[index..];
    assert rest[1..] == arguments[index + 1..];
    item, next := None, index + 1;
    if argument == "-c" || argument == "--config" {
      if index + 1 < |arguments| && arguments[index + 1] != "--" && !HasPrefix(arguments[index + 1], "-") {
        assert rest[2..] == arguments[index + 2..];
        item, next := Some(Assign(arguments[index + 1])), index + 2;
      }
    } else if HasPrefix(argument, "--config=") {
      item := Some(Assign(TrimPrefix(argument, "--config=")));
    } else if HasPrefix(argument, "-c") && |argument| > 2 {
      item := Some(Assign(TrimPrefix(TrimPrefix(argument, "-c"), "=")));
    } else if argument == "--disable" {
      if index + 1 < |arguments| && arguments[index + 1] != "--" {
        assert rest[2..] == arguments[index + 2..];
        item, next := Some(Disable(arguments[index + 1])), index + 2;
      }
    } else if HasPrefix(argument, "--disable=") {
      item := Some(Disable(TrimPrefix(argument, "--disable=")));
    }
  }

  method CheckItem(t: Toml, item: Item) returns (ok: bool)
    ensures ok <==> ItemOk(t, item)
  {
    match item {
      case Disable(feature) => return feature != "plugins";
      case Assign(value) =>
        var assignment := Assignment(value);
        if assignment.None? { return true; }
        var conflict := Conflicts(t, assignment.value.0, assignment.value.1);
        return !conflict;
    }
  }

  /** The whole guard, in the order the arguments come. */
  method ValidateManagedConfig(t: Toml, arguments: seq<string>) returns (ok: bool)
    ensures ok <==> Accepts(t, arguments)
  {
    hide ItemOk;
    var index := 0;
    ghost var done: seq<Item> := [];
    assert arguments[0..] == arguments;
    while index < |arguments|
      invariant index <= |arguments|
      invariant Scan(arguments) == done + Scan(arguments[index..])
      invariant forall item | item in done :: ItemOk(t, item)
    {
      if arguments[index] == "--" { return true; }
      var item, next := NextItem(arguments, index);
      if item.Some? {
        ok := CheckItem(t, item.value);
        assert Scan(arguments) == done + [item.value] + Scan(arguments[next..]);
        if !ok { assert item.value in Scan(arguments); return; }
        done := done + [item.value];
      }
      index := next;
    }
    return true;
  }

  // ----- the configuration tree ----------------------------------------------------------------

  /** A configuration, by its leaves. */
  type Tree = map<Path, string>

  /** A later assignment replaces the subtree at its path and any scalar above it. */
  function Set(tree: Tree, path: Path, value: string): Tree {
    (map q | q in tree && !Related(q, path) :: tree[q])[path := value]
  }

  function Apply(tree: Tree, item: Item): Tree {
    match item
    case Disable(feature) => Set(tree, ["features", feature], "false")
    case Assign(value) =>
      match Assignment(value)
      case None => tree
      case Some((path, v)) => Set(tree, path, v)
  }

  function Fold(tree: Tree, items: seq<Item>): Tree
    decreases |items|
  {
    if items == [] then tree else Fold(Apply(tree, items[0]), items[1..])
  }

  /** A dotted key. */
  function Key(path: Path): string
    requires path != []
  {
    if |path| == 1 then path[0] else path[0] + "." + Key(path[1..])
  }

  function Override(path: Path, value: string): string
    requires path != []
  {
    Key(path) + "=" + value
  }

  /** What every launch puts before the caller's arguments. */
  const Activation: seq<string> := [
    "-c", Override(FeaturesPlugins, "true"),
    "-c", Override(PluginEnabled, "true"),
    "-c", Override(ApprovalMode, "\"approve\"")]

  /** The path has exactly this leaf: nothing above it, nothing below it. */
  ghost predicate LeafAt(tree: Tree, path: Path, t: Toml) {
    && path in tree && Compatible(t, path, tree[path])
    && forall q | q in tree && Related(q, path) :: q == path
  }

  /** At every managed path: a compatible leaf, or nothing but what the tree `base` already had. */
  ghost predicate Keeps(t: Toml, base: Tree, tree: Tree) {
    forall m | m in ManagedPaths ::
      LeafAt(tree, m, t) || forall q | q in tree && Related(q, m) :: q in base && base[q] == tree[q]
  }

  /** The grant: plugins on, the plugin on, the tool approved, whatever else the base says. */
  ghost predicate Granted(t: Toml, tree: Tree) {
    LeafAt(tree, FeaturesPlugins, t) && LeafAt(tree, PluginEnabled, t) && LeafAt(tree, ApprovalMode, t)
  }

  // ----- what native makes of the configuration ------------------------------------------------

  /** The text is the word in spaces and quotes, the quotes inside the spaces. */
  ghost predicate Wrapped(s: string, word: string) {
    exists a, b, c, d: string :: s == a + (b + word + c) + d && AllSpace(a) && AllQuotes(b) && AllQuotes(c) && AllSpace(d)
  }

  predicate AllSpace(s: string) {
    forall k | 0 <= k < |s| :: IsSpace(s[k])
  }

  predicate AllQuotes(s: string) {
    forall k | 0 <= k < |s| :: IsQuote(s[k])
  }

  /** Native reads the value as the word: decoded, or raw if it does not decode. */
  ghost predicate ReadsAs(t: Toml, value: string, word: string) {
    t.text(value) == Some(word) || (t.text(value).None? && Wrapped(value, word))
  }

  /** The server's own switches, where they are set at all: the server is on, its list of enabled tools
      has the tool, its list of disabled tools has not. */
  ghost predicate SwitchesUsable(t: Toml, tree: Tree) {
    && (forall q | q in tree && Related(q, ServerEnabled) :: q == ServerEnabled && t.truth(tree[q]) == Some(true))
    && (forall q | q in tree && Related(q, EnabledTools) ::
          q == EnabledTools && t.strings(tree[q]).Some? && "sessionbus" in t.strings(tree[q]).value)
    && (forall q | q in tree && Related(q, DisabledTools) ::
          q == DisabledTools && t.strings(tree[q]).Some? && "sessionbus" !in t.strings(tree[q]).value)
  }

  /** The configuration gives native the tool: plugins are on, the plugin is on, the tool is approved, and
      the server's switches do not take it away. */
  ghost predicate Usable(t: Toml, tree: Tree) {
    && FeaturesPlugins in tree && t.truth(tree[FeaturesPlugins]) == Some(true)
    && PluginEnabled in tree && t.truth(tree[PluginEnabled]) == Some(true)
    && ApprovalMode in tree && ReadsAs(t, tree[ApprovalMode], "approve")
    && (forall q | q in tree && Related(q, FeaturesPlugins) :: q == FeaturesPlugins)
    && (forall q | q in tree && Related(q, PluginEnabled) :: q == PluginEnabled)
    && (forall q | q in tree && Related(q, ApprovalMode) :: q == ApprovalMode)
    && SwitchesUsable(t, tree)
  }

  lemma {:induction false} TrimSpaceWraps(s: string) returns (a: string, d: string)
    ensures s == a + TrimSpace(s) + d && AllSpace(a) && AllSpace(d)
    decreases |s|
  {
    if s == "" {
      a, d := "", "";
    } else if IsSpace(s[0]) {
      a, d := TrimSpaceWraps(s[1..]);
      a := [s[0]] + a;
    } else if IsSpace(s[|s| - 1]) {
      a, d := TrimSpaceWraps(s[..|s| - 1]);
      d := d + [s[|s| - 1]];
    } else {
      a, d := "", "";
    }
    hide IsSpace;
  }

  lemma {:induction false} TrimQuotesWraps(s: string) returns (b: string, c: string)
    ensures s == b + TrimQuotes(s) + c && AllQuotes(b) && AllQuotes(c)
    decreases |s|
  {
    if s == "" {
      b, c := "", "";
    } else if IsQuote(s[0]) {
      b, c := TrimQuotesWraps(s[1..]);
      b := [s[0]] + b;
    } else if IsQuote(s[|s| - 1]) {
      b, c := TrimQuotesWraps(s[..|s| - 1]);
      c := c + [s[|s| - 1]];
    } else {
      b, c := "", "";
    }
  }

  lemma {:induction false} SpaceTrimmed(a: string, m: string, d: string)
    requires AllSpace(a) && AllSpace(d) && m != "" && !IsSpace(m[0]) && !IsSpace(m[|m| - 1])
    ensures TrimSpace(a + m + d) == m
    decreases |a| + |d|
  {
    var s := a + m + d;
    hide IsSpace;
    if a != "" {
      assert s[1..] == a[1..] + m + d;
      SpaceTrimmed(a[1..], m, d);
    } else if d != "" {
      assert s[..|s| - 1] == a + m + d[..|d| - 1] && s[0] == m[0];
      SpaceTrimmed(a, m, d[..|d| - 1]);
    } else {
      assert s == m;
    }
  }

  lemma {:induction false} QuotesTrimmed(b: string, m: string, c: string)
    requires AllQuotes(b) && AllQuotes(c) && m != "" && !IsQuote(m[0]) && !IsQuote(m[|m| - 1])
    ensures TrimQuotes(b + m + c) == m
    decreases |b| + |c|
  {
    var s := b + m + c;
    hide IsQuote;
    if b != "" {
      assert s[1..] == b[1..] + m + c;
      QuotesTrimmed(b[1..], m, c);
    } else if c != "" {
      assert s[..|s| - 1] == b + m + c[..|c| - 1] && s[0] == m[0];
      QuotesTrimmed(b, m, c[..|c| - 1]);
    } else {
      assert s == m;
    }
  }

  lemma WrappedIsTrimmed(s: string, word: string)
    requires word != "" && !IsQuote(word[0]) && !IsQuote(word[|word| - 1]) && !IsSpace(word[0]) && !IsSpace(word[|word| - 1])
    ensures Wrapped(s, word) <==> TrimQuotes(TrimSpace(s)) == word
  {
    if TrimQuotes(TrimSpace(s)) == word {
      var a, d := TrimSpaceWraps(s);
      var b, c := TrimQuotesWraps(TrimSpace(s));
      assert s == a + (b + word + c) + d;
    }
    if a, b, c, d: string :|
        s == a + (b + word + c) + d && AllSpace(a) && AllQuotes(b) && AllQuotes(c) && AllSpace(d) {
      var m := b + word + c;
      assert !IsSpace(m[0]) && !IsSpace(m[|m| - 1]) by {
        assert m[0] == if b == "" then word[0] else b[0];
        assert m[|m| - 1] == if c == "" then word[|word| - 1] else c[|c| - 1];
      }
      hide IsSpace, IsQuote;
      SpaceTrimmed(a, m, d);
      QuotesTrimmed(b, word, c);
    }
  }

  /** The guard's test at each managed path is native's reading there. */
  lemma CompatibleReads(t: Toml, v: string)
    ensures Compatible(t, FeaturesPlugins, v) <==> t.truth(v) == Some(true)
    ensures Compatible(t, PluginEnabled, v) <==> t.truth(v) == Some(true)
    ensures Compatible(t, ServerEnabled, v) <==> t.truth(v) == Some(true)
    ensures Compatible(t, EnabledTools, v) <==> t.strings(v).Some? && "sessionbus" in t.strings(v).value
    ensures Compatible(t, DisabledTools, v) <==> t.strings(v).Some? && "sessionbus" !in t.strings(v).value
    ensures Compatible(t, ApprovalMode, v) <==> ReadsAs(t, v, "approve")
  {
    WrappedIsTrimmed(v, "approve");
    hide Wrapped, TrimSpace, TrimQuotes;
    assert |FeaturesPlugins| == 2 && |PluginEnabled| == 3 && |ServerEnabled| == 5 && |ApprovalMode| == 7;
    assert ServerEnabled[4] != EnabledTools[4] && EnabledTools[4] != DisabledTools[4] && ServerEnabled[4] != DisabledTools[4];
  }

  lemma ManagedMembers()
    ensures FeaturesPlugins in ManagedPaths && PluginEnabled in ManagedPaths && ApprovalMode in ManagedPaths
    ensures ServerEnabled in ManagedPaths && EnabledTools in ManagedPaths && DisabledTools in ManagedPaths
    ensures forall m | m in ManagedPaths ::
              m in {FeaturesPlugins, PluginEnabled, ApprovalMode, ServerEnabled, EnabledTools, DisabledTools}
  {
    assert ManagedPaths[0] == FeaturesPlugins && ManagedPaths[1] == PluginEnabled && ManagedPaths[2] == ServerEnabled;
    assert ManagedPaths[3] == EnabledTools && ManagedPaths[4] == DisabledTools && ManagedPaths[5] == ApprovalMode;
  }

  /** The guard's test agrees with native's reading at every managed path. */
  ghost predicate Agrees(t: Toml) {
    forall v {:trigger t.truth(v)} {:trigger t.strings(v)} {:trigger ReadsAs(t, v, "approve")} ::
      && (Compatible(t, FeaturesPlugins, v) <==> t.truth(v) == Some(true))
      && (Compatible(t, PluginEnabled, v) <==> t.truth(v) == Some(true))
      && (Compatible(t, ServerEnabled, v) <==> t.truth(v) == Some(true))
      && (Compatible(t, EnabledTools, v) <==> t.strings(v).Some? && "sessionbus" in t.strings(v).value)
      && (Compatible(t, DisabledTools, v) <==> t.strings(v).Some? && "sessionbus" !in t.strings(v).value)
      && (Compatible(t, ApprovalMode, v) <==> ReadsAs(t, v, "approve"))
  }

  lemma AgreesAlways(t: Toml)
    ensures Agrees(t)
  {
    forall v ensures Compatible(t, FeaturesPlugins, v) <==> t.truth(v) == Some(true)
      ensures Compatible(t, PluginEnabled, v) <==> t.truth(v) == Some(true)
      ensures Compatible(t, ServerEnabled, v) <==> t.truth(v) == Some(true)
      ensures Compatible(t, EnabledTools, v) <==> t.strings(v).Some? && "sessionbus" in t.strings(v).value
      ensures Compatible(t, DisabledTools, v) <==> t.strings(v).Some? && "sessionbus" !in t.strings(v).value
      ensures Compatible(t, ApprovalMode, v) <==> ReadsAs(t, v, "approve")
    {
      CompatibleReads(t, v);
    }
    hide Compatible, ReadsAs;
  }

  /** The three leaves and the switches, as native reads them: a tree that keeps what a usable base had is
      usable, and a usable tree keeps nothing from anywhere. */
  lemma GrantIsUsable(t: Toml, base: Tree, tree: Tree)
    ensures Granted(t, tree) && Keeps(t, base, tree) && SwitchesUsable(t, base) ==> Usable(t, tree)
    ensures Usable(t, tree) ==> Granted(t, tree) && Keeps(t, map[], tree)
  {
    AgreesAlways(t);
    if Granted(t, tree) && Keeps(t, base, tree) && SwitchesUsable(t, base) { KeptIsUsable(t, base, tree); }
    if Usable(t, tree) { UsableIsGranted(t, tree); }
    hide Granted, Keeps, SwitchesUsable, Usable, Agrees;
  }

  lemma KeptIsUsable(t: Toml, base: Tree, tree: Tree)
    requires Agrees(t) && Granted(t, tree) && Keeps(t, base, tree) && SwitchesUsable(t, base)
    ensures Usable(t, tree)
  {
    KeptSwitches(t, base, tree);
    hide Compatible, ReadsAs, Keeps, SwitchesUsable;
  }

  lemma KeptSwitches(t: Toml, base: Tree, tree: Tree)
    requires Agrees(t) && Keeps(t, base, tree) && SwitchesUsable(t, base)
    ensures SwitchesUsable(t, tree)
  {
    ManagedMembers();
    hide Compatible, ReadsAs;
  }

  lemma UsableIsGranted(t: Toml, tree: Tree)
    requires Agrees(t) && Usable(t, tree)
    ensures Granted(t, tree) && Keeps(t, map[], tree)
  {
    ManagedMembers();
    hide Compatible, ReadsAs;
    assert Related(FeaturesPlugins, FeaturesPlugins) && Related(PluginEnabled, PluginEnabled) && Related(ApprovalMode, ApprovalMode);
  }

  /** One assignment at a harmless path. */
  lemma SetKeepsLeaf(t: Toml, tree: Tree, path: Path, value: string, m: Path)
    requires m in ManagedPaths && Harmless(t, path, value) && LeafAt(tree, m, t)
    ensures LeafAt(Set(tree, path, value), m, t)
  {
    if Related(path, m) {
      var j :| 0 <= j < |ManagedPaths| && ManagedPaths[j] == path;
      var k :| 0 <= k < |ManagedPaths| && ManagedPaths[k] == m;
      ManagedAntichain(j, k);
    }
  }

  lemma SetKeeps(t: Toml, base: Tree, tree: Tree, path: Path, value: string)
    requires Harmless(t, path, value) && Keeps(t, base, tree)
    ensures Keeps(t, base, Set(tree, path, value))
  {
    var tree' := Set(tree, path, value);
    forall m | m in ManagedPaths
      ensures LeafAt(tree', m, t) || forall q | q in tree' && Related(q, m) :: q in base && base[q] == tree'[q]
    {
      if LeafAt(tree, m, t) {
        SetKeepsLeaf(t, tree, path, value, m);
      } else if path == m {
        assert LeafAt(tree', m, t);
      } else {
        assert !Related(path, m) by {
          if Related(path, m) {
            var j :| 0 <= j < |ManagedPaths| && ManagedPaths[j] == path;
            var k :| 0 <= k < |ManagedPaths| && ManagedPaths[k] == m;
            ManagedAntichain(j, k);
          }
        }
      }
    }
  }

  /** Disabling any other feature is harmless. */
  lemma DisableHarmless(t: Toml, feature: string)
    requires feature != "plugins"
    ensures Harmless(t, ["features", feature], "false")
  {
    var p := ["features", feature];
    forall m | m in ManagedPaths ensures !Related(p, m) {
      var k :| 0 <= k < |ManagedPaths| && ManagedPaths[k] == m;
      assert p[0] != m[0] || (k == 0 && p[1] != m[1]);
    }
  }

  lemma ApplyKeeps(t: Toml, base: Tree, tree: Tree, item: Item)
    requires ItemOk(t, item) && Keeps(t, base, tree)
    ensures Keeps(t, base, Apply(tree, item))
    ensures forall m | m in ManagedPaths && LeafAt(tree, m, t) :: LeafAt(Apply(tree, item), m, t)
  {
    var effect := match item
      case Disable(feature) => Some((["features", feature], "false"))
      case Assign(value) => Assignment(value);
    if effect.Some? {
      var (path, v) := effect.value;
      if item.Disable? { DisableHarmless(t, item.feature); }
      SetKeeps(t, base, tree, path, v);
      forall m | m in ManagedPaths && LeafAt(tree, m, t) ensures LeafAt(Set(tree, path, v), m, t) {
        SetKeepsLeaf(t, tree, path, v, m);
      }
    }
  }

  /** Any sequence of accepted items, in any order, keeps what is granted. */
  lemma {:induction false} FoldKeeps(t: Toml, base: Tree, tree: Tree, items: seq<Item>)
    requires (forall item | item in items :: ItemOk(t, item)) && Keeps(t, base, tree)
    ensures Keeps(t, base, Fold(tree, items))
    ensures forall m | m in ManagedPaths && LeafAt(tree, m, t) :: LeafAt(Fold(tree, items), m, t)
    decreases |items|
  {
    if items != [] {
      hide Keeps, LeafAt, ItemOk;
      ApplyKeeps(t, base, tree, items[0]);
      FoldKeeps(t, base, Apply(tree, items[0]), items[1..]);
    }
  }

  // ----- assignments read back -----------------------------------------------------------------

  lemma {:induction false} CutAt(before: string, after: string, c: char)
    requires c !in before
    ensures Cut(before + [c] + after, c) == (before, after, true)
  {
    var s := before + [c] + after;
    if before == "" {
      assert s[1..] == after;
    } else {
      assert s[1..] == before[1..] + [c] + after;
      CutAt(before[1..], after, c);
      assert [before[0]] + before[1..] == before;
    }
  }

  lemma {:induction false} CutNone(s: string, c: char)
    requires c !in s
    ensures Cut(s, c) == (s, "", false)
  {
    if s != "" {
      CutNone(s[1..], c);
      assert [s[0]] + s[1..] == s;
    }
  }

  predicate Plain(path: Path) {
    path != [] && forall k | 0 <= k < |path| :: path[k] != "" && '.' !in path[k] && '=' !in path[k]
  }

  lemma {:induction false} SplitKey(path: Path)
    requires Plain(path)
    ensures Split(Key(path), '.') == path && Key(path) != "" && '=' !in Key(path)
    ensures Key(path)[0] == path[0][0]
    ensures Key(path)[|Key(path)| - 1] == path[|path| - 1][|path[|path| - 1]| - 1]
  {
    if |path| == 1 {
      CutNone(path[0], '.');
    } else {
      SplitKey(path[1..]);
      CutAt(path[0], Key(path[1..]), '.');
      assert Key(path) == path[0] + ['.'] + Key(path[1..]);
    }
  }

  lemma TrimmedAlready(s: string)
    requires s != "" && !IsSpace(s[0]) && !IsSpace(s[|s| - 1])
    ensures TrimSpace(s) == s
  {
  }

  /** An override names exactly its path and value. */
  lemma OverrideReadsBack(path: Path, value: string)
    requires Plain(path) && !IsSpace(path[0][0]) && !IsSpace(path[|path| - 1][|path[|path| - 1]| - 1])
    requires value != "" && !IsSpace(value[0]) && !IsSpace(value[|value| - 1])
    ensures Assignment(Override(path, value)) == Some((path, value))
  {
    SplitKey(path);
    assert Override(path, value) == Key(path) + ['='] + value;
    CutAt(Key(path), value, '=');
    TrimmedAlready(Key(path));
    TrimmedAlready(value);
  }

  // ----- the grant -----------------------------------------------------------------------------

  /** An override argument is taken by the option before it. */
  lemma OverrideIsValue(path: Path, value: string)
    requires Plain(path) && path[0][0] != '-'
    ensures !HasPrefix(Override(path, value), "-") && Override(path, value) != "--"
  {
    SplitKey(path);
    assert Override(path, value)[0] == path[0][0];
  }

  lemma ScanPair(value: string, rest: seq<string>)
    requires value != "--" && !HasPrefix(value, "-")
    ensures Scan(["-c", value] + rest) == [Assign(value)] + Scan(rest)
  {
    var args := ["-c", value] + rest;
    assert args[0] == "-c" && args[1] == value && args[2..] == rest;
  }

  lemma ManagedArePlain()
    ensures Plain(FeaturesPlugins) && Plain(PluginEnabled) && Plain(ApprovalMode)
  {
  }

  /** The guard reads the activation arguments first, then the caller's. */
  lemma ScanActivation(args: seq<string>)
    ensures Scan(Activation + args) ==
            [Assign(Override(FeaturesPlugins, "true")), Assign(Override(PluginEnabled, "true")),
             Assign(Override(ApprovalMode, "\"approve\""))] + Scan(args)
  {
    ManagedArePlain();
    var v0, v1, v2 := Override(FeaturesPlugins, "true"), Override(PluginEnabled, "true"), Override(ApprovalMode, "\"approve\"");
    OverrideIsValue(FeaturesPlugins, "true");
    OverrideIsValue(PluginEnabled, "true");
    OverrideIsValue(ApprovalMode, "\"approve\"");
    hide Override, Scan;
    assert Activation + args == ["-c", v0] + (["-c", v1] + (["-c", v2] + args));
    ScanPair(v0, ["-c", v1] + (["-c", v2] + args));
    ScanPair(v1, ["-c", v2] + args);
    ScanPair(v2, args);
  }

  /** An assignment plants its leaf. */
  lemma SetPlants(t: Toml, tree: Tree, path: Path, value: string)
    requires Compatible(t, path, value)
    ensures LeafAt(Set(tree, path, value), path, t)
  {
  }

  /** An override that is well formed, managed and compatible. */
  ghost predicate Grants(t: Toml, path: Path, value: string) {
    && Plain(path) && !IsSpace(path[0][0]) && !IsSpace(path[|path| - 1][|path[|path| - 1]| - 1])
    && value != "" && !IsSpace(value[0]) && !IsSpace(value[|value| - 1])
    && path in ManagedPaths && Compatible(t, path, value)
  }

  /** One activation override plants its leaf and disturbs no other managed leaf. */
  lemma OverridePlants(t: Toml, base: Tree, tree: Tree, path: Path, value: string)
    requires Grants(t, path, value) && Keeps(t, base, tree)
    ensures var tree' := Apply(tree, Assign(Override(path, value)));
            && Keeps(t, base, tree') && LeafAt(tree', path, t)
            && forall m | m in ManagedPaths && LeafAt(tree, m, t) :: LeafAt(tree', m, t)
  {
    OverrideReadsBack(path, value);
    SetPlants(t, tree, path, value);
    assert ItemOk(t, Assign(Override(path, value)));
    hide Override, Compatible, Keeps, LeafAt, Set, IsSpace, Plain;
    ApplyKeeps(t, base, tree, Assign(Override(path, value)));
  }

  lemma ThreePlant(t: Toml, base: Tree, p0: Path, v0: string, p1: Path, v1: string, p2: Path, v2: string)
    requires Grants(t, p0, v0) && Grants(t, p1, v1) && Grants(t, p2, v2)
    ensures var tree := Fold(base, [Assign(Override(p0, v0)), Assign(Override(p1, v1)), Assign(Override(p2, v2))]);
            LeafAt(tree, p0, t) && LeafAt(tree, p1, t) && LeafAt(tree, p2, t) && Keeps(t, base, tree)
  {
    assert p0 in ManagedPaths && p1 in ManagedPaths;
    hide Grants, Override, Keeps, LeafAt, Apply;
    var t0 := Apply(base, Assign(Override(p0, v0)));
    var t1 := Apply(t0, Assign(Override(p1, v1)));
    BaseKept(t, base);
    OverridePlants(t, base, base, p0, v0);
    OverridePlants(t, base, t0, p1, v1);
    OverridePlants(t, base, t1, p2, v2);
    FoldThree(base, Assign(Override(p0, v0)), Assign(Override(p1, v1)), Assign(Override(p2, v2)));
  }

  lemma ActivationIsGrant(t: Toml)
    requires Lawful(t)
    ensures Grants(t, FeaturesPlugins, "true") && Grants(t, PluginEnabled, "true") && Grants(t, ApprovalMode, "\"approve\"")
  {
    ManagedArePlain();
    assert FeaturesPlugins == ManagedPaths[0] && PluginEnabled == ManagedPaths[1] && ApprovalMode == ManagedPaths[5];
  }

  lemma ActivationGrants(t: Toml, base: Tree)
    requires Lawful(t)
    ensures var tree := Fold(base, Scan(Activation)); Granted(t, tree) && Keeps(t, base, tree)
  {
    ActivationIsGrant(t);
    ScanActivation([]);
    assert Activation + [] == Activation && Scan([]) == [];
    hide Override, Scan, Keeps, LeafAt, Grants, Fold;
    var items := [Assign(Override(FeaturesPlugins, "true")), Assign(Override(PluginEnabled, "true")),
                  Assign(Override(ApprovalMode, "\"approve\""))];
    assert Scan(Activation) == items + [] == items;
    ThreePlant(t, base, FeaturesPlugins, "true", PluginEnabled, "true", ApprovalMode, "\"approve\"");
  }

  lemma FoldThree(tree: Tree, a: Item, b: Item, c: Item)
    ensures Fold(tree, [a, b, c]) == Apply(Apply(Apply(tree, a), b), c)
  {
    hide Apply;
    assert [a, b, c][1..] == [b, c] && [b, c][1..] == [c] && [c][1..] == [];
    var t1 := Apply(tree, a);
    var t2 := Apply(t1, b);
    assert Fold(tree, [a, b, c]) == Fold(t1, [b, c]);
    assert Fold(t1, [b, c]) == Fold(t2, [c]);
    assert Fold(t2, [c]) == Fold(Apply(t2, c), []);
  }

  lemma BaseKept(t: Toml, base: Tree)
    ensures Keeps(t, base, base)
  {
    hide LeafAt;
  }

  lemma {:induction false} FoldConcat(tree: Tree, a: seq<Item>, b: seq<Item>)
    ensures Fold(tree, a + b) == Fold(Fold(tree, a), b)
    decreases |a|
  {
    hide Apply;
    if a == [] {
      assert a + b == b;
    } else {
      assert (a + b)[1..] == a[1..] + b && (a + b)[0] == a[0];
      FoldConcat(Apply(tree, a[0]), a[1..], b);
    }
  }

  /** Grant preservation: whatever the configuration was, and whatever the guard accepts, folding the
      activation and then the accepted items, in any order and any number of times, leaves plugins and
      the plugin on and the tool approved; at the server's own switches it leaves either a compatible
      value or nothing that was not already in the configuration; and so native has the tool, as it reads
      the values, unless the configuration had taken it away before. */
  lemma GrantPreserved(t: Toml, base: Tree, args: seq<string>, items: seq<Item>)
    requires Lawful(t) && Accepts(t, args) && forall item | item in items :: item in Scan(args)
    ensures var tree := Fold(base, Scan(Activation) + items);
            Granted(t, tree) && Keeps(t, base, tree) && (SwitchesUsable(t, base) ==> Usable(t, tree))
  {
    hide Scan, ItemOk, Keeps, LeafAt, SwitchesUsable, Usable;
    ActivationGrants(t, base);
    FoldConcat(base, Scan(Activation), items);
    FoldKeeps(t, base, Fold(base, Scan(Activation)), items);
    ManagedMembers();
    assert Granted(t, Fold(base, Scan(Activation) + items));
    hide Granted, Fold;
    GrantIsUsable(t, base, Fold(base, Scan(Activation) + items));
  }

  /** The same for the activation in front of any list that the guard itself accepts. */
  lemma AcceptedListGranted(t: Toml, base: Tree, args: seq<string>)
    requires Lawful(t) && Accepts(t, args)
    ensures var tree := Fold(base, Scan(Activation + args));
            Granted(t, tree) && Keeps(t, base, tree) && (SwitchesUsable(t, base) ==> Usable(t, tree))
  {
    ScanActivation(args);
    ScanActivation([]);
    assert Activation + [] == Activation;
    assert Scan(Activation + args) == Scan(Activation) + Scan(args);
    hide Scan, Granted, Keeps, Override, Accepts, SwitchesUsable, Usable;
    GrantPreserved(t, base, args, Scan(args));
  }

  /** The grant as a whole: the three granted leaves, nothing new at the server's switches, and so, unless
      the configuration took the tool away to begin with, a configuration that gives it. */
  ghost predicate Safe(t: Toml, base: Tree, tree: Tree) {
    Granted(t, tree) && Keeps(t, base, tree) && (SwitchesUsable(t, base) ==> Usable(t, tree))
  }

  const GrantedPaths: set<Path> := {FeaturesPlugins, PluginEnabled, ApprovalMode}

  /** The guard is not stronger than it needs to be around a granted path: an assignment at such a path,
      above it or below it is let through exactly when it leaves the grant in place after the activation. */
  lemma AssignmentGuardExact(t: Toml, base: Tree, path: Path, value: string)
    requires Lawful(t) && exists g | g in GrantedPaths :: Related(path, g)
    ensures Harmless(t, path, value) <==> Granted(t, Set(Fold(base, Scan(Activation)), path, value))
    ensures SwitchesUsable(t, base) ==> (Harmless(t, path, value) <==> Usable(t, Set(Fold(base, Scan(Activation)), path, value)))
  {
    LeavesGuardExact(t, base, path, value);
    ActivationGrants(t, base);
    hide Scan, Fold, Keeps, Granted, SwitchesUsable, Usable, Harmless;
    var tree := Fold(base, Scan(Activation));
    GrantIsUsable(t, base, Set(tree, path, value));
    if Harmless(t, path, value) { SetKeeps(t, base, tree, path, value); }
  }

  lemma LeavesGuardExact(t: Toml, base: Tree, path: Path, value: string)
    requires Lawful(t) && exists g | g in GrantedPaths :: Related(path, g)
    ensures Harmless(t, path, value) <==> Granted(t, Set(Fold(base, Scan(Activation)), path, value))
  {
    hide Scan, Fold, Keeps;
    ActivationGrants(t, base);
    var tree := Fold(base, Scan(Activation));
    var g :| g in GrantedPaths && Related(path, g);
    assert FeaturesPlugins in ManagedPaths && PluginEnabled in ManagedPaths && ApprovalMode in ManagedPaths;
    assert Related(path, path);
    if Harmless(t, path, value) {
      hide LeafAt, Harmless;
      SetKeepsLeaf(t, tree, path, value, FeaturesPlugins);
      SetKeepsLeaf(t, tree, path, value, PluginEnabled);
      SetKeepsLeaf(t, tree, path, value, ApprovalMode);
    } else {
      assert Set(tree, path, value)[path] == value;
      assert !LeafAt(Set(tree, path, value), g, t);
    }
  }

  /** An assignment the guard refuses breaks the grant on some configuration: on one that says nothing
      about the managed paths yet. */
  lemma HarmBreaks(t: Toml, tree: Tree, path: Path, value: string)
    requires !Harmless(t, path, value)
    ensures !Keeps(t, map[], Set(tree, path, value))
  {
    var m :| m in ManagedPaths && Related(path, m);
    var tree' := Set(tree, path, value);
    assert tree'[path] == value && !LeafAt(tree', m, t);
    var empty: Tree := map[];
    assert path in tree' && path !in empty;
  }

  /** An item the guard refuses breaks the grant when it comes last. */
  lemma BadItemBreaks(t: Toml, tree: Tree, item: Item)
    requires Lawful(t) && !ItemOk(t, item)
    ensures !Safe(t, map[], Apply(tree, item)) && !Usable(t, Apply(tree, item))
  {
    GrantIsUsable(t, map[], Apply(tree, item));
    hide Usable, SwitchesUsable;
    match item {
      case Disable(feature) =>
        assert ["features", feature] == FeaturesPlugins == ManagedPaths[0];
        NotHarmless(t, FeaturesPlugins, "false", 0);
        HarmBreaks(t, tree, FeaturesPlugins, "false");
      case Assign(value) =>
        var (path, v) := Assignment(value).value;
        HarmBreaks(t, tree, path, v);
    }
  }

  /** The guard is exact, item by item: it lets an item through exactly when, over every configuration that
      does not take the tool away by itself, native still has the tool once the item has been applied to
      the activated configuration; and over any other configuration the item adds nothing to what is wrong. */
  lemma ItemGuardExact(t: Toml, item: Item)
    requires Lawful(t)
    ensures ItemOk(t, item) <==> forall base | SwitchesUsable(t, base) :: Usable(t, Apply(Fold(base, Scan(Activation)), item))
    ensures ItemOk(t, item) ==> forall base :: Safe(t, base, Apply(Fold(base, Scan(Activation)), item))
  {
    if ItemOk(t, item) {
      forall base ensures Safe(t, base, Apply(Fold(base, Scan(Activation)), item)) {
        hide Scan, Fold, Safe, ItemOk, Apply;
        ActivationSafe(t, base);
        ApplyKeepsGrant(t, base, Fold(base, Scan(Activation)), item);
      }
      hide Scan, Fold, Keeps, Granted, ItemOk, Apply, SwitchesUsable, Usable;
    } else {
      var base: Tree := map[];
      assert SwitchesUsable(t, base);
      hide Scan, Fold, Safe, ItemOk, Apply, SwitchesUsable, Usable;
      BadItemBreaks(t, Fold(base, Scan(Activation)), item);
    }
  }

  lemma ActivationSafe(t: Toml, base: Tree)
    requires Lawful(t)
    ensures Safe(t, base, Fold(base, Scan(Activation)))
  {
    hide Scan, Fold, Keeps, Granted, SwitchesUsable, Usable;
    ActivationGrants(t, base);
    GrantIsUsable(t, base, Fold(base, Scan(Activation)));
  }

  lemma ApplyKeepsGrant(t: Toml, base: Tree, tree: Tree, item: Item)
    requires ItemOk(t, item) && Safe(t, base, tree)
    ensures Safe(t, base, Apply(tree, item))
  {
    ManagedMembers();
    hide Keeps, LeafAt, ItemOk, Apply, SwitchesUsable, Usable;
    ApplyKeeps(t, base, tree, item);
    assert Granted(t, Apply(tree, item));
    hide Granted;
    GrantIsUsable(t, base, Apply(tree, item));
  }
}
