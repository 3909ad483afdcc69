/** The three command lines that are launched, and when the grant holds on them: the lane's App Server
    gets the stripped arguments, the broker's App Server the mirrored configuration, and the terminal
    interface the native arguments, each behind the activation. */
module Launch {
  import opened Prelude
  import opened Arguments
  import opened Options

  /** The lane's App Server. */
  function LaneLaunch(args: seq<string>): seq<string> {
    ["app-server", "--stdio"] + (Activation + Strip(args))
  }

  /** The broker's App Server. */
  function ServerLaunch(args: seq<string>): seq<string> {
    ["app-server", "--stdio"] + (Activation + ConfigList(args))
  }

  /** The native arguments of an interactive launch. */
  function NativeList(args: seq<string>): seq<string> {
    Flatten(Each(Segments(args), NativeOf))
  }

  /** The terminal interface, told where its App Server listens. */
  function TuiLaunch(args: seq<string>, socket: string): seq<string> {
    Activation + (["--remote", "unix://" + socket] + NativeList(args))
  }

  // ----- what a launch reads -------------------------------------------------------------------

  lemma PassedOver(a: string, rest: seq<string>)
    requires Silent(a)
    ensures Scan([a] + rest) == Scan(rest)
  {
    assert ([a] + rest)[1..] == rest;
    SilentSkipped([a] + rest);
  }

  lemma WordPassedOver(a: string, rest: seq<string>)
    requires !HasPrefix(a, "-")
    ensures Scan([a] + rest) == Scan(rest)
  {
    assert ([a] + rest)[1..] == rest;
    WordSkipped([a] + rest);
  }

  lemma ActivationFirst(args: seq<string>)
    ensures Scan(Activation + args) == Scan(Activation) + Scan(args)
  {
    ScanActivation(args);
    ScanActivation([]);
    assert Activation + [] == Activation;
    hide Scan, Override;
    ScanEmpty();
  }

  lemma ServerReads(list: seq<string>)
    ensures Scan(["app-server", "--stdio"] + (Activation + list)) == Scan(Activation) + Scan(list)
  {
    var rest := Activation + list;
    assert ["app-server", "--stdio"] + rest == ["app-server"] + (["--stdio"] + rest);
    assert "app-server"[0] == 'a';
    WordPassedOver("app-server", ["--stdio"] + rest);
    StdioSilent();
    hide Scan;
    PassedOver("--stdio", rest);
    ActivationFirst(list);
  }

  lemma ServerLaunchReads(args: seq<string>)
    ensures Scan(ServerLaunch(args)) == Scan(Activation) + Scan(ConfigList(args))
  {
    ServerReads(ConfigList(args));
  }

  lemma LaneLaunchReads(args: seq<string>)
    ensures Scan(LaneLaunch(args)) == Scan(Activation) + Scan(Strip(args))
  {
    ServerReads(Strip(args));
  }

  lemma StdioSilent()
    ensures Silent("--stdio") && Silent("--remote")
  {
    assert "--stdio"[1] == '-' && "--stdio"[2] == 's' && "--remote"[1] == '-' && "--remote"[2] == 'r';
  }

  lemma TuiReads(args: seq<string>, socket: string)
    ensures Scan(TuiLaunch(args, socket)) == Scan(Activation) + Scan(NativeList(args))
  {
    var native, url := NativeList(args), "unix://" + socket;
    ActivationFirst(["--remote", url] + native);
    StdioSilent();
    hide Scan, NativeList;
    assert ["--remote", url] + native == ["--remote"] + ([url] + native);
    PassedOver("--remote", [url] + native);
    assert url[0] == 'u';
    WordPassedOver(url, native);
  }

  /** Whatever is read after the activation keeps the grant if the guard lets it through. */
  lemma AcceptedKeepsGrant(t: Toml, base: Tree, list: seq<string>)
    requires Lawful(t) && Accepts(t, list)
    ensures Safe(t, base, Fold(base, Scan(Activation) + Scan(list)))
  {
    hide Scan, Keeps, Granted, Accepts, SwitchesUsable, Usable;
    GrantPreserved(t, base, list, Scan(list));
  }

  /** And one last item it does not let through breaks the grant on some configuration. */
  lemma RefusedBreaksGrant(t: Toml, items: seq<Item>, bad: Item)
    requires Lawful(t) && !ItemOk(t, bad)
    ensures exists base :: !Safe(t, base, Fold(base, items + [bad]))
  {
    var base: Tree := map[];
    FoldConcat(base, items, [bad]);
    var tree := Fold(base, items);
    assert Fold(tree, [bad]) == Apply(tree, bad) by { assert [bad][1..] == []; hide Apply; }
    BadItemBreaks(t, tree, bad);
    assert !Safe(t, base, Fold(base, items + [bad]));
  }

  // ----- the grant on the lane's and the broker's App Server -----------------------------------

  /** The lane's launch keeps the grant, whatever the configuration was. */
  lemma LaneGranted(t: Toml, base: Tree, args: seq<string>)
    requires Lawful(t) && Accepts(t, args) && NoDangling(args)
    ensures Safe(t, base, Fold(base, Scan(LaneLaunch(args))))
  {
    StrippedStillAccepted(t, args);
    ServerReads(Strip(args));
    hide Scan, Accepts, NoDangling, Strip, Safe, Fold;
    AcceptedKeepsGrant(t, base, Strip(args));
  }

  /** So does the launch of the broker's App Server. */
  lemma ServerGranted(t: Toml, base: Tree, args: seq<string>)
    requires Lawful(t) && Accepts(t, args) && Calm(args)
    ensures Safe(t, base, Fold(base, Scan(ServerLaunch(args))))
  {
    AcceptedMirror(t, args);
    ServerReads(ConfigList(args));
    hide Scan, Accepts, Calm, ConfigList, Safe, Fold;
    AcceptedKeepsGrant(t, base, ConfigList(args));
  }

  // ----- the native arguments ------------------------------------------------------------------

  /** The guard takes the last token of the segment for an option that still wants a value. */
  predicate OpenSegment(s: Segment) {
    || (s.Config? && |s.tokens| == 1 && Greedy(s.tokens[0]))
    || (s.Plain? && |s.tokens| == 2 && s.tokens[0] != "--disable" && Greedy(s.tokens[1]))
  }

  /** The segment leaves nothing in the native list. */
  predicate Dropped(s: Segment) {
    s.Groups? || s.Named?
  }

  /** A word that may come after `resume`: the guard takes it for no option, or for a harmless one. */
  ghost predicate Quiet(t: Toml, v: string) {
    !Greedy(v) && forall item | item in TokenItems(v) :: ItemOk(t, item)
  }

  /** The condition on an argument list: no value that looks like an option still waiting for its own is
      followed by a wrapper option, no option but `--disable` has `--disable` as its value, and what is
      resumed does not look like a harmful option. */
  ghost predicate NativeSafe(t: Toml, args: seq<string>) {
    && Calm(args)
    && (forall k | 0 <= k < |Segments(args)| - 1 && OpenSegment(Segments(args)[k]) :: !Dropped(Segments(args)[k + 1]))
    && (forall s | s in Segments(args) && s.Renamed? && |s.native| == 2 :: Quiet(t, s.native[1]))
  }

  lemma NativeListStep(args: seq<string>)
    requires args != []
    ensures NativeList(args) == NativeOf(Head(args)) + NativeList(args[|Head(args).tokens|..])
  {
    hide Head;
    var each := Each(Segments(args), NativeOf);
    assert each[1..] == Each(Segments(args[|Head(args).tokens|..]), NativeOf);
  }

  lemma SegmentsStep(args: seq<string>)
    requires args != []
    ensures Segments(args) == [Head(args)] + Segments(args[|Head(args).tokens|..])
  {
  }

  lemma NativeSafeRest(t: Toml, args: seq<string>)
    requires args != [] && NativeSafe(t, args) && NoError(Segments(args))
    ensures var h := Head(args);
            var rest := args[|h.tokens|..];
            && NativeSafe(t, rest) && NoError(Segments(rest)) && !h.Wrong?
            && (OpenSegment(h) && rest != [] ==> !Dropped(Head(rest)))
            && (h.Renamed? && |h.native| == 2 ==> Quiet(t, h.native[1]))
  {
    CalmRest(args);
    SegmentsStep(args);
    var h := Head(args);
    var rest := args[|h.tokens|..];
    hide Head, Calm, Quiet, OpenSegment;
    var all, more := Segments(args), Segments(rest);
    assert all[0] == h;
    assert forall k | 0 <= k < |more| :: more[k] == all[k + 1];
    if rest != [] { SegmentsStep(rest); assert more[0] == Head(rest); }
  }

  /** The segment reads the same whatever follows it. */
  predicate Complete(s: Segment) {
    && !s.Rest? && !s.Wrong? && !OpenSegment(s)
    && !(s.Plain? && |s.tokens| == 1 && TakesValue(s.tokens[0]))
  }

  lemma CompleteScan(args: seq<string>, y: seq<string>)
    requires args != [] && Complete(Head(args))
    ensures Scan(Head(args).tokens + y) == Scan(Head(args).tokens) + Scan(y)
    ensures Head(args).Groups? || Head(args).Named? || Head(args).Renamed? ==> Scan(Head(args).tokens) == []
  {
    var h := Head(args);
    match h {
      case Config(_) => ConfigScan(args, y);
      case Plain(_) => PlainScan(args, y);
      case _ => WrapperScan(args, y);
    }
  }

  lemma ConfigScan(args: seq<string>, y: seq<string>)
    requires args != [] && Head(args).Config? && Complete(Head(args))
    ensures Scan(Head(args).tokens + y) == Scan(Head(args).tokens) + Scan(y)
  {
    var h := Head(args);
    assert args[0] != "--" && (|h.tokens| == 2 ==>
             |args| > 1 && (args[0] == "-c" || args[0] == "--config") && !HasPrefix(args[1], "-")) by { hide Scan, TakesValue; }
    hide Scan, Head;
    if |h.tokens| == 2 {
      assert h.tokens == [args[0], args[1]] && "--"[0] == '-';
      ScanConfig(args[0], args[1], y);
      ScanConfig(args[0], args[1], []);
      assert [args[0], args[1]] + [] == [args[0], args[1]];
      ScanEmpty();
    } else {
      assert h.tokens == [args[0]];
      assert !Greedy(args[0]) by { ConfigNotDisable(args); }
      WordScanned(args[0], y);
    }
  }

  lemma ConfigNotDisable(args: seq<string>)
    requires args != [] && Head(args).Config? && |Head(args).tokens| == 1 && Complete(Head(args))
    ensures !Greedy(args[0])
  {
    assert "--disable"[1] == '-' && "--disable"[2] == 'd';
    hide TakesValue;
  }

  lemma PlainScan(args: seq<string>, y: seq<string>)
    requires args != [] && Head(args).Plain? && Complete(Head(args))
    ensures Scan(Head(args).tokens + y) == Scan(Head(args).tokens) + Scan(y)
  {
    var h := Head(args);
    PlainHead(args);
    if |h.tokens| == 2 {
      ValueHead(args);
      PairIsNoDelimiter(args);
      hide Scan, Head, TakesValue;
      assert h.tokens == [args[0], args[1]];
      ValuedScanned(args[0], args[1], y);
    } else {
      assert !Greedy(args[0]) && args[0] != "--" by { hide Scan; }
      hide Scan, Head, TakesValue;
      WordScanned(args[0], y);
    }
  }

  lemma PairIsNoDelimiter(args: seq<string>)
    requires |args| > 1 && Head(args) == Plain(args[..2])
    ensures args[1] != "--"
  {
    hide TakesValue;
  }

  lemma WrapperScan(args: seq<string>, y: seq<string>)
    requires args != []
    requires var h := Head(args); h.Groups? || h.Named? || h.Renamed?
    ensures Scan(Head(args).tokens + y) == Scan(y) && Scan(Head(args).tokens) == []
  {
    var h := Head(args);
    WrapperSilent(args);
    WrapperTakesWord(args);
    hide Scan, Head, Silent;
    ScanEmpty();
    if |h.tokens| == 2 {
      assert h.tokens == [args[0], args[1]];
      assert [args[0], args[1]] + y == [args[0]] + ([args[1]] + y);
      PassedOver(args[0], [args[1]] + y);
      WordPassedOver(args[1], y);
      assert [args[0], args[1]] == [args[0]] + [args[1]] && [args[1]] + [] == [args[1]];
      PassedOver(args[0], [args[1]]);
      WordPassedOver(args[1], []);
    } else {
      assert h.tokens == [args[0]];
      PassedOver(args[0], y);
      PassedOver(args[0], []);
      assert [args[0]] + [] == [args[0]];
    }
  }

  /** What a renamed option leaves in the native list is as harmless as what follows it. */
  lemma RenamedAccepted(t: Toml, args: seq<string>, y: seq<string>)
    requires args != [] && Head(args).Renamed? && Accepts(t, y)
    requires |Head(args).native| == 2 ==> Quiet(t, Head(args).native[1])
    ensures Accepts(t, NativeOf(Head(args)) + y)
  {
    var native := Head(args).native;
    RenamedShape(args);
    hide Head, Scan;
    if native == [Bypass] {
      BypassSilent(Bypass);
      PassedOver(Bypass, y);
    } else if |native| == 1 {
      assert "resume"[0] == 'r';
      WordPassedOver("resume", y);
    } else {
      var v := native[1];
      assert native == ["resume", v] && native + y == ["resume"] + ([v] + y) && "resume"[0] == 'r';
      WordPassedOver("resume", [v] + y);
      QuietAccepted(t, v, y);
    }
  }

  lemma RenamedShape(args: seq<string>)
    requires args != [] && Head(args).Renamed?
    ensures var native := Head(args).native;
            native == [Bypass] || native == ["resume"] || (|native| == 2 && native[0] == "resume")
    ensures HasPrefix(args[0], "-")
  {
    assert args[0][0] == '-';
    hide TakesValue;
  }

  lemma QuietAccepted(t: Toml, v: string, y: seq<string>)
    requires Quiet(t, v) && Accepts(t, y)
    ensures Accepts(t, [v] + y)
  {
    assert ([v] + y)[1..] == y;
    if v == "--" {
      assert Scan([v] + y) == [];
    } else {
      hide Scan, TokenItems, Greedy;
      TokenScanned([v] + y);
    }
  }

  /** An option that still wants a value takes at most a word the guard has taken before. */
  lemma WaitingAccepted(t: Toml, c: string, y: seq<string>)
    requires (c == "-c" || c == "--config") && Accepts(t, y)
    requires y == [] || HasPrefix(y[0], "-") || ItemOk(t, Assign(y[0]))
    ensures Accepts(t, [c] + y)
  {
    assert ([c] + y)[1..] == y;
    if y != [] {
      var word := y[0];
      assert y == [word] + y[1..];
      assert [c] + y == [c, word] + y[1..];
      if word == "--" {
        assert Scan([c] + y) == Scan(y);
      } else {
        hide Scan;
        ScanConfig(c, word, y[1..]);
        if !HasPrefix(word, "-") { WordSkipped(y); }
      }
    } else {
      assert Scan([c] + y) == Scan(y);
    }
  }

  lemma ResumeIsNoAssignment(t: Toml)
    ensures ItemOk(t, Assign("resume"))
  {
    assert '=' !in "resume";
    CutNone("resume", '=');
  }

  /** How the native list begins. */
  lemma NativeStarts(args: seq<string>)
    requires args != [] && HasPrefix(args[0], "-") && !Dropped(Head(args)) && !Head(args).Wrong?
    ensures var n := NativeList(args); n != [] && (HasPrefix(n[0], "-") || n[0] == "resume")
  {
    NativeListStep(args);
    var h := Head(args);
    if h.Renamed? { RenamedShape(args); assert Bypass[0] == '-'; }
    hide Head, NativeList;
  }

  /** Any other segment: it waits for a value that the next segment may hold. */
  lemma WaitingSegment(args: seq<string>)
    requires args != [] && !Complete(Head(args)) && !Head(args).Rest? && !Head(args).Wrong?
    requires Head(args).Plain? && |Head(args).tokens| == 2 && Head(args).tokens[1] == "--disable" ==> Head(args).tokens[0] == "--disable"
    ensures var h := Head(args);
            || (OpenSegment(h) && h.Config? && h.tokens == [args[0]] && (args[0] == "-c" || args[0] == "--config")
                && (|args| == 1 || HasPrefix(args[1], "-")))
            || (OpenSegment(h) && h.Plain? && |args| > 1 && h.tokens == [args[0], args[1]] && TakesValue(args[0])
                && args[0] != "--disable" && args[0] != "-c" && args[0] != "--config" && (args[1] == "-c" || args[1] == "--config"))
            || (!OpenSegment(h) && h.Plain? && h.tokens == [args[0]] && (|args| == 1 || args[1] == "--"))
  {
    if Head(args).Plain? {
      PlainHead(args);
      if |Head(args).tokens| == 2 { ValueHead(args); } else { SingleHead(args); }
      hide Head;
    } else {
      BareHead(args);
      hide Head;
    }
  }

  lemma SingleHead(args: seq<string>)
    requires args != [] && Head(args) == Plain([args[0]]) && TakesValue(args[0])
    ensures |args| == 1 || args[1] == "--"
  {
    hide TakesValue;
  }

  lemma BareHead(args: seq<string>)
    requires args != [] && !Head(args).Plain? && !Complete(Head(args)) && !Head(args).Rest? && !Head(args).Wrong?
    ensures var h := Head(args);
            && OpenSegment(h) && h.Config? && h.tokens == [args[0]] && (args[0] == "-c" || args[0] == "--config")
            && (|args| == 1 || HasPrefix(args[1], "-"))
  {
    assert "--disable"[1] == '-' && "--disable"[2] == 'd';
    hide TakesValue;
  }

  lemma CalmHead(args: seq<string>)
    requires args != [] && Calm(args)
    ensures var h := Head(args); h.Plain? && |h.tokens| == 2 && h.tokens[1] == "--disable" ==> h.tokens[0] == "--disable"
  {
    SegmentsStep(args);
    hide Head;
    assert Segments(args)[0] == Head(args);
  }

  /** A launcher that reads an accepted list builds an accepted native list. */
  lemma {:induction false} NativeAccepted(t: Toml, args: seq<string>)
    requires Accepts(t, args) && NativeSafe(t, args) && NoError(Segments(args))
    ensures Accepts(t, NativeList(args))
    decreases |args|
  {
    if args == [] {
      ScanEmpty();
    } else {
      var h := Head(args);
      var rest := args[|h.tokens|..];
      NativeListStep(args);
      NativeSafeRest(t, args);
      CalmHead(args);
      hide Scan, NativeSafe, Calm, Segments, NativeList, Head, Accepts, Complete, OpenSegment, NoError;
      if h.Rest? {
        RestAccepted(t, args);
      } else if Complete(h) {
        CompleteAccepted(t, args);
        NativeAccepted(t, rest);
        CompleteNative(t, args, NativeList(rest));
      } else {
        WaitingSegment(args);
        if OpenSegment(h) {
          OpenRest(t, args);
          NativeAccepted(t, rest);
          OpenNative(t, args);
        } else {
          EndsNative(t, args);
        }
      }
    }
  }

  lemma RestAccepted(t: Toml, args: seq<string>)
    requires args != [] && Head(args).Rest?
    ensures Accepts(t, NativeList(args))
  {
    NativeListStep(args);
    assert Head(args) == Rest(args) && args[0] == "--" by { hide TakesValue; }
    assert args[|args|..] == [];
    assert NativeList([]) == [] && NativeList(args) == args + [];
    assert Scan(args) == [];
    assert args + [] == args;
  }

  /** Both halves of a split list are accepted. */
  lemma CompleteAccepted(t: Toml, args: seq<string>)
    requires args != [] && Complete(Head(args)) && Accepts(t, args)
    ensures var h := Head(args); Accepts(t, h.tokens) && Accepts(t, args[|h.tokens|..])
  {
    var h := Head(args);
    var rest := args[|h.tokens|..];
    assert args == h.tokens + rest;
    CompleteScan(args, rest);
    hide Scan, Head, Complete;
  }

  lemma CompleteNative(t: Toml, args: seq<string>, y: seq<string>)
    requires args != [] && Complete(Head(args)) && Accepts(t, Head(args).tokens) && Accepts(t, y)
    requires Head(args).Renamed? && |Head(args).native| == 2 ==> Quiet(t, Head(args).native[1])
    ensures Accepts(t, NativeOf(Head(args)) + y)
  {
    var h := Head(args);
    if h.Renamed? {
      hide Scan, Head, Complete, Accepts;
      RenamedAccepted(t, args, y);
    } else {
      CompleteScan(args, y);
      hide Scan, Head;
      assert [] + y == y;
    }
  }

  /** Behind an open segment the guard accepts the rest, and whatever word the segment could take. */
  lemma OpenRest(t: Toml, args: seq<string>)
    requires args != [] && Accepts(t, args) && OpenSegment(Head(args)) && !Complete(Head(args))
    requires Head(args).Plain? && |Head(args).tokens| == 2 && Head(args).tokens[1] == "--disable" ==> Head(args).tokens[0] == "--disable"
    ensures var rest := args[|Head(args).tokens|..];
            Accepts(t, rest) && (rest != [] && !HasPrefix(rest[0], "-") ==> ItemOk(t, Assign(rest[0])))
  {
    WaitingSegment(args);
    var h := Head(args);
    var rest := args[|h.tokens|..];
    hide Head, OpenSegment, Complete;
    assert args == h.tokens + rest;
    if h.Config? {
      assert args == [args[0]] + rest;
      if rest != [] { assert args[1] == rest[0]; }
      WaitingRead(args[0], rest);
    } else {
      assert args == [args[0], args[1]] + rest;
      GreedyIsNext(args[0], args[1], rest);
      WaitingRead(args[1], rest);
    }
    hide Scan;
  }

  /** What the guard reads behind a waiting `-c`: the rest, and the word it takes if there is one. */
  lemma WaitingRead(c: string, rest: seq<string>)
    requires c == "-c" || c == "--config"
    ensures rest == [] || HasPrefix(rest[0], "-") ==> Scan([c] + rest) == Scan(rest)
    ensures rest != [] && !HasPrefix(rest[0], "-") ==> Scan([c] + rest) == [Assign(rest[0])] + Scan(rest)
  {
    assert ([c] + rest)[1..] == rest;
    if rest != [] {
      assert [c] + rest == [c, rest[0]] + rest[1..] && rest == [rest[0]] + rest[1..];
      if rest[0] == "--" {
        assert Scan(rest) == [] && Scan([c] + rest) == Scan(rest);
      } else {
        hide Scan;
        ScanConfig(c, rest[0], rest[1..]);
        if !HasPrefix(rest[0], "-") { WordSkipped(rest); }
      }
    }
  }

  lemma OpenNative(t: Toml, args: seq<string>)
    requires args != [] && OpenSegment(Head(args)) && !Complete(Head(args))
    requires Head(args).Plain? && |Head(args).tokens| == 2 && Head(args).tokens[1] == "--disable" ==> Head(args).tokens[0] == "--disable"
    requires var rest := args[|Head(args).tokens|..];
             && Accepts(t, NativeList(rest))
             && (rest != [] ==> !Dropped(Head(rest)) && !Head(rest).Wrong?)
             && (rest != [] && !HasPrefix(rest[0], "-") ==> ItemOk(t, Assign(rest[0])))
    ensures Accepts(t, NativeOf(Head(args)) + NativeList(args[|Head(args).tokens|..]))
  {
    WaitingSegment(args);
    var h := Head(args);
    var rest := args[|h.tokens|..];
    var y := NativeList(rest);
    if rest == [] { EmptyNative(); }
    else if HasPrefix(rest[0], "-") { NativeStarts(rest); ResumeIsNoAssignment(t); }
    else { WordNative(rest); }
    hide Head, OpenSegment, Complete, NativeList, Accepts, ItemOk, Dropped;
    if h.Config? {
      WaitingAccepted(t, args[0], y);
    } else {
      WaitingAccepted(t, args[1], y);
      GreedyIsNext(args[0], args[1], y);
      SameScanAccepted(t, [args[0], args[1]] + y, [args[1]] + y);
    }
  }

  lemma SameScanAccepted(t: Toml, a: seq<string>, b: seq<string>)
    requires Scan(a) == Scan(b) && Accepts(t, b)
    ensures Accepts(t, a)
  {
    hide Scan;
  }

  lemma EmptyNative()
    ensures NativeList([]) == []
  {
  }

  lemma WordNative(args: seq<string>)
    requires args != [] && !HasPrefix(args[0], "-")
    ensures NativeList(args) != [] && NativeList(args)[0] == args[0]
  {
    WordHead(args);
    NativeListStep(args);
    hide Head, NativeList;
  }

  /** A last option without its value is native's business, and nothing follows it. */
  lemma EndsNative(t: Toml, args: seq<string>)
    requires args != [] && Head(args).Plain? && Head(args).tokens == [args[0]] && (|args| == 1 || args[1] == "--") && Accepts(t, args)
    ensures Accepts(t, NativeList(args))
  {
    var rest := args[1..];
    NativeListStep(args);
    EmptyNative();
    if rest != [] {
      NativeListStep(rest);
      assert Head(rest) == Rest(rest) && rest[|rest|..] == [];
      assert rest + [] == rest;
    }
    hide Head, NativeList;
    assert NativeList(rest) == rest;
    assert args == [args[0]] + rest;
  }

  /** The terminal interface's launch keeps the grant, whatever the configuration was. */
  lemma TuiGranted(t: Toml, base: Tree, args: seq<string>, socket: string)
    requires Lawful(t) && Accepts(t, args) && NativeSafe(t, args) && NoError(Segments(args))
    ensures Safe(t, base, Fold(base, Scan(TuiLaunch(args, socket))))
  {
    NativeAccepted(t, args);
    TuiReads(args, socket);
    hide Scan, Accepts, NativeSafe, NativeList, Safe, Fold, NoError, TuiLaunch;
    AcceptedKeepsGrant(t, base, NativeList(args));
  }

  // ----- closed prefixes -----------------------------------------------------------------------

  /** Every segment reads the same whatever follows. */
  ghost predicate Closed(pre: seq<string>) {
    forall s | s in Segments(pre) :: Complete(s)
  }

  lemma ClosedStep(pre: seq<string>)
    requires pre != [] && Closed(pre)
    ensures var h := Head(pre); Complete(h) && Closed(pre[|h.tokens|..])
  {
    SegmentsStep(pre);
    hide Head, Complete;
    assert Head(pre) in Segments(pre);
  }

  lemma HeadSplit(pre: seq<string>, x: seq<string>)
    requires pre != [] && Complete(Head(pre))
    ensures Head(pre + x) == Head(pre)
    ensures var n := |Head(pre).tokens|; (pre + x)[n..] == pre[n..] + x
  {
    var all := pre + x;
    assert all[0] == pre[0];
    if |pre| > 1 {
      assert all[1] == pre[1] && all[..2] == pre[..2];
      hide TakesValue;
    } else {
      HeadAlone(pre);
      hide TakesValue;
    }
  }

  /** A complete segment of one token does not depend on what follows. */
  lemma HeadAlone(pre: seq<string>)
    requires |pre| == 1 && Complete(Head(pre))
    ensures var a := pre[0];
            && a != "--" && a != "-c" && a != "--config" && a != "-g" && a != "--group" && a != "-n" && a != "--name"
            && (Head(pre).Plain? ==> !TakesValue(a))
  {
    assert "-g"[1] == 'g' && "-n"[1] == 'n';
    assert "--group"[1] == '-' && "--group"[2] == 'g' && "--name"[1] == '-' && "--name"[2] == 'n';
    hide TakesValue;
  }

  lemma Glue<T>(a: seq<T>, b: seq<T>, c: seq<T>)
    ensures a + b + c == a + (b + c)
  {
  }

  /** The guard's reading of one complete segment, between any two lists. */
  lemma SegmentBetween(pre: seq<string>, x: seq<string>)
    requires pre != [] && Complete(Head(pre))
    requires var rest := pre[|Head(pre).tokens|..]; Scan(rest + x) == Scan(rest) + Scan(x)
    ensures Scan(pre + x) == Scan(pre) + Scan(x)
  {
    var tokens := Head(pre).tokens;
    var rest := pre[|tokens|..];
    CompleteScan(pre, rest);
    CompleteScan(pre, rest + x);
    assert pre == tokens + rest;
    hide Head, Complete, Scan;
    Glue(tokens, rest, x);
    Glue(Scan(tokens), Scan(rest), Scan(x));
  }

  lemma {:induction false} SegmentsSplit(pre: seq<string>, x: seq<string>)
    requires Closed(pre)
    ensures Segments(pre + x) == Segments(pre) + Segments(x)
    decreases |pre|
  {
    hide Head, Complete, Closed;
    if pre == [] {
      assert pre + x == x;
    } else {
      ClosedStep(pre);
      HeadSplit(pre, x);
      SegmentsStep(pre);
      SegmentsStep(pre + x);
      var rest := pre[|Head(pre).tokens|..];
      SegmentsSplit(rest, x);
      hide Segments;
      Glue([Head(pre)], Segments(rest), Segments(x));
    }
  }

  /** The guard's reading of a list splits behind a closed prefix. */
  lemma {:induction false} ScanSplit(pre: seq<string>, x: seq<string>)
    requires Closed(pre)
    ensures Scan(pre + x) == Scan(pre) + Scan(x)
    decreases |pre|
  {
    hide Head, Complete, Closed, Scan;
    if pre == [] {
      assert pre + x == x;
      ScanEmpty();
    } else {
      ClosedStep(pre);
      ScanSplit(pre[|Head(pre).tokens|..], x);
      SegmentBetween(pre, x);
    }
  }

  lemma {:induction false} FlattenConcat<T>(a: seq<seq<T>>, b: seq<seq<T>>)
    ensures Flatten(a + b) == Flatten(a) + Flatten(b)
  {
    if a == [] {
      assert a + b == b;
    } else {
      assert (a + b)[1..] == a[1..] + b && (a + b)[0] == a[0];
      FlattenConcat(a[1..], b);
    }
  }

  lemma EachConcat(a: seq<Segment>, b: seq<Segment>, image: Segment -> seq<string>)
    ensures Each(a + b, image) == Each(a, image) + Each(b, image)
  {
  }

  /** The mirror and the native list split with the segments. */
  lemma ImagesSplit(pre: seq<string>, x: seq<string>)
    requires Closed(pre)
    ensures ConfigList(pre + x) == ConfigList(pre) + ConfigList(x)
    ensures NativeList(pre + x) == NativeList(pre) + NativeList(x)
  {
    SegmentsSplit(pre, x);
    hide Segments, Closed, Flatten;
    var a, b := Segments(pre), Segments(x);
    EachConcat(a, b, ConfigOf);
    EachConcat(a, b, NativeOf);
    hide Each;
    FlattenConcat(Each(a, ConfigOf), Each(b, ConfigOf));
    FlattenConcat(Each(a, NativeOf), Each(b, NativeOf));
  }

  /** The guard's reading of an image splits between two lists, one part at a time. */
  lemma PartBetween(part: seq<string>, more: seq<string>, y: seq<string>)
    requires Scan(part + more) == Scan(part) + Scan(more)
    requires Scan(part + (more + y)) == Scan(part) + Scan(more + y)
    requires Scan(more + y) == Scan(more) + Scan(y)
    ensures Scan(part + more + y) == Scan(part + more) + Scan(y)
  {
    hide Scan;
    Glue(part, more, y);
    Glue(Scan(part), Scan(more), Scan(y));
  }

  lemma ConfigOfSplits(args: seq<string>, y: seq<string>)
    requires args != [] && Complete(Head(args))
    ensures Scan(ConfigOf(Head(args)) + y) == Scan(ConfigOf(Head(args))) + Scan(y)
  {
    CompleteScan(args, y);
    hide Head, Complete;
    ScanEmpty();
    assert [] + y == y;
    hide Scan;
  }

  /** The guard's reading of the mirror of a closed prefix does not run into what follows. */
  lemma {:induction false} MirrorSplits(pre: seq<string>, y: seq<string>)
    requires Closed(pre)
    ensures Scan(ConfigList(pre) + y) == Scan(ConfigList(pre)) + Scan(y)
    decreases |pre|
  {
    if pre == [] {
      assert ConfigList(pre) == [] && ConfigList(pre) + y == y;
      ScanEmpty();
    } else {
      hide Head, Complete, Closed, ConfigList, ConfigOf, Scan;
      ClosedStep(pre);
      var rest := pre[|Head(pre).tokens|..];
      ConfigListStep(pre);
      MirrorSplits(rest, y);
      var more := ConfigList(rest);
      ConfigOfSplits(pre, more);
      ConfigOfSplits(pre, more + y);
      PartBetween(ConfigOf(Head(pre)), more, y);
    }
  }

  /** Nothing resumed ends the native options, or waits for a value. */
  ghost predicate Passable(pre: seq<string>) {
    forall s | s in Segments(pre) && s.Renamed? && |s.native| == 2 :: s.native[1] != "--" && !Greedy(s.native[1])
  }

  lemma PassableStep(pre: seq<string>)
    requires pre != [] && Passable(pre)
    ensures var h := Head(pre);
            && Passable(pre[|h.tokens|..])
            && (h.Renamed? && |h.native| == 2 ==> h.native[1] != "--" && !Greedy(h.native[1]))
  {
    SegmentsStep(pre);
    hide Head, Greedy;
    assert Head(pre) in Segments(pre);
  }

  /** The same for the native list. */
  lemma {:induction false} NativeSplits(pre: seq<string>, y: seq<string>)
    requires Closed(pre) && Passable(pre)
    ensures Scan(NativeList(pre) + y) == Scan(NativeList(pre)) + Scan(y)
    decreases |pre|
  {
    if pre == [] {
      EmptyNative();
      assert NativeList(pre) + y == y;
      ScanEmpty();
    } else {
      hide Head, Complete, Closed, NativeList, NativeOf, Scan, Passable;
      ClosedStep(pre);
      PassableStep(pre);
      var rest := pre[|Head(pre).tokens|..];
      NativeListStep(pre);
      NativeSplits(rest, y);
      var more := NativeList(rest);
      NativeOfSplits(pre, more);
      NativeOfSplits(pre, more + y);
      PartBetween(NativeOf(Head(pre)), more, y);
    }
  }

  lemma NativeOfSplits(args: seq<string>, y: seq<string>)
    requires args != [] && Complete(Head(args))
    requires Head(args).Renamed? && |Head(args).native| == 2 ==> Head(args).native[1] != "--" && !Greedy(Head(args).native[1])
    ensures Scan(NativeOf(Head(args)) + y) == Scan(NativeOf(Head(args))) + Scan(y)
  {
    var h := Head(args);
    CompleteScan(args, y);
    if h.Renamed? {
      RenamedShape(args);
      hide Head, Complete;
      RenamedSplits(h.native, y);
    } else {
      hide Head, Complete;
      ScanEmpty();
      assert [] + y == y;
      hide Scan;
    }
  }

  lemma RenamedSplits(native: seq<string>, y: seq<string>)
    requires native == [Bypass] || native == ["resume"] || (|native| == 2 && native[0] == "resume")
    requires |native| == 2 ==> native[1] != "--" && !Greedy(native[1])
    ensures Scan(native + y) == Scan(native) + Scan(y)
  {
    hide Scan;
    ScanEmpty();
    assert native + [] == native && "resume"[0] == 'r';
    if native == [Bypass] {
      BypassSilent(Bypass);
      PassedOver(Bypass, y);
      PassedOver(Bypass, []);
    } else if |native| == 1 {
      WordPassedOver("resume", y);
      WordPassedOver("resume", []);
    } else {
      var v := native[1];
      assert native == ["resume"] + [v] && native + y == ["resume"] + ([v] + y);
      WordPassedOver("resume", [v] + y);
      WordPassedOver("resume", [v]);
      WordScanned(v, y);
    }
  }

  // ----- exactly when the broker's launches keep the grant -------------------------------------

  const PluginsOff: string := Override(FeaturesPlugins, "false")

  lemma PluginsOffIsBad(t: Toml)
    requires Lawful(t)
    ensures !ItemOk(t, Assign(PluginsOff)) && PluginsOff != "" && PluginsOff[0] != '-' && !HasPrefix(PluginsOff, "-")
  {
    FalseConflicts(t);
    ManagedArePlain();
    OverrideIsValue(FeaturesPlugins, "false");
    assert |PluginsOff| > 0;
  }

  /** An argument list in the same shape as the launcher reads it: an option of native Codex and its
      value, behind a closed prefix. */
  ghost predicate Placed(t: Toml, pre: seq<string>, o: string, v: string) {
    && Lawful(t) && Closed(pre) && Accepts(t, pre)
    && TakesValue(o) && o != "--disable" && o != "-c" && o != "--config" && !IsRemote(o) && v != "--"
  }

  lemma PairSegments(o: string, v: string, rest: seq<string>)
    requires TakesValue(o) && o != "-c" && o != "--config" && !IsRemote(o) && v != "--"
    ensures Segments([o, v] + rest) == [Plain([o, v])] + Segments(rest)
    ensures ConfigList([o, v] + rest) == ConfigList(rest)
    ensures NativeList([o, v] + rest) == [o, v] + NativeList(rest)
  {
    var args := [o, v] + rest;
    PairHead(o, v, rest);
    SegmentsStep(args);
    ConfigListStep(args);
    NativeListStep(args);
    hide Head;
    assert args[2..] == rest && [] + ConfigList(rest) == ConfigList(rest);
  }

  lemma ClosedIsCalm(pre: seq<string>)
    requires Closed(pre)
    ensures Calm(pre)
  {
    hide Head;
  }

  lemma CalmJoin(pre: seq<string>, o: string, v: string, rest: seq<string>)
    requires Closed(pre) && Calm(rest) && v != "--disable"
    requires TakesValue(o) && o != "-c" && o != "--config" && !IsRemote(o) && v != "--"
    ensures Calm(pre + ([o, v] + rest))
  {
    ClosedIsCalm(pre);
    SegmentsSplit(pre, [o, v] + rest);
    PairSegments(o, v, rest);
    hide Segments, Head, Closed;
  }

  /** The broker's App Server, exactly: behind any closed prefix, every accepted continuation of an option
      and its value keeps the grant on every configuration, unless the value is `--disable`. */
  lemma ServerExact(t: Toml, pre: seq<string>, o: string, v: string)
    requires Placed(t, pre, o, v)
    ensures (forall rest | Calm(rest) && Accepts(t, pre + ([o, v] + rest)) ::
               forall base :: Safe(t, base, Fold(base, Scan(ServerLaunch(pre + ([o, v] + rest))))))
            <==> v != "--disable"
  {
    if v == "--disable" {
      ServerFails(t, pre, o);
    } else {
      forall rest | Calm(rest) && Accepts(t, pre + ([o, v] + rest))
        ensures forall base :: Safe(t, base, Fold(base, Scan(ServerLaunch(pre + ([o, v] + rest)))))
      {
        CalmJoin(pre, o, v, rest);
        hide Calm, Accepts, Scan, Safe, Fold, ServerLaunch, Closed;
        forall base ensures Safe(t, base, Fold(base, Scan(ServerLaunch(pre + ([o, v] + rest))))) {
          ServerGranted(t, base, pre + ([o, v] + rest));
        }
      }
    }
  }

  lemma AcceptsJoin(t: Toml, pre: seq<string>, x: seq<string>)
    requires Closed(pre) && Accepts(t, pre) && Accepts(t, x)
    ensures Accepts(t, pre + x)
  {
    ScanSplit(pre, x);
    hide Scan, Closed, ItemOk;
  }

  lemma ServerFails(t: Toml, pre: seq<string>, o: string)
    requires Placed(t, pre, o, "--disable")
    ensures var x := [o, "--disable"] + ["-c", PluginsOff];
            && Calm(["-c", PluginsOff]) && Accepts(t, pre + x)
            && exists base :: !Safe(t, base, Fold(base, Scan(ServerLaunch(pre + x))))
  {
    var x := [o, "--disable"] + ["-c", PluginsOff];
    MirrorWitness(t, o);
    PluginsOffIsBad(t);
    hide Scan, Closed, Calm, ConfigList, ItemOk, Safe, Fold, PluginsOff, Accepts;
    AcceptsJoin(t, pre, x);
    ServerBroken(t, pre, x, Assign(PluginsOff));
  }

  lemma MirrorWitness(t: Toml, o: string)
    requires Lawful(t) && TakesValue(o) && o != "--disable" && o != "-c" && o != "--config" && !IsRemote(o)
    ensures var rest := ["-c", PluginsOff];
            && Calm(rest) && Accepts(t, [o, "--disable"] + rest)
            && Scan(ConfigList([o, "--disable"] + rest)) == [Assign(PluginsOff)]
  {
    PluginsOffIsBad(t);
    MirroredPair(PluginsOff);
    SwallowedOption(o, PluginsOff);
    FalseConflicts(t);
    PairSegments(o, "--disable", ["-c", PluginsOff]);
    hide Scan, Calm, ConfigList, ItemOk, PluginsOff, TakesValue;
  }

  lemma ServerBroken(t: Toml, pre: seq<string>, x: seq<string>, bad: Item)
    requires Lawful(t) && Closed(pre) && Scan(ConfigList(x)) == [bad] && !ItemOk(t, bad)
    ensures exists base :: !Safe(t, base, Fold(base, Scan(ServerLaunch(pre + x))))
  {
    ImagesSplit(pre, x);
    MirrorSplits(pre, ConfigList(x));
    ServerLaunchReads(pre + x);
    hide Scan, Closed, ConfigList, ItemOk, Safe, Fold, ServerLaunch;
    Glue(Scan(Activation), Scan(ConfigList(pre)), [bad]);
    RefusedBreaksGrant(t, Scan(Activation) + Scan(ConfigList(pre)), bad);
  }

  // The terminal interface.

  /** A prefix of an interactive launch that reads the same whatever follows. */
  ghost predicate Prefix(t: Toml, pre: seq<string>) {
    Lawful(t) && Closed(pre) && Accepts(t, pre) && NativeSafe(t, pre) && Passable(pre)
  }

  /** What the launcher may find behind it. */
  ghost predicate Follows(t: Toml, rest: seq<string>) {
    NativeSafe(t, rest) && NoError(Segments(rest))
  }

  lemma FollowsJoin(t: Toml, pre: seq<string>, x: seq<string>)
    requires Closed(pre) && NativeSafe(t, pre) && Follows(t, x)
    ensures Follows(t, pre + x)
  {
    SegmentsSplit(pre, x);
    hide Segments, Complete, OpenSegment, Dropped, Quiet;
    var a, b := Segments(pre), Segments(x);
    forall k | 0 <= k < |a| ensures !OpenSegment(a[k]) && !a[k].Wrong? {
      assert a[k] in a;
      CompleteFacts(a[k]);
    }
    SegmentsJoin(t, a, b);
    CalmConcat(a, b);
  }

  lemma CompleteFacts(s: Segment)
    requires Complete(s)
    ensures !OpenSegment(s) && !s.Wrong?
  {
  }

  lemma SegmentsJoin(t: Toml, a: seq<Segment>, b: seq<Segment>)
    requires forall k | 0 <= k < |a| :: !OpenSegment(a[k]) && !a[k].Wrong?
    requires forall k | 0 <= k < |b| - 1 && OpenSegment(b[k]) :: !Dropped(b[k + 1])
    requires forall s | s in a && s.Renamed? && |s.native| == 2 :: Quiet(t, s.native[1])
    requires forall s | s in b && s.Renamed? && |s.native| == 2 :: Quiet(t, s.native[1])
    requires NoError(b)
    ensures var all := a + b;
            && (forall k | 0 <= k < |all| - 1 && OpenSegment(all[k]) :: !Dropped(all[k + 1]))
            && (forall s | s in all && s.Renamed? && |s.native| == 2 :: Quiet(t, s.native[1]))
            && NoError(all)
  {
    hide OpenSegment, Dropped, Quiet;
    var all := a + b;
    forall k | 0 <= k < |all| - 1 && OpenSegment(all[k]) ensures !Dropped(all[k + 1]) {
      assert k >= |a| && all[k] == b[k - |a|] && all[k + 1] == b[k - |a| + 1];
    }
  }

  lemma CalmConcat(a: seq<Segment>, b: seq<Segment>)
    requires forall s | s in a && s.Plain? && |s.tokens| == 2 && s.tokens[1] == "--disable" :: s.tokens[0] == "--disable"
    requires forall s | s in b && s.Plain? && |s.tokens| == 2 && s.tokens[1] == "--disable" :: s.tokens[0] == "--disable"
    ensures forall s | s in a + b && s.Plain? && |s.tokens| == 2 && s.tokens[1] == "--disable" :: s.tokens[0] == "--disable"
  {
  }

  /** Every continuation the launcher accepts behind `pre + x` keeps the grant. */
  ghost predicate Keeping(t: Toml, pre: seq<string>, x: seq<string>, socket: string) {
    forall rest | Follows(t, rest) && Accepts(t, pre + (x + rest)) ::
      forall base :: Safe(t, base, Fold(base, Scan(TuiLaunch(pre + (x + rest), socket))))
  }

  lemma KeepingHolds(t: Toml, pre: seq<string>, x: seq<string>, socket: string)
    requires Prefix(t, pre) && forall rest | Follows(t, rest) && Accepts(t, pre + (x + rest)) :: Follows(t, x + rest)
    ensures Keeping(t, pre, x, socket)
  {
    forall rest | Follows(t, rest) && Accepts(t, pre + (x + rest))
      ensures forall base :: Safe(t, base, Fold(base, Scan(TuiLaunch(pre + (x + rest), socket))))
    {
      FollowsJoin(t, pre, x + rest);
      hide Accepts, Scan, Safe, Fold, TuiLaunch, NativeSafe, Closed, Passable;
      forall base ensures Safe(t, base, Fold(base, Scan(TuiLaunch(pre + (x + rest), socket)))) {
        TuiGranted(t, base, pre + (x + rest), socket);
      }
    }
  }

  /** One continuation whose native list ends with an item the guard refuses breaks it. */
  lemma KeepingFails(t: Toml, pre: seq<string>, x: seq<string>, rest: seq<string>, bad: Item, socket: string)
    requires Prefix(t, pre) && Follows(t, rest) && Accepts(t, x + rest) && !ItemOk(t, bad)
    requires Scan(NativeList(x + rest)) == [bad]
    ensures !Keeping(t, pre, x, socket)
  {
    var args := pre + (x + rest);
    AcceptsJoin(t, pre, x + rest);
    ImagesSplit(pre, x + rest);
    NativeSplits(pre, NativeList(x + rest));
    TuiReads(args, socket);
    hide Scan, Closed, Passable, NativeSafe, NativeList, ItemOk, Safe, Fold, TuiLaunch, Accepts, Follows;
    Glue(Scan(Activation), Scan(NativeList(pre)), [bad]);
    RefusedBreaksGrant(t, Scan(Activation) + Scan(NativeList(pre)), bad);
  }

  /** The value of an option, exactly: no continuation breaks the grant unless the value is itself an
      option waiting for a value. */
  lemma TuiValueExact(t: Toml, pre: seq<string>, o: string, v: string, socket: string)
    requires Prefix(t, pre) && Placed(t, pre, o, v)
    ensures Keeping(t, pre, [o, v], socket) <==> !Greedy(v)
  {
    if Greedy(v) {
      ValueWitness(t, o, v);
      hide Follows, Accepts, Prefix, Placed, NativeList, ItemOk, Keeping, PluginsOff, Scan;
      KeepingFails(t, pre, [o, v], ["-n", "x", Offender(v)], BadItem(v), socket);
    } else {
      forall rest | Follows(t, rest) && Accepts(t, pre + ([o, v] + rest)) ensures Follows(t, [o, v] + rest) {
        PairFollows(t, o, v, rest);
      }
      hide Follows, Accepts, Prefix, Keeping;
      KeepingHolds(t, pre, [o, v], socket);
    }
  }

  /** The word that a waiting option must not take, and what the guard makes of it. */
  function Offender(v: string): string {
    if v == "--disable" then "plugins" else PluginsOff
  }

  function BadItem(v: string): Item {
    if v == "--disable" then Disable("plugins") else Assign(PluginsOff)
  }

  lemma OffenderFacts(t: Toml, v: string)
    requires Lawful(t)
    ensures !ItemOk(t, BadItem(v)) && Offender(v) != "" && Offender(v)[0] != '-' && !HasPrefix(Offender(v), "-")
  {
    PluginsOffIsBad(t);
    assert "plugins"[0] == 'p';
    hide PluginsOff;
  }

  lemma ValueWitness(t: Toml, o: string, v: string)
    requires Lawful(t) && TakesValue(o) && o != "--disable" && o != "-c" && o != "--config" && !IsRemote(o) && Greedy(v)
    ensures var rest := ["-n", "x", Offender(v)];
            && Follows(t, rest) && Accepts(t, [o, v] + rest) && !ItemOk(t, BadItem(v))
            && Scan(NativeList([o, v] + rest)) == [BadItem(v)]
  {
    var w := Offender(v);
    OffenderFacts(t, v);
    assert v != "--";
    NamedThenWord(t, w);
    PairSegments(o, v, ["-n", "x", w]);
    GreedyIsNext(o, v, ["-n", "x", w]);
    GreedyIsNext(o, v, [w]);
    GreedyBeforeWord(v, w, BadItem(v));
    GreedyBeforeName(t, v, w);
    hide Scan, Follows, ItemOk, Offender, BadItem, NativeList, TakesValue;
    SameScanAccepted(t, [o, v] + ["-n", "x", w], [v] + ["-n", "x", w]);
  }

  lemma NamedThenWord(t: Toml, w: string)
    requires w != "" && w[0] != '-'
    ensures var args := ["-n", "x", w];
            && Follows(t, args) && NativeList(args) == [w] && Scan(args) == []
            && Segments(args) == [Named(["-n", "x"], "x"), Plain([w])]
  {
    var args := ["-n", "x", w];
    assert "-n"[1] == 'n' && "x"[0] == 'x';
    assert args[..2] == ["-n", "x"] && args[2..] == [w] && [w][1..] == [];
    NameHead(args);
    WordHead([w]);
    SegmentsStep(args);
    SegmentsStep([w]);
    NativeListStep(args);
    NativeListStep([w]);
    EmptyNative();
    WrapperScan(args, [w]);
    hide Head;
    assert Segments([]) == [];
    assert args == ["-n", "x"] + [w];
    WordPassedOver(w, []);
    assert [w] + [] == [w];
    ScanEmpty();
  }

  lemma NameHead(args: seq<string>)
    requires |args| > 1 && args[0] == "-n" && args[1] == "x"
    ensures Head(args) == Named(args[..2], "x")
  {
    assert "-n"[1] == 'n' && "x"[0] == 'x';
    hide TakesValue;
  }

  /** Before a name, a waiting option takes nothing harmful. */
  lemma GreedyBeforeName(t: Toml, v: string, w: string)
    requires Greedy(v) && w != "" && w[0] != '-'
    ensures Accepts(t, [v] + ["-n", "x", w])
  {
    NamedThenWord(t, w);
    assert "-n"[0] == '-' && "-n" != "--";
    var tail := ["x", w];
    assert [v] + ["-n", "x", w] == [v, "-n"] + tail;
    if v == "--disable" {
      ScanDisable("-n", tail);
      assert tail == ["x"] + [w] && "x"[0] == 'x' && [w] == [w] + [];
      WordPassedOver("x", [w]);
      WordPassedOver(w, []);
      ScanEmpty();
      hide Scan, NativeList, Follows;
      assert Scan([v] + ["-n", "x", w]) == [Disable("-n")];
      assert "-n"[0] != "plugins"[0];
    } else {
      ScanConfig(v, "-n", tail);
      assert ["-n"] + tail == ["-n", "x", w];
      hide Scan;
    }
  }

  lemma PairFollows(t: Toml, o: string, v: string, rest: seq<string>)
    requires TakesValue(o) && o != "--disable" && o != "-c" && o != "--config" && !IsRemote(o) && v != "--" && !Greedy(v)
    requires Follows(t, rest)
    ensures Follows(t, [o, v] + rest)
  {
    PairSegments(o, v, rest);
    hide Segments, Head, TakesValue;
    SegmentsJoin(t, [Plain([o, v])], Segments(rest));
    CalmConcat([Plain([o, v])], Segments(rest));
  }

  /** A waiting `-c`, exactly: what follows it is an option of its own, and no continuation breaks the
      grant unless that option is dropped from the native list. */
  lemma TuiBareExact(t: Toml, pre: seq<string>, c: string, d: seq<string>, socket: string)
    requires Prefix(t, pre) && (c == "-c" || c == "--config")
    requires d != [] && HasPrefix(d[0], "-") && Head(d).tokens == d && Complete(Head(d)) && Follows(t, d) && Accepts(t, d)
    ensures Keeping(t, pre, [c] + d, socket) <==> !Dropped(Head(d))
  {
    if Dropped(Head(d)) {
      BareWitness(t, c, d);
      hide Follows, Accepts, Prefix, NativeList, ItemOk, Keeping, PluginsOff, Scan, Complete, Head;
      KeepingFails(t, pre, [c] + d, [PluginsOff], Assign(PluginsOff), socket);
    } else {
      forall rest | Follows(t, rest) && Accepts(t, pre + (([c] + d) + rest)) ensures Follows(t, ([c] + d) + rest) {
        BareFollows(t, c, d, rest);
      }
      hide Follows, Accepts, Prefix, Keeping, Complete, Head;
      KeepingHolds(t, pre, [c] + d, socket);
    }
  }

  /** A bare `-c` in front of another option is a segment of its own. */
  lemma BareSegments(c: string, d: seq<string>, rest: seq<string>)
    requires c == "-c" || c == "--config"
    requires d != [] && HasPrefix(d[0], "-") && Head(d).tokens == d && Complete(Head(d))
    ensures ([c] + d) + rest == [c] + (d + rest)
    ensures Segments(([c] + d) + rest) == [Config([c])] + ([Head(d)] + Segments(rest))
    ensures NativeList(([c] + d) + rest) == [c] + (NativeOf(Head(d)) + NativeList(rest))
  {
    var args := [c] + (d + rest);
    Glue([c], d, rest);
    assert args[1..] == d + rest && args[1] == d[0];
    HeadSplit(d, rest);
    assert (d + rest)[|d|..] == rest;
    BareConfig(args);
    SegmentsStep(args);
    SegmentsStep(d + rest);
    NativeListStep(args);
    NativeListStep(d + rest);
    hide Head, Complete, Segments, NativeList;
  }

  lemma BareConfig(args: seq<string>)
    requires |args| > 1 && (args[0] == "-c" || args[0] == "--config") && HasPrefix(args[1], "-")
    ensures Head(args) == Config([args[0]])
  {
    hide TakesValue;
  }

  lemma BareFollows(t: Toml, c: string, d: seq<string>, rest: seq<string>)
    requires c == "-c" || c == "--config"
    requires d != [] && HasPrefix(d[0], "-") && Head(d).tokens == d && Complete(Head(d)) && !Dropped(Head(d))
    requires Follows(t, d) && Follows(t, rest)
    ensures Follows(t, ([c] + d) + rest)
  {
    BareSegments(c, d, rest);
    SegmentsStep(d);
    assert d[|d|..] == [] && Segments([]) == [];
    assert Segments(d) == [Head(d)];
    var h := Head(d);
    assert h in Segments(d);
    CompleteFacts(h);
    hide Head, Complete, Segments;
    SegmentsJoin(t, [h], Segments(rest));
    CalmConcat([h], Segments(rest));
    ConfigInFront(t, c, h, Segments(rest));
  }

  lemma ConfigInFront(t: Toml, c: string, h: Segment, more: seq<Segment>)
    requires !Dropped(h)
    requires var b := [h] + more;
             && (forall k | 0 <= k < |b| - 1 && OpenSegment(b[k]) :: !Dropped(b[k + 1]))
             && (forall s | s in b && s.Renamed? && |s.native| == 2 :: Quiet(t, s.native[1])) && NoError(b)
             && forall s | s in b && s.Plain? && |s.tokens| == 2 && s.tokens[1] == "--disable" :: s.tokens[0] == "--disable"
    ensures var all := [Config([c])] + ([h] + more);
            && (forall k | 0 <= k < |all| - 1 && OpenSegment(all[k]) :: !Dropped(all[k + 1]))
            && (forall s | s in all && s.Renamed? && |s.native| == 2 :: Quiet(t, s.native[1])) && NoError(all)
            && forall s | s in all && s.Plain? && |s.tokens| == 2 && s.tokens[1] == "--disable" :: s.tokens[0] == "--disable"
  {
    hide OpenSegment, Dropped, Quiet;
    var b := [h] + more;
    var all := [Config([c])] + b;
    assert all[1] == h;
    assert forall k | 0 < k < |all| :: all[k] == b[k - 1];
  }

  lemma BareWitness(t: Toml, c: string, d: seq<string>)
    requires Lawful(t) && (c == "-c" || c == "--config")
    requires d != [] && HasPrefix(d[0], "-") && Head(d).tokens == d && Complete(Head(d)) && Dropped(Head(d))
    ensures var rest := [PluginsOff];
            && Follows(t, rest) && Accepts(t, ([c] + d) + rest) && !ItemOk(t, Assign(PluginsOff))
            && Scan(NativeList(([c] + d) + rest)) == [Assign(PluginsOff)]
  {
    var w := PluginsOff;
    PluginsOffIsBad(t);
    BareSegments(c, d, [w]);
    WordFollows(t, w);
    assert d[|d|..] == [];
    WrapperScan(d, [w]);
    hide Head, Complete, Segments, PluginsOff, ItemOk, Follows;
    assert [c] + ([] + [w]) == [c] + [w];
    GreedyBeforeWord(c, w, Assign(w));
    assert ([c] + (d + [w]))[1..] == d + [w] && (d + [w])[0] == d[0];
    WaitingRead(c, d + [w]);
    hide Scan, NativeList;
  }

  /** A word alone follows anything. */
  lemma WordFollows(t: Toml, w: string)
    requires w != "" && w[0] != '-'
    ensures Follows(t, [w]) && NativeList([w]) == [w] && Scan([w]) == []
  {
    WordHead([w]);
    SegmentsStep([w]);
    NativeListStep([w]);
    EmptyNative();
    assert [w][1..] == [] && [w] + [] == [w];
    WordPassedOver(w, []);
    ScanEmpty();
    hide Head;
    assert Segments([]) == [];
  }

  /** What is resumed, exactly: no continuation breaks the grant unless the name looks like a harmful
      option, or like one that waits for a value. */
  lemma TuiResumeExact(t: Toml, pre: seq<string>, v: string, socket: string)
    requires Prefix(t, pre)
    ensures Keeping(t, pre, ["--resume=" + v], socket) <==> Quiet(t, v)
  {
    if Quiet(t, v) {
      forall rest | Follows(t, rest) && Accepts(t, pre + (["--resume=" + v] + rest)) ensures Follows(t, ["--resume=" + v] + rest) {
        ResumeFollows(t, v, rest);
      }
      hide Follows, Accepts, Prefix, Keeping, Quiet;
      KeepingHolds(t, pre, ["--resume=" + v], socket);
    } else if Greedy(v) {
      ResumeTakes(t, v);
      OffenderFacts(t, v);
      hide Follows, Accepts, Prefix, NativeList, ItemOk, Keeping, PluginsOff, Scan, Quiet;
      KeepingFails(t, pre, ["--resume=" + v], [Offender(v)], BadItem(v), socket);
    } else {
      var bad :| bad in TokenItems(v) && !ItemOk(t, bad);
      ResumeIs(t, v);
      assert TokenItems(v) == [bad];
      hide Follows, Accepts, Prefix, NativeList, ItemOk, Keeping, Scan, Quiet, TokenItems;
      KeepingFails(t, pre, ["--resume=" + v], [], bad, socket);
    }
  }

  lemma ResumeSegments(v: string, rest: seq<string>)
    ensures var args := ["--resume=" + v] + rest;
            && Segments(args) == [Renamed(["--resume=" + v], ["resume", v])] + Segments(rest)
            && NativeList(args) == ["resume"] + ([v] + NativeList(rest)) && Scan(args) == Scan(rest)
  {
    var a := "--resume=" + v;
    var args := [a] + rest;
    assert args[1..] == rest;
    ResumeHead(args, v);
    SegmentsStep(args);
    NativeListStep(args);
    WrapperSilent(args);
    PassedOver(a, rest);
    hide Head, Scan, NativeList, Segments;
    assert ["resume", v] + NativeList(rest) == ["resume"] + ([v] + NativeList(rest));
  }

  lemma ResumeHead(args: seq<string>, v: string)
    requires args != [] && args[0] == "--resume=" + v
    ensures Head(args) == Renamed([args[0]], ["resume", v])
  {
    var a := args[0];
    assert a[..9] == "--resume=" && a[9..] == v;
    assert a[1] == '-' && a[2] == 'r' && a[3] == 'e' && a[4] == 's';
    ResumeIsNoRemote(a);
    hide TakesValue, IsRemote;
  }

  lemma ResumeIsNoRemote(a: string)
    requires |a| > 4 && a[1] == '-' && a[2] == 'r' && a[3] == 'e' && a[4] == 's'
    ensures !IsRemote(a)
  {
    assert "--remote"[4] == 'm' && "--remote-auth-token-env"[4] == 'm' && "--remote="[4] == 'm' && "--remote-auth-token-env="[4] == 'm';
  }

  lemma ResumeFollows(t: Toml, v: string, rest: seq<string>)
    requires Quiet(t, v) && Follows(t, rest)
    ensures Follows(t, ["--resume=" + v] + rest)
  {
    ResumeSegments(v, rest);
    hide Segments, Head, Quiet;
    var h := Renamed(["--resume=" + v], ["resume", v]);
    SegmentsJoin(t, [h], Segments(rest));
    CalmConcat([h], Segments(rest));
  }

  lemma ResumeTakes(t: Toml, v: string)
    requires Lawful(t) && Greedy(v)
    ensures var x := ["--resume=" + v];
            && Follows(t, [Offender(v)]) && Accepts(t, x + [Offender(v)]) && Scan(NativeList(x + [Offender(v)])) == [BadItem(v)]
  {
    var w := Offender(v);
    OffenderFacts(t, v);
    WordFollows(t, w);
    ResumeSegments(v, [w]);
    assert "resume"[0] == 'r';
    WordPassedOver("resume", [v] + [w]);
    GreedyBeforeWord(v, w, BadItem(v));
    hide Scan, NativeList, Follows, ItemOk;
  }

  lemma ResumeIs(t: Toml, v: string)
    requires !Greedy(v) && TokenItems(v) != []
    ensures var x := ["--resume=" + v];
            && Follows(t, []) && Accepts(t, x + []) && Scan(NativeList(x + [])) == TokenItems(v)
  {
    assert v != "--";
    ResumeSegments(v, []);
    EmptyNative();
    ScanEmpty();
    assert "resume"[0] == 'r' && [v] + [] == [v] && [v][1..] == [];
    WordPassedOver("resume", [v]);
    assert Segments([]) == [];
    hide Scan, NativeList, TokenItems;
    TokenScanned([v]);
    assert TokenItems(v) + [] == TokenItems(v);
  }

  // ----- exactly when the lane's launch keeps the grant ----------------------------------------

  /** Every unit of the lane's reading is the same whatever follows. */
  ghost predicate UnitsClosed(pre: seq<string>) {
    NoDangling(pre) && forall u | u in Units(pre) :: !u.Boundary? && !(u.Word? && Detached(u.token))
  }

  lemma UnitsListStep(args: seq<string>)
    requires args != []
    ensures var n := |UnitTokens(NextUnit(args))|;
            0 < n <= |args| && UnitTokens(NextUnit(args)) == args[..n] && Units(args) == [NextUnit(args)] + Units(args[n..])
  {
    UnitIsPrefix(args);
  }

  lemma UnitsClosedStep(pre: seq<string>)
    requires pre != [] && UnitsClosed(pre)
    ensures var u := NextUnit(pre);
            && UnitsClosed(pre[|UnitTokens(u)|..]) && !u.Boundary? && !(u.Word? && Detached(u.token))
            && (u.Valued? && u.option != "--disable" ==> !Greedy(u.value))
  {
    DanglingStep(pre);
    UnitsListStep(pre);
    hide NextUnit, UnitTokens, Detached, NoDangling;
    assert NextUnit(pre) in Units(pre);
  }

  lemma UnitSplit(pre: seq<string>, x: seq<string>)
    requires pre != [] && !NextUnit(pre).Boundary? && !(NextUnit(pre).Word? && Detached(NextUnit(pre).token))
    ensures NextUnit(pre + x) == NextUnit(pre)
    ensures var n := |UnitTokens(NextUnit(pre))|; n <= |pre| && (pre + x)[n..] == pre[n..] + x
  {
    UnitIsPrefix(pre);
    assert (pre + x)[0] == pre[0];
    if |pre| > 1 { assert (pre + x)[1] == pre[1]; }
    hide Detached, IsBypass;
  }

  lemma {:induction false} UnitsSplit(pre: seq<string>, x: seq<string>)
    requires UnitsClosed(pre)
    ensures Units(pre + x) == Units(pre) + Units(x)
    decreases |pre|
  {
    hide NextUnit, UnitTokens, UnitsClosed, Detached;
    if pre == [] {
      assert pre + x == x;
    } else {
      UnitsClosedStep(pre);
      UnitSplit(pre, x);
      UnitsListStep(pre);
      UnitsListStep(pre + x);
      var rest := pre[|UnitTokens(NextUnit(pre))|..];
      UnitsSplit(rest, x);
      hide Units;
      Glue([NextUnit(pre)], Units(rest), Units(x));
    }
  }

  lemma {:induction false} KeptConcat(a: seq<Unit>, b: seq<Unit>)
    ensures Kept(a + b) == Kept(a) + Kept(b)
  {
    if a == [] {
      assert a + b == b;
    } else {
      assert (a + b)[1..] == a[1..] + b && (a + b)[0] == a[0];
      KeptConcat(a[1..], b);
    }
  }

  lemma {:induction false} JoinConcat(a: seq<Unit>, b: seq<Unit>)
    ensures Join(a + b) == Join(a) + Join(b)
  {
    hide UnitTokens;
    if a == [] {
      assert a + b == b;
    } else {
      assert (a + b)[1..] == a[1..] + b && (a + b)[0] == a[0];
      JoinConcat(a[1..], b);
    }
  }

  lemma StripSplit(pre: seq<string>, x: seq<string>)
    requires UnitsClosed(pre)
    ensures Strip(pre + x) == Strip(pre) + Strip(x)
  {
    UnitsSplit(pre, x);
    KeptConcat(Units(pre), Units(x));
    JoinConcat(Kept(Units(pre)), Kept(Units(x)));
    hide Units, Kept, Join, UnitsClosed;
  }

  /** The guard's reading of one closed unit does not depend on what follows. */
  lemma UnitScan(args: seq<string>, y: seq<string>)
    requires args != [] && !NextUnit(args).Boundary? && !(NextUnit(args).Word? && Detached(NextUnit(args).token))
    requires var u := NextUnit(args); u.Valued? && u.option != "--disable" ==> !Greedy(u.value)
    ensures Scan(UnitTokens(NextUnit(args)) + y) == Scan(UnitTokens(NextUnit(args))) + Scan(y)
  {
    UnitFacts(args);
    match NextUnit(args) {
      case Valued(o, v) =>
        hide Scan, NextUnit, TakesValue, Detached;
        ValuedScanned(o, v, y);
      case BypassFlag(a) =>
        hide Scan, NextUnit, Silent;
        PassedOver(a, y);
        PassedOver(a, []);
        ScanEmpty();
        assert [a] + [] == [a];
      case Word(a) =>
        DetachedIsOption(a);
        assert !Greedy(a);
        hide Scan, NextUnit, Detached, TakesValue;
        WordScanned(a, y);
    }
  }

  lemma UnitBetween(pre: seq<string>, x: seq<string>)
    requires pre != [] && UnitsClosed(pre)
    requires var rest := pre[|UnitTokens(NextUnit(pre))|..]; Scan(rest + x) == Scan(rest) + Scan(x)
    ensures Scan(pre + x) == Scan(pre) + Scan(x)
  {
    UnitsClosedStep(pre);
    UnitIsPrefix(pre);
    var tokens := UnitTokens(NextUnit(pre));
    var rest := pre[|tokens|..];
    UnitScan(pre, rest);
    UnitScan(pre, rest + x);
    hide NextUnit, UnitTokens, UnitsClosed, Scan;
    assert pre == tokens + rest;
    PartBetween(tokens, rest, x);
  }

  lemma {:induction false} UnitsScanSplit(pre: seq<string>, x: seq<string>)
    requires UnitsClosed(pre)
    ensures Scan(pre + x) == Scan(pre) + Scan(x)
    decreases |pre|
  {
    hide NextUnit, UnitTokens, UnitsClosed, Scan;
    if pre == [] {
      assert pre + x == x;
      ScanEmpty();
    } else {
      UnitIsPrefix(pre);
      UnitsClosedStep(pre);
      UnitsScanSplit(pre[|UnitTokens(NextUnit(pre))|..], x);
      UnitBetween(pre, x);
    }
  }

  lemma {:induction false} KeptAreUnits(units: seq<Unit>)
    ensures forall u | u in Kept(units) :: u in units
  {
    if units != [] { KeptAreUnits(units[1..]); }
  }

  /** Stripping a closed prefix leaves a closed prefix. */
  lemma StrippedIsClosed(pre: seq<string>)
    requires UnitsClosed(pre)
    ensures UnitsClosed(Strip(pre))
  {
    StripRemovesExactlyFlags(pre);
    KeptAreUnits(Units(pre));
    hide Units, Kept, Strip, Detached, Greedy;
  }

  lemma DanglingJoin(pre: seq<string>, o: string, v: string, rest: seq<string>)
    requires UnitsClosed(pre) && NoDangling(rest) && TakesValue(o) && v != "--" && (o == "--disable" || !Greedy(v))
    ensures NoDangling(pre + ([o, v, "--yolo"] + rest))
  {
    UnitsSplit(pre, [o, v, "--yolo"] + rest);
    YoloUnits(o, v, rest);
    hide Units, Greedy, TakesValue;
  }

  /** The lane's App Server, exactly: behind any closed prefix, every accepted continuation of an option,
      its value and a bypass flag keeps the grant on every configuration, unless the value is itself an
      option waiting for a value. */
  lemma LaneExact(t: Toml, pre: seq<string>, o: string, v: string)
    requires Lawful(t) && UnitsClosed(pre) && Accepts(t, pre) && TakesValue(o) && o != "--disable" && v != "--"
    ensures (forall rest | NoDangling(rest) && Accepts(t, pre + ([o, v, "--yolo"] + rest)) ::
               forall base :: Safe(t, base, Fold(base, Scan(LaneLaunch(pre + ([o, v, "--yolo"] + rest))))))
            <==> !Greedy(v)
  {
    if Greedy(v) {
      LaneFails(t, pre, o, v);
    } else {
      forall rest | NoDangling(rest) && Accepts(t, pre + ([o, v, "--yolo"] + rest))
        ensures forall base :: Safe(t, base, Fold(base, Scan(LaneLaunch(pre + ([o, v, "--yolo"] + rest)))))
      {
        DanglingJoin(pre, o, v, rest);
        hide NoDangling, Accepts, Scan, Safe, Fold, LaneLaunch, UnitsClosed;
        forall base ensures Safe(t, base, Fold(base, Scan(LaneLaunch(pre + ([o, v, "--yolo"] + rest))))) {
          LaneGranted(t, base, pre + ([o, v, "--yolo"] + rest));
        }
      }
    }
  }

  lemma LaneFails(t: Toml, pre: seq<string>, o: string, v: string)
    requires Lawful(t) && UnitsClosed(pre) && Accepts(t, pre) && TakesValue(o) && o != "--disable" && Greedy(v)
    ensures var rest := [Offender(v)];
            var args := pre + ([o, v, "--yolo"] + rest);
            && NoDangling(rest) && Accepts(t, args)
            && exists base :: !Safe(t, base, Fold(base, Scan(LaneLaunch(args))))
  {
    var w := Offender(v);
    var x := [o, v, "--yolo"] + [w];
    OffenderFacts(t, v);
    LaneWitness(t, o, v);
    UnitsScanSplit(pre, x);
    StripSplit(pre, x);
    StrippedIsClosed(pre);
    UnitsScanSplit(Strip(pre), Strip(x));
    LaneLaunchReads(pre + x);
    hide Scan, UnitsClosed, NoDangling, Strip, ItemOk, Safe, Fold, LaneLaunch, Offender, BadItem, TakesValue;
    Glue(Scan(Activation), Scan(Strip(pre)), [BadItem(v)]);
    RefusedBreaksGrant(t, Scan(Activation) + Scan(Strip(pre)), BadItem(v));
  }

  lemma LaneWitness(t: Toml, o: string, v: string)
    requires Lawful(t) && TakesValue(o) && o != "--disable" && Greedy(v)
    ensures var w := Offender(v);
            var x := [o, v, "--yolo"] + [w];
            && NoDangling([w]) && Accepts(t, x) && Scan(Strip(x)) == [BadItem(v)]
  {
    var w := Offender(v);
    OffenderFacts(t, v);
    WordOnly(w);
    assert v != "--";
    YoloUnits(o, v, [w]);
    YoloScan(o, v, w, BadItem(v));
    assert "--yolo"[0] != "plugins"[0];
    hide Scan, Strip, Units, TakesValue, Offender, BadItem;
  }

  // ----- the launches that lose the grant ------------------------------------------------------

  /** The grant is gone, and native no longer has the tool. */
  ghost predicate Lost(t: Toml, tree: Tree) {
    !Granted(t, tree) && !Usable(t, tree)
  }

  /** Turning the plugins off last loses the grant on every configuration. */
  lemma PluginsOffLoses(t: Toml, base: Tree, items: seq<Item>)
    requires Lawful(t)
    ensures Lost(t, Fold(base, items + [Assign(PluginsOff)]))
  {
    FoldConcat(base, items, [Assign(PluginsOff)]);
    var tree := Fold(base, items);
    assert Fold(tree, [Assign(PluginsOff)]) == Apply(tree, Assign(PluginsOff)) by { assert [Assign(PluginsOff)][1..] == []; hide Apply; }
    ManagedArePlain();
    OverrideReadsBack(FeaturesPlugins, "false");
    assert Assignment(PluginsOff) == Some((FeaturesPlugins, "false"));
    hide Fold, Override, Assignment;
    assert Set(tree, FeaturesPlugins, "false")[FeaturesPlugins] == "false";
  }

  /** Four accepted argument lists whose launches turn the plugins off, whatever the configuration was. */
  lemma LaunchesThatLose(t: Toml, base: Tree, socket: string)
    requires Lawful(t)
    ensures var lane := ["-m", "-c", "--yolo"] + [PluginsOff];
            Accepts(t, lane) && Lost(t, Fold(base, Scan(LaneLaunch(lane))))
    ensures var mirrored := ["-m", "--disable"] + ["-c", PluginsOff];
            Accepts(t, mirrored) && Lost(t, Fold(base, Scan(ServerLaunch(mirrored))))
    ensures var named := ["-c", "-n", "x", PluginsOff];
            Accepts(t, named) && NoError(Segments(named)) && Lost(t, Fold(base, Scan(TuiLaunch(named, socket))))
    ensures var resumed := ["--resume=-c"] + [PluginsOff];
            Accepts(t, resumed) && NoError(Segments(resumed)) && Lost(t, Fold(base, Scan(TuiLaunch(resumed, socket))))
  {
    hide Scan, Fold, Lost, LaneLaunch, ServerLaunch, TuiLaunch, PluginsOff, Segments, Accepts;
    LaneLoses(t, base);
    ServerLoses(t, base);
    NamedLoses(t, base, socket);
    ResumedLoses(t, base, socket);
  }

  lemma LaneLoses(t: Toml, base: Tree)
    requires Lawful(t)
    ensures var lane := ["-m", "-c", "--yolo"] + [PluginsOff];
            Accepts(t, lane) && Lost(t, Fold(base, Scan(LaneLaunch(lane))))
  {
    LaneWitness(t, "-m", "-c");
    LaneLaunchReads(["-m", "-c", "--yolo"] + [PluginsOff]);
    hide Scan, Fold, Lost, LaneLaunch, PluginsOff, Strip, Accepts;
    PluginsOffLoses(t, base, Scan(Activation));
  }

  lemma ServerLoses(t: Toml, base: Tree)
    requires Lawful(t)
    ensures var mirrored := ["-m", "--disable"] + ["-c", PluginsOff];
            Accepts(t, mirrored) && Lost(t, Fold(base, Scan(ServerLaunch(mirrored))))
  {
    assert !IsRemote("-m");
    MirrorWitness(t, "-m");
    ServerLaunchReads(["-m", "--disable"] + ["-c", PluginsOff]);
    hide Scan, Fold, Lost, ServerLaunch, PluginsOff, ConfigList, Accepts;
    PluginsOffLoses(t, base, Scan(Activation));
  }

  lemma NamedLoses(t: Toml, base: Tree, socket: string)
    requires Lawful(t)
    ensures var named := ["-c", "-n", "x", PluginsOff];
            Accepts(t, named) && NoError(Segments(named)) && Lost(t, Fold(base, Scan(TuiLaunch(named, socket))))
  {
    var d, named := ["-n", "x"], ["-c", "-n", "x", PluginsOff];
    NamedParses(t);
    NameHead(d);
    assert d[..2] == d && "-n"[0] == '-';
    BareWitness(t, "-c", d);
    assert (["-c"] + d) + [PluginsOff] == named;
    hide Scan, Fold, Lost, TuiLaunch, PluginsOff, NativeList, Accepts, Head, Complete, NoError;
    TuiReads(named, socket);
    PluginsOffLoses(t, base, Scan(Activation));
  }

  lemma NamedParses(t: Toml)
    requires Lawful(t)
    ensures NoError(Segments(["-c", "-n", "x", PluginsOff]))
  {
    var w := PluginsOff;
    var args := ["-c", "-n", "x", w];
    PluginsOffIsBad(t);
    hide PluginsOff;
    assert "-n"[0] == '-' && args[1..] == ["-n", "x", w];
    NamedThenWord(t, w);
    BareConfig(args);
    SegmentsStep(args);
    hide Head, Scan, NativeList, Segments, Follows;
  }

  lemma ResumedLoses(t: Toml, base: Tree, socket: string)
    requires Lawful(t)
    ensures var resumed := ["--resume=-c"] + [PluginsOff];
            Accepts(t, resumed) && NoError(Segments(resumed)) && Lost(t, Fold(base, Scan(TuiLaunch(resumed, socket))))
  {
    var resumed := ["--resume=-c"] + [PluginsOff];
    assert "--resume=" + "-c" == "--resume=-c";
    ResumeTakes(t, "-c");
    ResumedParses(t);
    TuiReads(resumed, socket);
    hide Scan, Fold, Lost, TuiLaunch, PluginsOff, NativeList, Accepts, Segments, NoError;
    PluginsOffLoses(t, base, Scan(Activation));
  }

  lemma ResumedParses(t: Toml)
    requires Lawful(t)
    ensures NoError(Segments(["--resume=" + "-c"] + [PluginsOff]))
  {
    PluginsOffIsBad(t);
    hide PluginsOff, Scan;
    ResumeSegments("-c", [PluginsOff]);
    WordFollows(t, PluginsOff);
    hide Segments;
  }
}
