/** The two argument projections: interactive options and lane arguments, each as the image of a
    segmentation of the argument list, and how they agree with the guard's own scan. */
module Options {
  import opened Prelude
  import opened Arguments

  const Bypass: string := "--dangerously-bypass-approvals-and-sandbox"

  /** The native options that take the next argument as their value. */
  const ValueOptions: set<string> := {
    "-a", "--ask-for-approval", "-c", "--config", "-C", "--cd", "--disable", "--enable",
    "-i", "--image", "-m", "--model", "--local-provider", "-p", "--profile",
    "--remote", "--remote-auth-token-env", "-s", "--sandbox", "--add-dir"}

  predicate TakesValue(name: string) {
    name in ValueOptions
  }

  function Flatten<T>(s: seq<seq<T>>): seq<T> {
    if s == [] then [] else s[0] + Flatten(s[1..])
  }

  lemma {:induction false} FlattenAppend<T>(s: seq<seq<T>>, x: seq<T>)
    ensures Flatten(s + [x]) == Flatten(s) + x
  {
    if s == [] {
      assert s + [x] == [x];
    } else {
      assert (s + [x])[1..] == s[1..] + [x];
      FlattenAppend(s[1..], x);
    }
  }

  // ----- interactive options -------------------------------------------------------------------

  datatype Error = GrantConflict | CallerRemote | GroupMissing | NameMissing

  /** One step of the interactive reading: the tokens it takes and what they are for. */
  datatype Segment =
    | Rest(tokens: seq<string>)
    | Config(tokens: seq<string>)
    | Groups(tokens: seq<string>, list: string)
    | Named(tokens: seq<string>, name: string)
    | Renamed(tokens: seq<string>, native: seq<string>)
    | Plain(tokens: seq<string>)
    | Wrong(tokens: seq<string>, error: Error)

  predicate IsRemote(a: string) {
    || a == "--remote" || a == "--remote-auth-token-env"
    || HasPrefix(a, "--remote=") || HasPrefix(a, "--remote-auth-token-env=")
  }

  /** A name given in one token. */
  function Attached(a: string, name: string): Segment {
    if name == "" then Wrong([a], NameMissing) else Named([a], name)
  }

  function Head(args: seq<string>): (s: Segment)
    requires args != []
    ensures 0 < |s.tokens| <= |args| && s.tokens == args[..|s.tokens|]
  {
    var a := args[0];
    var alone := |args| == 1;
    if a == "--" then Rest(args)
    else if a == "-c" || a == "--config" then
      if !alone && !HasPrefix(args[1], "-") then Config(args[..2]) else Config([a])
    else if HasPrefix(a, "--config=") || (HasPrefix(a, "-c") && |a| > 2) then Config([a])
    else if IsRemote(a) then Wrong([a], CallerRemote)
    else if a == "-g" || a == "--group" then
      if alone || HasPrefix(args[1], "-") then Wrong([a], GroupMissing) else Groups(args[..2], args[1])
    else if HasPrefix(a, "--group=") then Groups([a], TrimPrefix(a, "--group="))
    else if HasPrefix(a, "-g") && |a| > 2 then Groups([a], TrimPrefix(TrimPrefix(a, "-g"), "="))
    else if a == "-n" || a == "--name" then
      if alone || args[1] == "" || HasPrefix(args[1], "-") then Wrong([a], NameMissing) else Named(args[..2], args[1])
    else if HasPrefix(a, "--name=") then Attached(a, TrimPrefix(a, "--name="))
    else if HasPrefix(a, "-n") && |a| > 2 then Attached(a, TrimPrefix(TrimPrefix(a, "-n"), "="))
    else if a == "--resume" then Renamed([a], ["resume"])
    else if HasPrefix(a, "--resume=") then Renamed([a], ["resume", TrimPrefix(a, "--resume=")])
    else if a == "--yolo" then Renamed([a], [Bypass])
    else if TakesValue(a) && !alone && args[1] != "--" then Plain(args[..2])
    else Plain([a])
  }

  function Segments(args: seq<string>): seq<Segment>
    decreases |args|
  {
    if args == [] then [] else [Head(args)] + Segments(args[|Head(args).tokens|..])
  }

  function TokensOf(s: Segment): seq<string> {
    s.tokens
  }

  function NativeOf(s: Segment): seq<string> {
    match s
    case Rest(tokens) => tokens
    case Config(tokens) => tokens
    case Plain(tokens) => tokens
    case Renamed(_, native) => native
    case _ => []
  }

  function ConfigOf(s: Segment): seq<string> {
    if s.Config? then s.tokens else []
  }

  function GroupsOf(s: Segment): seq<string> {
    if s.Groups? && s.list != "" then Split(s.list, ',') else []
  }

  function Each(segments: seq<Segment>, image: Segment -> seq<string>): seq<seq<string>> {
    seq(|segments|, i requires 0 <= i < |segments| => image(segments[i]))
  }

  function LastName(segments: seq<Segment>): string {
    if segments == [] then ""
    else if segments[|segments| - 1].Named? then segments[|segments| - 1].name
    else LastName(segments[..|segments| - 1])
  }

  datatype Interactive = Interactive(native: seq<string>, config: seq<string>, groups: seq<string>, name: string)
  datatype Parse = Parsed(options: Interactive) | Failed(error: Error)

  /** The image of a segmentation, segment by segment. */
  function Image(segments: seq<Segment>): Interactive {
    Interactive(Flatten(Each(segments, NativeOf)), Flatten(Each(segments, ConfigOf)),
                Flatten(Each(segments, GroupsOf)), LastName(segments))
  }

  /** The first error in reading order, after the guard. */
  ghost predicate FirstError(segments: seq<Segment>, error: Error) {
    exists k :: 0 <= k < |segments| && segments[k].Wrong? && segments[k].error == error
                && forall j | 0 <= j < k :: !segments[j].Wrong?
  }

  ghost predicate NoError(segments: seq<Segment>) {
    forall k | 0 <= k < |segments| :: !segments[k].Wrong?
  }

  lemma EachAppend(segments: seq<Segment>, s: Segment, image: Segment -> seq<string>)
    ensures Flatten(Each(segments + [s], image)) == Flatten(Each(segments, image)) + image(s)
  {
    assert Each(segments + [s], image) == Each(segments, image) + [image(s)];
    FlattenAppend(Each(segments, image), image(s));
  }

  /** The segments are the argument list cut up: no token is lost, repeated or moved. */
  lemma {:induction false} SegmentsPartition(args: seq<string>)
    ensures Flatten(Each(Segments(args), TokensOf)) == args
    decreases |args|
  {
    hide Head;
    if args == [] {
      assert Each(Segments(args), TokensOf) == [];
    } else {
      var h := Head(args);
      var rest := args[|h.tokens|..];
      SegmentsPartition(rest);
      var each := Each(Segments(args), TokensOf);
      assert each[0] == h.tokens && each[1..] == Each(Segments(rest), TokensOf);
      assert Flatten(each) == h.tokens + rest;
      assert args == args[..|h.tokens|] + rest;
    }
  }

  /** The switch of the interactive parser on the argument at `i`; `next` is where it goes on. */
  method ReadOption(args: seq<string>, i: nat, out: Interactive)
      returns (out': Interactive, next: nat, error: Option<Error>)
    requires i < |args|
    ensures var s := Head(args[i..]);
            && (error.Some? <==> s.Wrong?)
            && (error.Some? ==> error.value == s.error)
            && (error.None? ==> next == i + |s.tokens| && out' == Extended(out, s))
  {
    var arg := args[i];
    ghost var rest := args[i..];
    out', next, error := out, i + 1, None;
    if arg == "--" {
      out' := out.(native := out.native + args[i..]);
      next := |args|;
    } else if arg == "-c" || arg == "--config" {
      out' := out'.(native := out'.native + [arg], config := out'.config + [arg]);
      if i + 1 < |args| && !HasPrefix(args[i + 1], "-") {
        assert rest[..2] == [arg, args[i + 1]];
        out' := out'.(native := out'.native + [args[i + 1]], config := out'.config + [args[i + 1]]);
        next := i + 2;
      }
    } else if HasPrefix(arg, "--config=") || (HasPrefix(arg, "-c") && |arg| > 2) {
      out' := out.(native := out.native + [arg], config := out.config + [arg]);
    } else if || arg == "--remote" || arg == "--remote-auth-token-env"
              || HasPrefix(arg, "--remote=") || HasPrefix(arg, "--remote-auth-token-env=") {
      error := Some(CallerRemote);
    } else if arg == "-g" || arg == "--group" {
      if i + 1 == |args| || HasPrefix(args[i + 1], "-") { error := Some(GroupMissing); return; }
      out' := AddGroups(out, args[i + 1]);
      next := i + 2;
    } else if HasPrefix(arg, "--group=") {
      out' := AddGroups(out, TrimPrefix(arg, "--group="));
    } else if HasPrefix(arg, "-g") && |arg| > 2 {
      out' := AddGroups(out, TrimPrefix(TrimPrefix(arg, "-g"), "="));
    } else if arg == "-n" || arg == "--name" {
      if i + 1 == |args| || args[i + 1] == "" || HasPrefix(args[i + 1], "-") { error := Some(NameMissing); return; }
      out' := out.(name := args[i + 1]);
      next := i + 2;
    } else if HasPrefix(arg, "--name=") {
      out' := out.(name := TrimPrefix(arg, "--name="));
      if out'.name == "" { error := Some(NameMissing); }
    } else if HasPrefix(arg, "-n") && |arg| > 2 {
      out' := out.(name := TrimPrefix(TrimPrefix(arg, "-n"), "="));
      if out'.name == "" { error := Some(NameMissing); }
    } else if arg == "--resume" {
      out' := out.(native := out.native + ["resume"]);
    } else if HasPrefix(arg, "--resume=") {
      out' := out.(native := out.native + ["resume", TrimPrefix(arg, "--resume=")]);
    } else if arg == "--yolo" {
      out' := out.(native := out.native + [Bypass]);
    } else {
      out' := out.(native := out.native + [arg]);
      if TakesValue(arg) && i + 1 < |args| && args[i + 1] != "--" {
        assert rest[..2] == [arg, args[i + 1]];
        out' := out'.(native := out'.native + [args[i + 1]]);
        next := i + 2;
      }
    }
  }

  /** What one segment adds to the options read so far. */
  function Extended(out: Interactive, s: Segment): Interactive {
    Interactive(out.native + NativeOf(s), out.config + ConfigOf(s), out.groups + GroupsOf(s),
                if s.Named? then s.name else out.name)
  }

  function AddGroups(out: Interactive, value: string): Interactive {
    if value == "" then out else out.(groups := out.groups + Split(value, ','))
  }

  lemma ImageAppend(segments: seq<Segment>, s: Segment)
    ensures Image(segments + [s]) == Extended(Image(segments), s)
  {
    EachAppend(segments, s, NativeOf);
    EachAppend(segments, s, ConfigOf);
    EachAppend(segments, s, GroupsOf);
    assert (segments + [s])[..|segments|] == segments;
  }

  /** The loop of the interactive parser: the image of the segments, or the first error among them. */
  method ParseInteractiveOptions(t: Toml, args: seq<string>) returns (r: Parse)
    ensures match r
            case Parsed(options) => Accepts(t, args) && NoError(Segments(args)) && options == Image(Segments(args))
            case Failed(error) => if Accepts(t, args) then FirstError(Segments(args), error) else error == GrantConflict
  {
    hide Head, Accepts, Scan, Extended;
    var accepted := ValidateManagedConfig(t, args);
    if !accepted { return Failed(GrantConflict); }
    var out := Interactive([], [], [], "");
    ghost var done: seq<Segment> := [];
    var i := 0;
    assert args[0..] == args;
    while i < |args|
      invariant i <= |args|
      invariant Segments(args) == done + Segments(args[i..]) && NoError(done)
      invariant out == Image(done)
    {
      ghost var s := Head(args[i..]);
      assert args[i..][|s.tokens|..] == args[i + |s.tokens|..];
      assert Segments(args) == (done + [s]) + Segments(args[i + |s.tokens|..]);
      var out', next, error := ReadOption(args, i, out);
      if error.Some? {
        assert Segments(args)[|done|] == s;
        return Failed(error.value);
      }
      ImageAppend(done, s);
      done := done + [s];
      out, i := out', next;
    }
    assert args[i..] == [];
    assert Segments(args) == done;
    return Parsed(out);
  }

  // ----- the mirrored configuration and the guard ----------------------------------------------

  function ConfigList(args: seq<string>): seq<string> {
    Flatten(Each(Segments(args), ConfigOf))
  }

  lemma ConfigListStep(args: seq<string>)
    requires args != []
    ensures ConfigList(args) == ConfigOf(Head(args)) + ConfigList(args[|Head(args).tokens|..])
  {
    hide Head;
    var each := Each(Segments(args), ConfigOf);
    assert each[1..] == Each(Segments(args[|Head(args).tokens|..]), ConfigOf);
  }

  /** No value-taking option other than `--disable` has `--disable` as its value. */
  ghost predicate Calm(args: seq<string>) {
    forall s | s in Segments(args) && s.Plain? && |s.tokens| == 2 && s.tokens[1] == "--disable" :: s.tokens[0] == "--disable"
  }

  /** A mirrored list is empty or begins with an option, so the mirrored options never run together. */
  lemma {:induction false} ConfigListStarts(args: seq<string>)
    ensures ConfigList(args) == [] || HasPrefix(ConfigList(args)[0], "-")
    decreases |args|
  {
    if args != [] {
      ConfigListStep(args);
      ConfigListStarts(args[|Head(args).tokens|..]);
    }
  }

  /** Everything the guard would read in the second list it has read in the first. */
  ghost predicate Covers(first: seq<string>, second: seq<string>) {
    forall item | item in Scan(second) :: item in Scan(first)
  }

  lemma CalmRest(args: seq<string>)
    requires args != [] && Calm(args)
    ensures Calm(args[|Head(args).tokens|..])
  {
    hide Head;
  }

  /** A token that is no option stands alone in the interactive reading and adds nothing to the mirror. */
  lemma WordAlone(args: seq<string>)
    requires args != [] && !HasPrefix(args[0], "-")
    ensures Head(args) == Plain([args[0]])
    ensures ConfigList(args) == ConfigList(args[1..]) && (Calm(args) ==> Calm(args[1..]))
  {
    WordHead(args);
    ConfigListStep(args);
    if Calm(args) { CalmRest(args); }
    hide Head, ConfigList, Calm;
  }

  lemma WordHead(args: seq<string>)
    requires args != [] && !HasPrefix(args[0], "-")
    ensures Head(args) == Plain([args[0]])
  {
    var a := args[0];
    if a != "" { assert a[0] != '-'; }
    assert !TakesValue(a);
  }

  /** Scanner agreement: the guard's reading of the arguments covers its reading of the mirrored list. */
  lemma {:induction false} ScannersAgree(args: seq<string>)
    requires Calm(args)
    ensures Covers(args, ConfigList(args))
    decreases |args|, 1
  {
    if args != [] {
      var h := Head(args);
      ConfigListStep(args);
      CalmRest(args);
      var rest := args[|h.tokens|..];
      ConfigListStarts(rest);
      hide Head, Scan, Calm, ConfigList, Covers;
      match h {
        case Config(_) => ScannersAgree(rest); ConfigAgrees(args);
        case Plain(_) =>
          PlainHead(args);
          if |h.tokens| == 2 { ValueAgrees(args); } else { ScannersAgree(rest); PlainAgrees(args); }
        case Rest(_) => RestAgrees(args);
        case _ => ScannersAgree(rest); WrapperAgrees(args);
      }
      assert ConfigOf(h) == [] ==> ConfigOf(h) + ConfigList(rest) == ConfigList(rest);
    }
  }

  lemma PlainHead(args: seq<string>)
    requires args != [] && Head(args).Plain?
    ensures Head(args) == Plain([args[0]]) || (|args| > 1 && Head(args) == Plain(args[..2]))
  {
  }

  lemma RestAgrees(args: seq<string>)
    requires args != [] && Head(args).Rest?
    ensures Covers(args, ConfigList(args[|Head(args).tokens|..]))
  {
    hide TakesValue;
  }

  /** A mirrored option: both readings take the same value. */
  lemma ConfigAgrees(args: seq<string>)
    requires args != [] && Head(args).Config?
    requires var rest := args[|Head(args).tokens|..];
             Covers(rest, ConfigList(rest)) && (ConfigList(rest) == [] || HasPrefix(ConfigList(rest)[0], "-"))
    ensures Covers(args, Head(args).tokens + ConfigList(args[|Head(args).tokens|..]))
  {
    var h := Head(args);
    var rest := args[|h.tokens|..];
    var mirror := h.tokens + ConfigList(rest);
    assert mirror[|h.tokens|..] == ConfigList(rest);
    hide Head, ConfigList;
    if |h.tokens| == 2 {
      assert args[2..] == rest && mirror[2..] == ConfigList(rest);
      assert Scan(args) == [Assign(args[1])] + Scan(rest) && Scan(mirror) == [Assign(args[1])] + Scan(ConfigList(rest));
    } else {
      assert args[1..] == rest && mirror[1..] == ConfigList(rest);
    }
  }

  /** A single native token: at most the guard reads one more item. */
  lemma PlainAgrees(args: seq<string>)
    requires args != [] && Head(args) == Plain([args[0]]) && Covers(args[1..], ConfigList(args[1..]))
    ensures Covers(args, ConfigList(args[1..]))
  {
    var a := args[0];
    assert a != "--" && a != "-c" && a != "--config" && !HasPrefix(a, "--config=") && !(HasPrefix(a, "-c") && |a| > 2);
    assert HasPrefix(a, "-c") && |a| <= 2 ==> a == "-c";
    assert a == "--disable" ==> |args| == 1 || args[1] == "--";
    hide Head, ConfigList;
  }

  /** A token the guard passes over. */
  predicate Silent(a: string) {
    && a != "--" && a != "-c" && a != "--config" && !HasPrefix(a, "--config=") && !HasPrefix(a, "-c")
    && a != "--disable" && !HasPrefix(a, "--disable=")
  }

  lemma SilentSkipped(args: seq<string>)
    requires args != [] && Silent(args[0])
    ensures Scan(args) == Scan(args[1..])
  {
  }

  lemma WrapperSilent(args: seq<string>)
    requires args != []
    requires var h := Head(args); h.Groups? || h.Named? || h.Renamed? || h.Wrong?
    ensures Silent(args[0])
  {
    assert IsWrapper(args[0]) by { hide TakesValue, Silent, HasPrefix; }
    hide Head;
    WrapperLetters(args[0]);
  }

  /** The spellings of the wrapper's own options. */
  predicate IsWrapper(a: string) {
    || a == "-g" || a == "--group" || HasPrefix(a, "--group=") || HasPrefix(a, "-g")
    || a == "-n" || a == "--name" || HasPrefix(a, "--name=") || HasPrefix(a, "-n")
    || a == "--resume" || HasPrefix(a, "--resume=") || a == "--yolo" || IsRemote(a)
  }

  /** None of them begins like an option the guard reads. */
  lemma WrapperLetters(a: string)
    requires IsWrapper(a)
    ensures Silent(a)
  {
    assert |a| > 1;
    if a[1] == '-' {
      assert |a| > 2 && (a[2] == 'g' || a[2] == 'n' || a[2] == 'r' || a[2] == 'y');
    } else {
      assert a[1] == 'g' || a[1] == 'n';
    }
  }

  lemma WrapperTakesWord(args: seq<string>)
    requires args != []
    requires var h := Head(args); h.Groups? || h.Named? || h.Renamed? || h.Wrong?
    ensures |Head(args).tokens| <= 2
    ensures |Head(args).tokens| == 2 ==> !HasPrefix(args[1], "-")
  {
    hide TakesValue;
  }

  /** A wrapper option with its value in the same or the next token. */
  lemma WrapperAgrees(args: seq<string>)
    requires args != []
    requires var h := Head(args); h.Groups? || h.Named? || h.Renamed? || h.Wrong?
    requires var rest := args[|Head(args).tokens|..]; Covers(rest, ConfigList(rest))
    ensures Covers(args, ConfigList(args[|Head(args).tokens|..]))
  {
    var h := Head(args);
    WrapperSilent(args);
    WrapperTakesWord(args);
    SilentSkipped(args);
    hide Head, ConfigList, Scan, Silent;
    if |h.tokens| == 2 {
      assert args[1..][1..] == args[2..] && args[1..][0] == args[1];
      WordSkipped(args[1..]);
    }
  }

  /** The guard skips a token that is no option. */
  lemma WordSkipped(args: seq<string>)
    requires args != [] && !HasPrefix(args[0], "-")
    ensures Scan(args) == Scan(args[1..])
  {
    var a := args[0];
    if a != "" { assert a[0] != '-'; }
  }

  /** A native option with its value: the guard may read the value as an option of its own, but then it
      takes at most a word that the interactive reading passes over. */
  lemma {:induction false} ValueAgrees(args: seq<string>)
    requires |args| > 1 && Head(args) == Plain(args[..2]) && Calm(args)
    ensures Covers(args, ConfigList(args[2..]))
    decreases |args|, 0
  {
    var o, v, rest := args[0], args[1], args[2..];
    CalmRest(args);
    assert Head(args) in Segments(args);
    if o == "--disable" {
      ScannersAgree(rest);
      assert Scan(args) == [Disable(v)] + Scan(rest);
    } else {
      assert v != "--disable" && v != "--";
      OptionSkipped(args);
      assert args[1..][1..] == rest && args[1..][0] == v;
      if (v == "-c" || v == "--config") && rest != [] && !HasPrefix(rest[0], "-") {
        assert rest[0] != "--";
        assert args[1..][2..] == rest[1..];
        WordAlone(rest);
        ScannersAgree(rest[1..]);
        assert Scan(args[1..]) == [Assign(rest[0])] + Scan(rest[1..]);
      } else {
        ScannersAgree(rest);
        ValueSkipped(args[1..]);
      }
    }
  }

  lemma ValueHead(args: seq<string>)
    requires |args| > 1 && Head(args).Plain? && |Head(args).tokens| == 2
    ensures TakesValue(args[0]) && args[0] != "-c" && args[0] != "--config"
  {
    hide TakesValue;
  }

  lemma OptionSkipped(args: seq<string>)
    requires |args| > 1 && Head(args) == Plain(args[..2]) && args[0] != "--disable"
    ensures Scan(args) == Scan(args[1..])
  {
    ValueHead(args);
    hide Scan, Head, Silent;
    OptionSilent(args[0]);
    SilentSkipped(args);
  }

  lemma OptionSilent(a: string)
    requires TakesValue(a) && a != "-c" && a != "--config" && a != "--disable"
    ensures Silent(a)
  {
    assert a == "--cd" || |a| == 2 || (|a| > 2 && a[1] == '-' && a[2] != 'c' && a[2] != 'd');
    assert |a| > 1 && a[1] != 'c' && (|a| == 2 ==> a[1] != '-');
  }

  lemma ValueSkipped(args: seq<string>)
    requires args != [] && args[0] != "--" && args[0] != "--disable"
    requires args[0] == "-c" || args[0] == "--config" ==> |args| == 1 || HasPrefix(args[1], "-")
    ensures forall item | item in Scan(args[1..]) :: item in Scan(args)
  {
  }

  /** The theorem for the launcher: an accepted argument list has an accepted mirror. */
  lemma AcceptedMirror(t: Toml, args: seq<string>)
    requires Calm(args) && Accepts(t, args)
    ensures Accepts(t, ConfigList(args))
  {
    ScannersAgree(args);
    hide Scan, ConfigList, ItemOk;
  }

  /** The same condition is necessary: a native option whose value may be `--disable` lets an accepted
      list mirror a rejected one, and no other value does. */
  lemma MirrorExact(t: Toml, o: string, v: string)
    requires Lawful(t) && TakesValue(o) && o != "--disable" && o != "-c" && o != "--config" && !IsRemote(o) && v != "--"
    ensures (forall rest | Calm(rest) && Accepts(t, [o, v] + rest) :: Accepts(t, ConfigList([o, v] + rest)))
            <==> v != "--disable"
  {
    if v == "--disable" {
      MirrorFails(t, o);
    } else {
      forall rest | Calm(rest) && Accepts(t, [o, v] + rest)
        ensures Accepts(t, ConfigList([o, v] + rest))
      {
        PairHead(o, v, rest);
        CalmPair(o, v, rest);
        hide Calm, Accepts, ConfigList;
        AcceptedMirror(t, [o, v] + rest);
      }
    }
  }

  lemma PairHead(o: string, v: string, rest: seq<string>)
    requires TakesValue(o) && o != "-c" && o != "--config" && !IsRemote(o) && v != "--"
    ensures Head([o, v] + rest) == Plain([o, v])
  {
    var args := [o, v] + rest;
    assert args[0] == o && args[1] == v && args[..2] == [o, v];
    NativeOption(o);
    hide TakesValue;
  }

  /** An option of native Codex is none of the wrapper's. */
  lemma NativeOption(o: string)
    requires TakesValue(o) && o != "-c" && o != "--config" && !IsRemote(o)
    ensures o != "--" && !HasPrefix(o, "--config=") && !HasPrefix(o, "-c") && !HasPrefix(o, "-g") && !HasPrefix(o, "-n")
    ensures o != "--group" && !HasPrefix(o, "--group=") && o != "--name" && !HasPrefix(o, "--name=")
    ensures o != "--resume" && !HasPrefix(o, "--resume=") && o != "--yolo"
  {
    assert |o| > 1 && (|o| == 2 ==> o[1] != 'c' && o[1] != 'g' && o[1] != 'n' && o[1] != '-');
    assert |o| > 2 ==> o[1] == '-' && o[2] != 'g' && o[2] != 'n' && o[2] != 'r' && o[2] != 'y' && (o == "--cd" || o[2] != 'c');
  }

  lemma CalmPair(o: string, v: string, rest: seq<string>)
    requires Head([o, v] + rest) == Plain([o, v]) && Calm(rest) && v != "--disable"
    ensures Calm([o, v] + rest)
  {
    hide Head;
    assert ([o, v] + rest)[2..] == rest;
  }

  /** `-m --disable -c features.plugins=false`: the guard hands `-c` to `--disable`, the launcher mirrors it. */
  lemma MirrorFails(t: Toml, o: string)
    requires Lawful(t) && TakesValue(o) && o != "--disable" && o != "-c" && o != "--config" && !IsRemote(o)
    ensures var rest := ["-c", Override(FeaturesPlugins, "false")];
            && Calm(rest) && Accepts(t, [o, "--disable"] + rest)
            && !Accepts(t, ConfigList([o, "--disable"] + rest))
  {
    var w := Override(FeaturesPlugins, "false");
    var rest := ["-c", w];
    var args := [o, "--disable"] + rest;
    ManagedArePlain();
    OverrideIsValue(FeaturesPlugins, "false");
    MirroredPair(w);
    PairHead(o, "--disable", rest);
    ConfigListStep(args);
    assert args[2..] == rest && [] + ConfigList(rest) == ConfigList(rest);
    SwallowedOption(o, w);
    FalseConflicts(t);
    hide Override, Scan, ConfigList, Head, ItemOk;
    assert Assign(w) in Scan(rest);
  }

  lemma FalseConflicts(t: Toml)
    requires Lawful(t)
    ensures !ItemOk(t, Assign(Override(FeaturesPlugins, "false")))
    ensures ItemOk(t, Disable("-c"))
  {
    ManagedArePlain();
    OverrideReadsBack(FeaturesPlugins, "false");
    hide Override;
    assert ManagedPaths[0] == FeaturesPlugins;
    NotHarmless(t, FeaturesPlugins, "false", 0);
  }

  lemma SwallowedOption(o: string, w: string)
    requires TakesValue(o) && o != "--disable" && o != "-c" && o != "--config" && !HasPrefix(w, "-")
    ensures Scan([o, "--disable"] + ["-c", w]) == [Disable("-c")]
  {
    var args := [o, "--disable"] + ["-c", w];
    OptionSilent(o);
    SilentSkipped(args);
    hide Silent, TakesValue;
    var swallowed := ["--disable", "-c", w];
    assert args[1..] == swallowed && swallowed[2..] == [w];
    assert swallowed[0][1] == '-' && swallowed[0][2] == 'd';
    assert Scan(swallowed) == [Disable("-c")] + Scan([w]);
    WordSkipped([w]);
    assert [w][1..] == [];
  }

  lemma MirroredPair(w: string)
    requires !HasPrefix(w, "-")
    ensures Calm(["-c", w]) && ConfigList(["-c", w]) == ["-c", w] && Scan(["-c", w]) == [Assign(w)]
  {
    var rest := ["-c", w];
    assert rest[..2] == rest && rest[2..] == [];
    assert Head(rest) == Config(rest);
    ConfigListStep(rest);
    assert Segments(rest) == [Config(rest)];
    assert Scan(rest) == [Assign(w)] + Scan(rest[2..]);
  }

  // ----- lane arguments ------------------------------------------------------------------------

  /** One step of the lane's reading. */
  datatype Unit =
    | Boundary(tokens: seq<string>)
    | BypassFlag(token: string)
    | Valued(option: string, value: string)
    | Word(token: string)

  function NextUnit(args: seq<string>): Unit
    requires args != []
  {
    var a := args[0];
    if a == "--" then Boundary(args)
    else if IsBypass(a) then BypassFlag(a)
    else if Detached(a) && |args| > 1 && args[1] != "--" then Valued(a, args[1])
    else Word(a)
  }

  predicate IsBypass(a: string) {
    a == Bypass || a == "--yolo"
  }

  /** An option that takes a value and does not carry it in the same token. */
  predicate Detached(a: string) {
    var (key, _, attached) := Cut(a, '=');
    !attached && TakesValue(key)
  }

  lemma DetachedIsOption(a: string)
    ensures Detached(a) <==> TakesValue(a)
  {
    if TakesValue(a) {
      assert '=' !in a;
      CutNone(a, '=');
    }
    hide TakesValue;
    if Detached(a) { KeyOfOption(a); }
  }

  function UnitTokens(u: Unit): seq<string> {
    match u
    case Boundary(tokens) => tokens
    case BypassFlag(token) => [token]
    case Valued(option, value) => [option, value]
    case Word(token) => [token]
  }

  lemma UnitIsPrefix(args: seq<string>)
    requires args != []
    ensures var n := |UnitTokens(NextUnit(args))|; 0 < n <= |args| && UnitTokens(NextUnit(args)) == args[..n]
  {
  }

  function Units(args: seq<string>): seq<Unit>
    decreases |args|
  {
    if args == [] then []
    else
      UnitIsPrefix(args);
      [NextUnit(args)] + Units(args[|UnitTokens(NextUnit(args))|..])
  }

  /** The units without the bypass flags. */
  function Kept(units: seq<Unit>): seq<Unit> {
    if units == [] then []
    else (if units[0].BypassFlag? then [] else [units[0]]) + Kept(units[1..])
  }

  function Join(units: seq<Unit>): seq<string> {
    if units == [] then [] else UnitTokens(units[0]) + Join(units[1..])
  }

  /** The lane's native arguments. */
  function Strip(args: seq<string>): seq<string> {
    Join(Kept(Units(args)))
  }

  predicate AsksBypass(args: seq<string>) {
    exists u | u in Units(args) :: u.BypassFlag?
  }

  lemma UnitsStep(args: seq<string>)
    requires args != []
    ensures var u := NextUnit(args);
            var n := |UnitTokens(u)|;
            && 0 < n <= |args| && UnitTokens(u) == args[..n]
            && Strip(args) == (if u.BypassFlag? then [] else args[..n]) + Strip(args[n..])
            && AsksBypass(args) == (u.BypassFlag? || AsksBypass(args[n..]))
  {
    hide NextUnit, UnitTokens, Join;
    UnitIsPrefix(args);
    var u := NextUnit(args);
    var rest := Units(args[|UnitTokens(u)|..]);
    assert Units(args) == [u] + rest;
    KeptStep(u, rest);
    JoinStep(u, Kept(rest));
  }

  lemma KeptStep(u: Unit, rest: seq<Unit>)
    ensures Kept([u] + rest) == if u.BypassFlag? then Kept(rest) else [u] + Kept(rest)
  {
    assert ([u] + rest)[1..] == rest;
  }

  lemma JoinStep(u: Unit, rest: seq<Unit>)
    ensures Join([u] + rest) == UnitTokens(u) + Join(rest)
  {
    assert ([u] + rest)[1..] == rest;
  }

  /** The lane's loop. Rejected lists yield nothing. */
  method LaneArguments(t: Toml, arguments: seq<string>) returns (r: Option<(seq<string>, bool)>)
    ensures r == if Accepts(t, arguments) then Some((Strip(arguments), AsksBypass(arguments))) else None
  {
    hide Accepts, Strip, AsksBypass, Cut, TakesValue, Scan;
    var ok := ValidateManagedConfig(t, arguments);
    if !ok { return None; }
    var native, bypass, index := [], false, 0;
    assert arguments[0..] == arguments;
    while index < |arguments|
      invariant index <= |arguments|
      invariant Strip(arguments) == native + Strip(arguments[index..])
      invariant AsksBypass(arguments) == (bypass || AsksBypass(arguments[index..]))
    {
      var argument := arguments[index];
      ghost var rest := arguments[index..];
      UnitsStep(rest);
      if argument == "--" {
        native := native + arguments[index..];
        index := |arguments|;
        assert rest[|rest|..] == [] && rest[..|rest|] == rest;
        EndOfUnits();
        assert AsksBypass(arguments) == bypass;
        assert Strip(arguments) == native;
        return Some((native, bypass));
      }
      if argument == Bypass || argument == "--yolo" {
        bypass := true;
        assert rest[1..] == arguments[index + 1..];
        index := index + 1;
        continue;
      }
      native := native + [argument];
      var (key, _, attached) := Cut(argument, '=');
      if !attached && TakesValue(key) && index + 1 < |arguments| && arguments[index + 1] != "--" {
        index := index + 1;
        native := native + [arguments[index]];
        assert rest[2..] == arguments[index + 1..] && rest[..2] == [argument, arguments[index]];
      } else {
        assert rest[1..] == arguments[index + 1..] && rest[..1] == [argument];
      }
      index := index + 1;
    }
    EndOfUnits();
    assert arguments[index..] == [] && native + [] == native;
    return Some((native, bypass));
  }

  lemma EndOfUnits()
    ensures Strip([]) == [] && !AsksBypass([])
  {
  }

  // ----- the lane's reading of its own result --------------------------------------------------

  lemma {:induction false} UnitsPartition(args: seq<string>)
    ensures Join(Units(args)) == args
    decreases |args|
  {
    if args != [] {
      UnitIsPrefix(args);
      var u := NextUnit(args);
      var rest := args[|UnitTokens(u)|..];
      hide NextUnit, UnitTokens;
      assert Units(args) == [u] + Units(rest);
      JoinStep(u, Units(rest));
      UnitsPartition(rest);
      assert args == UnitTokens(u) + rest;
    }
  }

  /** Stripping removes exactly the units that are bypass flags: every other unit, values that spell a
      bypass flag and everything after `--` included, is read again as itself. */
  lemma {:induction false} StripRemovesExactlyFlags(args: seq<string>)
    ensures Units(Strip(args)) == Kept(Units(args))
    decreases |args|
  {
    if args != [] {
      UnitsStep(args);
      var u := NextUnit(args);
      var rest := args[|UnitTokens(u)|..];
      StripRemovesExactlyFlags(rest);
      assert Units(args) == [u] + Units(rest);
      KeptStep(u, Units(rest));
      if !u.BypassFlag? {
        StripStarts(rest);
        SameUnit(args, Strip(rest));
        hide NextUnit, Strip, Kept, UnitTokens;
        var again := UnitTokens(u) + Strip(rest);
        assert again[|UnitTokens(u)|..] == Strip(rest);
        assert Units(again) == [u] + Units(Strip(rest));
      }
    }
  }

  /** After stripping, a list that began with the delimiter or was empty still does, and no list newly
      loses a first token that could be a value. */
  lemma {:induction false} StripStarts(args: seq<string>)
    ensures args == [] || args[0] == "--" ==> Strip(args) == args
    decreases |args|
  {
    if args != [] && args[0] == "--" {
      UnitsStep(args);
      assert args[|args|..] == [] && args[..|args|] == args;
    }
  }

  /** A kept unit is read as the same unit before the stripped rest. */
  lemma SameUnit(args: seq<string>, rest: seq<string>)
    requires args != [] && !NextUnit(args).BypassFlag?
    requires var n := |UnitTokens(NextUnit(args))|;
             args[n..] == [] || args[n] == "--" ==> rest == args[n..]
    ensures var again := UnitTokens(NextUnit(args)) + rest; again != [] && NextUnit(again) == NextUnit(args)
  {
    var again := UnitTokens(NextUnit(args)) + rest;
    assert again[0] == args[0];
  }

  lemma {:induction false} KeptHasNoFlags(units: seq<Unit>)
    ensures forall u | u in Kept(units) :: !u.BypassFlag?
    ensures Kept(Kept(units)) == Kept(units)
  {
    if units != [] {
      KeptHasNoFlags(units[1..]);
      var rest := Kept(units[1..]);
      if units[0].BypassFlag? {
        assert Kept(units) == rest;
      } else {
        assert Kept(units) == [units[0]] + rest;
        KeptStep(units[0], rest);
      }
    }
  }

  /** Stripping again changes nothing, and what is left asks for no bypass. */
  lemma StripIdempotent(args: seq<string>)
    ensures Strip(Strip(args)) == Strip(args) && !AsksBypass(Strip(args))
  {
    StripRemovesExactlyFlags(args);
    KeptHasNoFlags(Units(args));
    hide Units, Join, Kept;
  }

  /** No unit keeps, as the value of an option other than `--disable`, a token that the guard reads as
      an option taking the next token. */
  ghost predicate NoDangling(args: seq<string>) {
    forall u | u in Units(args) && u.Valued? && u.option != "--disable" :: !Greedy(u.value)
  }

  predicate Greedy(a: string) {
    a == "-c" || a == "--config" || a == "--disable"
  }

  /** A token the guard reads by itself. */
  lemma ScanSingle(args: seq<string>)
    requires args != [] && args[0] != "--" && !Greedy(args[0])
    ensures Scan(args) == Scan([args[0]]) + Scan(args[1..])
  {
    assert [args[0]][1..] == [];
    ScanEmpty();
    TokenScanned(args);
    TokenScanned([args[0]]);
    hide Scan, TokenItems;
    assert TokenItems(args[0]) + [] == TokenItems(args[0]);
  }

  /** What the guard reads in one token that stands by itself. */
  function TokenItems(a: string): seq<Item> {
    if HasPrefix(a, "--config=") then [Assign(TrimPrefix(a, "--config="))]
    else if HasPrefix(a, "-c") then [Assign(TrimPrefix(TrimPrefix(a, "-c"), "="))]
    else if HasPrefix(a, "--disable=") then [Disable(TrimPrefix(a, "--disable="))]
    else []
  }

  lemma TokenScanned(args: seq<string>)
    requires args != [] && args[0] != "--" && !Greedy(args[0])
    ensures Scan(args) == TokenItems(args[0]) + Scan(args[1..])
  {
    hide TrimPrefix;
    assert [] + Scan(args[1..]) == Scan(args[1..]);
  }

  lemma ScanDisable(v: string, rest: seq<string>)
    requires v != "--"
    ensures Scan(["--disable", v] + rest) == [Disable(v)] + Scan(rest)
  {
    var args := ["--disable", v] + rest;
    assert args[0][1] == '-' && args[0][2] == 'd' && args[1] == v && args[2..] == rest;
  }

  lemma ScanConfig(o: string, v: string, rest: seq<string>)
    requires (o == "-c" || o == "--config") && v != "--"
    ensures Scan([o, v] + rest) == if HasPrefix(v, "-") then Scan([v] + rest) else [Assign(v)] + Scan(rest)
  {
    var args := [o, v] + rest;
    assert args[0] == o && args[1] == v && args[1..] == [v] + rest && args[2..] == rest;
  }

  /** What the guard reads in an option with its value does not depend on what follows. */
  lemma ValuedScanned(o: string, v: string, rest: seq<string>)
    requires TakesValue(o) && v != "--" && (o == "--disable" || !Greedy(v))
    ensures Scan([o, v] + rest) == Scan([o, v]) + Scan(rest)
  {
    assert [o, v] + [] == [o, v] && [v] + [] == [v];
    hide Scan, TakesValue;
    assert Scan([]) == [] by { ScanEmpty(); }
    if o == "--disable" {
      ScanDisable(v, rest);
      ScanDisable(v, []);
    } else {
      WordScanned(v, rest);
      if o == "-c" || o == "--config" {
        ScanConfig(o, v, rest);
        ScanConfig(o, v, []);
      } else {
        OptionSilent(o);
        assert ([o, v] + rest)[1..] == [v] + rest && [o, v][1..] == [v];
        SilentSkipped([o, v] + rest);
        SilentSkipped([o, v]);
      }
    }
  }

  lemma ScanEmpty()
    ensures Scan([]) == []
  {
  }

  lemma WordScanned(a: string, rest: seq<string>)
    requires a != "--" && !Greedy(a)
    ensures Scan([a] + rest) == Scan([a]) + Scan(rest)
  {
    assert ([a] + rest)[1..] == rest;
    ScanSingle([a] + rest);
  }

  /** A greedy word stands at the end or before the delimiter. */
  lemma GreedyWord(args: seq<string>)
    requires args != [] && Greedy(args[0]) && NextUnit(args).Word?
    ensures |args| == 1 || args[1] == "--"
  {
    DetachedIsOption(args[0]);
    assert TakesValue(args[0]);
    hide TakesValue, Detached, IsBypass, Greedy;
  }

  lemma UnitFacts(args: seq<string>)
    requires args != []
    ensures match NextUnit(args)
            case Boundary(_) => args[0] == "--"
            case BypassFlag(a) => Silent(a) && a == args[0]
            case Valued(o, v) => TakesValue(o) && v != "--" && |args| > 1 && o == args[0] && v == args[1]
            case Word(a) => a == args[0] && a != "--"
  {
    hide TakesValue, Detached, IsBypass, Silent, Cut;
    DetachedIsOption(args[0]);
    if NextUnit(args).BypassFlag? { BypassSilent(args[0]); }
  }

  lemma BypassSilent(a: string)
    requires IsBypass(a)
    ensures Silent(a)
  {
    if a == Bypass { assert a[1] == '-' && a[2] == 'd' && a[3] == 'a'; } else { assert a[1] == '-' && a[2] == 'y'; }
  }

  lemma KeyOfOption(a: string)
    requires !Cut(a, '=').2
    ensures Cut(a, '=').0 == a
  {
    if '=' in a {
      CutFinds(a, '=');
    } else {
      CutNone(a, '=');
    }
  }

  lemma {:induction false} CutFinds(s: string, c: char)
    requires c in s
    ensures Cut(s, c).2
  {
    if s[0] != c { CutFinds(s[1..], c); }
  }

  lemma DanglingStep(args: seq<string>)
    requires args != [] && NoDangling(args)
    ensures NoDangling(args[|UnitTokens(NextUnit(args))|..])
    ensures var u := NextUnit(args); u.Valued? && u.option != "--disable" ==> !Greedy(u.value)
  {
    UnitIsPrefix(args);
    hide NextUnit, UnitTokens, Greedy;
    var u := NextUnit(args);
    assert Units(args) == [u] + Units(args[|UnitTokens(u)|..]);
  }

  /** The guard reads the stripped list as it read the original. */
  lemma {:induction false} StripScanned(args: seq<string>)
    requires NoDangling(args)
    ensures Scan(Strip(args)) == Scan(args)
    decreases |args|
  {
    if args != [] {
      var u := NextUnit(args);
      UnitsStep(args);
      var n := |UnitTokens(u)|;
      var rest := args[n..];
      DanglingStep(args);
      StripScanned(rest);
      StripStarts(rest);
      hide Scan, Strip, Units, NextUnit, TakesValue, Silent, Greedy, NoDangling, AsksBypass, UnitTokens;
      if u.Boundary? || u.BypassFlag? { FlagScanned(args); } else { KeptScanned(args, Strip(rest)); }
    }
  }

  lemma FlagScanned(args: seq<string>)
    requires args != [] && (NextUnit(args).Boundary? || NextUnit(args).BypassFlag?)
    requires var rest := args[|UnitTokens(NextUnit(args))|..]; Scan(Strip(rest)) == Scan(rest)
    ensures Scan(Strip(args)) == Scan(args)
  {
    UnitFacts(args);
    hide Scan, Strip, IsBypass, Detached, Silent, Units, AsksBypass;
    if NextUnit(args).Boundary? {
      StripStarts(args);
    } else {
      SilentSkipped(args);
      UnitsStep(args);
      assert [] + Strip(args[1..]) == Strip(args[1..]);
    }
  }

  /** A kept unit contributes the same items before two rests that contribute the same. */
  lemma KeptScanned(args: seq<string>, rest': seq<string>)
    requires args != [] && (NextUnit(args).Valued? || NextUnit(args).Word?)
    requires var u := NextUnit(args); u.Valued? && u.option != "--disable" ==> !Greedy(u.value)
    requires var rest := args[|UnitTokens(NextUnit(args))|..];
             Scan(rest') == Scan(rest) && (rest == [] || rest[0] == "--" ==> rest' == rest)
    ensures Scan(args[..|UnitTokens(NextUnit(args))|] + rest') == Scan(args)
  {
    UnitFacts(args);
    var u := NextUnit(args);
    var n := |UnitTokens(u)|;
    var rest := args[n..];
    assert args == args[..n] + rest;
    if u.Word? && Greedy(u.token) { GreedyWord(args); }
    hide Scan, NextUnit, TakesValue, Silent, Greedy;
    match u {
      case Valued(o, v) =>
        assert args[..n] == [o, v];
        ValuedScanned(o, v, rest);
        ValuedScanned(o, v, rest');
      case Word(a) =>
        assert args[..n] == [a];
        if !Greedy(a) {
          WordScanned(a, rest);
          WordScanned(a, rest');
        }
    }
  }

  /** So the App Server gets a list the guard still accepts. */
  lemma StrippedStillAccepted(t: Toml, args: seq<string>)
    requires NoDangling(args)
    ensures Accepts(t, Strip(args)) <==> Accepts(t, args)
  {
    StripScanned(args);
  }

  /** `-m -c --yolo features.plugins=false`: a greedy value before a bypass flag lets an accepted list
      become a rejected one, and no other value does. */
  lemma StripExact(t: Toml, o: string, v: string)
    requires Lawful(t) && TakesValue(o) && o != "--disable" && v != "--"
    ensures (forall rest | NoDangling(rest) && Accepts(t, [o, v, "--yolo"] + rest) ::
               Accepts(t, Strip([o, v, "--yolo"] + rest)))
            <==> !Greedy(v)
  {
    if Greedy(v) {
      StripFails(t, o, v);
    } else {
      forall rest | NoDangling(rest) && Accepts(t, [o, v, "--yolo"] + rest)
        ensures Accepts(t, Strip([o, v, "--yolo"] + rest))
      {
        YoloUnits(o, v, rest);
        hide Accepts, Strip, Units;
        StrippedStillAccepted(t, [o, v, "--yolo"] + rest);
      }
    }
  }

  lemma YoloUnits(o: string, v: string, rest: seq<string>)
    requires TakesValue(o) && v != "--"
    ensures Units([o, v, "--yolo"] + rest) == [Valued(o, v), BypassFlag("--yolo")] + Units(rest)
    ensures Strip([o, v, "--yolo"] + rest) == [o, v] + Strip(rest)
  {
    hide TakesValue, Units, Strip;
    assert [o, v, "--yolo"] + rest == [o, v] + (["--yolo"] + rest);
    ValuedUnits(o, v, ["--yolo"] + rest);
    FlagUnits(rest);
  }

  lemma ValuedUnits(o: string, v: string, rest: seq<string>)
    requires TakesValue(o) && v != "--"
    ensures Units([o, v] + rest) == [Valued(o, v)] + Units(rest)
    ensures Strip([o, v] + rest) == [o, v] + Strip(rest)
  {
    var args := [o, v] + rest;
    DetachedIsOption(o);
    OptionIsNoFlag(o);
    hide TakesValue, Detached, IsBypass, Strip, AsksBypass;
    assert args[2..] == rest && args[..2] == [o, v];
    UnitsStep(args);
  }

  lemma FlagUnits(rest: seq<string>)
    ensures Units(["--yolo"] + rest) == [BypassFlag("--yolo")] + Units(rest)
    ensures Strip(["--yolo"] + rest) == Strip(rest)
  {
    var args := ["--yolo"] + rest;
    YoloIsBypass();
    hide TakesValue, Detached, IsBypass, Strip, AsksBypass;
    assert args[1..] == rest;
    UnitsStep(args);
  }

  lemma YoloIsBypass()
    ensures IsBypass("--yolo")
  {
  }

  lemma OptionIsNoFlag(o: string)
    requires TakesValue(o)
    ensures !IsBypass(o) && o != "--"
  {
    assert |o| < 30;
  }

  lemma StripFails(t: Toml, o: string, v: string)
    requires Lawful(t) && TakesValue(o) && o != "--disable" && Greedy(v)
    ensures exists rest :: NoDangling(rest) && Accepts(t, [o, v, "--yolo"] + rest) && !Accepts(t, Strip([o, v, "--yolo"] + rest))
  {
    var w := if v == "--disable" then "plugins" else Override(FeaturesPlugins, "false");
    ManagedArePlain();
    OverrideIsValue(FeaturesPlugins, "false");
    FalseConflicts(t);
    assert w != "" && w[0] != '-' by { hide Scan; }
    var rest := [w];
    var item := if v == "--disable" then Disable(w) else Assign(w);
    assert !ItemOk(t, item);
    WordOnly(w);
    YoloUnits(o, v, rest);
    hide Override, ItemOk, TakesValue, Strip, Units;
    YoloScan(o, v, w, item);
    assert item in Scan(Strip([o, v, "--yolo"] + rest));
  }

  /** A word alone is one unit and no item. */
  lemma WordOnly(w: string)
    requires w != "" && w[0] != '-'
    ensures NoDangling([w]) && Strip([w]) == [w] && Scan([w]) == []
  {
    assert !TakesValue(w) && !IsBypass(w);
    DetachedIsOption(w);
    hide TakesValue, Detached, IsBypass;
    WordSkipped([w]);
    assert [w][1..] == [];
    assert NextUnit([w]) == Word(w);
    assert Units([w]) == [Word(w)];
    UnitsStep([w]);
    EndOfUnits();
    assert [w][..1] == [w];
  }

  lemma YoloScan(o: string, v: string, w: string, item: Item)
    requires TakesValue(o) && o != "--disable" && Greedy(v) && w != "" && w[0] != '-'
    requires item == if v == "--disable" then Disable(w) else Assign(w)
    ensures forall i | i in Scan([o, v, "--yolo"] + [w]) :: i == Disable("--yolo")
    ensures Scan([o, v] + [w]) == [item]
  {
    GreedyIsNext(o, v, ["--yolo"] + [w]);
    GreedyIsNext(o, v, [w]);
    assert [o, v, "--yolo"] + [w] == [o, v] + (["--yolo"] + [w]);
    WordOnly(w);
    hide TakesValue;
    GreedyBeforeYolo(v, w);
    GreedyBeforeWord(v, w, item);
  }

  /** Before a greedy value the guard passes over the option. */
  lemma GreedyIsNext(o: string, v: string, rest: seq<string>)
    requires TakesValue(o) && o != "--disable" && Greedy(v)
    ensures Scan([o, v] + rest) == Scan([v] + rest)
  {
    if o == "-c" || o == "--config" {
      hide TakesValue;
      ScanConfig(o, v, rest);
    } else {
      OptionSilent(o);
      hide Scan, TakesValue, Silent;
      assert ([o, v] + rest)[1..] == [v] + rest;
      SilentSkipped([o, v] + rest);
    }
  }

  lemma GreedyBeforeYolo(v: string, w: string)
    requires Greedy(v) && w != "" && w[0] != '-'
    ensures forall i | i in Scan([v] + (["--yolo"] + [w])) :: i == Disable("--yolo")
  {
    WordOnly(w);
    BypassSilent("--yolo");
    hide Silent, IsBypass, Strip, NoDangling;
    var tail := ["--yolo"] + [w];
    assert tail[1..] == [w] && HasPrefix("--yolo", "-");
    SilentSkipped(tail);
    if v == "--disable" {
      assert [v] + tail == ["--disable", "--yolo"] + [w];
      ScanDisable("--yolo", [w]);
    } else {
      assert [v] + tail == [v, "--yolo"] + [w];
      ScanConfig(v, "--yolo", [w]);
    }
  }

  lemma GreedyBeforeWord(v: string, w: string, item: Item)
    requires Greedy(v) && w != "" && w[0] != '-'
    requires item == if v == "--disable" then Disable(w) else Assign(w)
    ensures Scan([v] + [w]) == [item]
  {
    ScanEmpty();
    assert [v] + [w] == [v, w] + [];
    if v == "--disable" { ScanDisable(w, []); } else { ScanConfig(v, w, []); }
  }
}
