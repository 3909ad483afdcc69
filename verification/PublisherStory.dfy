/** What the residents hold, told by the events alone: the identity they publish, their tools, their
    admission and the requests they serve. */
module PublisherStory {
  import opened Prelude
  import opened Publisher
  import opened PublisherRun

  // ----- identity ------------------------------------------------------------------------------

  /** What the events say of a resident: the session it was loaded for and its name, whether its thread is
      still loaded, and how often it was renamed and told of its server. */
  datatype Story = Story(session: string, name: string, loaded: bool, renames: nat, updates: nat)

  function Told(s: Story, e: Event): Story {
    match e
    case SetThreadName(thread, name) =>
      if s.loaded && thread == s.session then s.(name := name, renames := s.renames + 1) else s
    case Status(thread, _) => if s.loaded && thread == s.session then s.(updates := s.updates + 1) else s
    case Close(thread) => if thread == s.session then s.(loaded := false) else s
    case _ => s
  }

  function StoryOf(es: seq<Event>, id: nat): Option<Story> {
    if es == [] then None
    else
      var e, before := es[|es| - 1], StoryOf(es[..|es| - 1], id);
      if e.Load? && e.id == id then Some(Story(e.thread, e.name, true, 0, 0))
      else if before.Some? then Some(Told(before.value, e)) else None
  }

  /** What native last said of a thread's server since the thread was closed, if it did. */
  function WordOn(es: seq<Event>, thread: string): Option<string> {
    if es == [] then None
    else
      var e := es[|es| - 1];
      if e.Status? && e.thread == thread then Some(e.status)
      else if e.Close? && e.thread == thread then None
      else WordOn(es[..|es| - 1], thread)
  }

  /** A resident as its story says. */
  ghost predicate AsTold(o: Owners, id: nat, s: Story) {
    && id in o.actors && o.actors[id].thread == s.session
    && o.actors[id].r.identity == Identity(s.session, s.name)
    && o.actors[id].r.toolGeneration == s.updates
    && (s.session in o.owners && o.owners[s.session] == id <==> s.loaded)
  }

  lemma RunStep(os: seq<Owners>, es: seq<Event>, i: nat)
    requires Run(os, es) && i < |es|
    ensures Can(os[i], es[i]) && os[i + 1] == Next(os[i], es[i]) && os[0] == Start()
  {
    hide Next, Can;
  }

  lemma RunStart(os: seq<Owners>, es: seq<Event>)
    requires Run(os, es)
    ensures os[0] == Start() && |os| == |es| + 1
  {
    hide Next, Can;
  }

  lemma MovedTold(a: Actor, m: Move, conn: nat)
    requires CanMove(a, m) && !m.FinishChecking?
    ensures var a' := Moved(a, m, conn);
            a'.thread == a.thread && a'.r.identity == a.r.identity && a'.r.toolGeneration == a.r.toolGeneration
  {
  }

  lemma CheckedTold(a: Actor, valid: bool, stillReady: bool)
    requires a.check.Some?
    ensures var a' := Checked(a, valid, stillReady);
            a'.thread == a.thread && a'.r.identity == a.r.identity && a'.r.toolGeneration == a.r.toolGeneration
  {
  }

  // ----- one resident, one event ---------------------------------------------------------------

  /** The thread is loaded, and this is its resident. */
  predicate Mine(o: Owners, thread: string, id: nat) {
    Has(o, thread) && o.owners[thread] == id
  }

  /** A resident after an event. */
  function Acted(o: Owners, e: Event, id: nat): Actor
    requires Can(o, e) && id in o.actors
  {
    var a := o.actors[id];
    match e
    case SetThreadName(thread, name) => if Mine(o, thread, id) then a.(r := Rename(a.r, name), renaming := a.renaming + 1) else a
    case Status(thread, status) =>
      if !Mine(o, thread, id) then a
      else if status == "ready" then Started(a.(r := Withdraw(a.r))) else a.(r := Withdraw(a.r))
    case Close(thread) => if Mine(o, thread, id) then a.(r := Retire(a.r, true)) else a
    case EndAll => if o.ended then a else Ended(o, a, id)
    case CancelAll => a.(r := a.r.(cancelled := true))
    case Local(i, move) =>
      if i != id then a
      else if move.FinishChecking? then Checked(a, move.valid, Ready(o, a.thread) && !o.ended)
      else Moved(a, move, o.dialed + 1)
    case _ => a
  }

  lemma LocalActs(o: Owners, i: nat, move: Move, id: nat)
    requires Can(o, Local(i, move)) && id in o.actors
    ensures var o' := Next(o, Local(i, move)); id in o'.actors && o'.actors[id] == Acted(o, Local(i, move), id)
  {
    hide Moved, Checked, CanMove, WorkOf, Ready;
  }

  lemma ThreadActs(o: Owners, e: Event, id: nat)
    requires Can(o, e) && id in o.actors && (e.SetThreadName? || e.Status? || e.Close?)
    ensures id in Next(o, e).actors && Next(o, e).actors[id] == Acted(o, e, id)
  {
    hide Rename, Withdraw, Started, Retire, WorkOf;
  }

  lemma AllActs(o: Owners, e: Event, id: nat)
    requires Can(o, e) && id in o.actors && (e.EndAll? || e.CancelAll?)
    ensures id in Next(o, e).actors && Next(o, e).actors[id] == Acted(o, e, id)
  {
    hide Ended;
  }

  lemma RestActs(o: Owners, e: Event, id: nat)
    requires Can(o, e) && id in o.actors && (e.Load? || e.SelectName? || e.NameDone?)
    ensures id in Next(o, e).actors && Next(o, e).actors[id] == Acted(o, e, id)
  {
    hide Started, WorkOf, Ready;
  }

  lemma ActedIs(o: Owners, e: Event, id: nat)
    requires Can(o, e) && id in o.actors
    ensures id in Next(o, e).actors && Next(o, e).actors[id] == Acted(o, e, id)
  {
    hide Next, Acted, Can;
    match e
    case Local(i, move) => LocalActs(o, i, move, id);
    case SetThreadName(_, _) => ThreadActs(o, e, id);
    case Status(_, _) => ThreadActs(o, e, id);
    case Close(_) => ThreadActs(o, e, id);
    case EndAll => AllActs(o, e, id);
    case CancelAll => AllActs(o, e, id);
    case _ => RestActs(o, e, id);
  }

  lemma WithKeeps(o: Owners, id: nat, a: Actor)
    ensures With(o, id, a).startup == o.startup && With(o, id, a).owners == o.owners
  {
    hide WorkOf;
  }

  /** The board and the loaded threads after an event. */
  lemma StepBoard(o: Owners, e: Event)
    requires Can(o, e)
    ensures Next(o, e).startup ==
            match e
            case Status(thread, status) => o.startup[thread := status]
            case Close(thread) => o.startup - {thread}
            case _ => o.startup
    ensures Next(o, e).owners ==
            match e
            case Load(id, thread, _) => o.owners[thread := id]
            case Close(thread) => o.owners - {thread}
            case _ => o.owners
  {
    forall o1: Owners, id, a ensures With(o1, id, a).startup == o1.startup && With(o1, id, a).owners == o1.owners { WithKeeps(o1, id, a); }
    hide With, Moved, Checked, CanMove, Ready, Rename, Withdraw, Started, Retire, Ended, Loaded;
  }

  lemma StepWord(o: Owners, e: Event, thread: string)
    requires Can(o, e)
    ensures var b, b' := o.startup, Next(o, e).startup;
            (if thread in b' then Some(b'[thread]) else None) ==
            if e.Status? && e.thread == thread then Some(e.status)
            else if e.Close? && e.thread == thread then None
            else if thread in b then Some(b[thread]) else None
  {
    StepBoard(o, e);
    hide Next, Can;
  }

  // ----- stories -------------------------------------------------------------------------------

  /** Every loaded thread has its own resident. */
  ghost predicate Owned(o: Owners) {
    forall t | t in o.owners :: o.owners[t] in o.actors && o.actors[o.owners[t]].thread == t
  }

  lemma ActedTold(o: Owners, e: Event, id: nat)
    requires Can(o, e) && id in o.actors
    ensures var a, a' := o.actors[id], Acted(o, e, id);
            && a'.thread == a.thread
            && a'.r.identity == (if e.SetThreadName? && Mine(o, e.thread, id) then a.r.identity.(name := e.name) else a.r.identity)
            && a'.r.toolGeneration == a.r.toolGeneration + (if e.Status? && Mine(o, e.thread, id) then 1 else 0)
  {
    if e.Local? && e.id == id {
      if e.move.FinishChecking? { CheckedTold(o.actors[id], e.move.valid, Ready(o, o.actors[id].thread) && !o.ended); }
      else { MovedTold(o.actors[id], e.move, o.dialed + 1); }
    }
    hide Moved, Checked, CanMove, Ready;
  }

  /** What one event does to a resident that was there before. */
  lemma StepTold(o: Owners, e: Event, id: nat, s: Story)
    requires Can(o, e) && AsTold(o, id, s) && Owned(o)
    ensures AsTold(Next(o, e), id, Told(s, e))
  {
    hide Next, Acted, Can, Mine;
    ActedIs(o, e, id);
    ActedTold(o, e, id);
    StepBoard(o, e);
    if e.Load? { LoadIsElsewhere(o, e, id); }
    MineIsLoaded(o, id, s);
    hide Owned;
  }

  lemma LoadIsElsewhere(o: Owners, e: Event, id: nat)
    requires Can(o, e) && e.Load? && id in o.actors
    ensures e.id != id && e.thread !in o.owners
  {
    hide CanMove;
  }

  /** A thread is the resident's own exactly when it is its session and still loaded. */
  lemma MineIsLoaded(o: Owners, id: nat, s: Story)
    requires AsTold(o, id, s) && Owned(o)
    ensures forall thread :: Mine(o, thread, id) <==> s.loaded && thread == s.session
  {
  }

  lemma StoryGrows(es: seq<Event>, i: nat, id: nat)
    requires i < |es|
    ensures StoryOf(es[..i + 1], id) ==
            if es[i].Load? && es[i].id == id then Some(Story(es[i].thread, es[i].name, true, 0, 0))
            else if StoryOf(es[..i], id).Some? then Some(Told(StoryOf(es[..i], id).value, es[i])) else None
  {
    assert es[..i + 1][..i] == es[..i] && es[..i + 1][i] == es[i];
    hide Told;
  }

  lemma RunOwned(os: seq<Owners>, es: seq<Event>, i: nat)
    requires Run(os, es) && i < |os|
    ensures Owned(os[i])
  {
    RunOk(os, es, i);
    hide Run, Residents;
  }

  lemma LoadIsFresh(o: Owners, e: Event, id: nat)
    requires Can(o, e) && id in o.actors
    ensures !(e.Load? && e.id == id)
  {
    hide CanMove;
  }

  /** A resident comes with its load, and says what the load said. */
  lemma LoadTold(o: Owners, e: Event, id: nat)
    requires Can(o, e) && id !in o.actors
    ensures id in Next(o, e).actors <==> e.Load? && e.id == id
    ensures e.Load? && e.id == id ==> AsTold(Next(o, e), id, Story(e.thread, e.name, true, 0, 0))
  {
    hide Moved, Checked, CanMove, WorkOf;
  }

  /** In every run each resident is as its story says: its identity is the session of its thread and the name
      in the last rename of that thread since it was loaded, or the name it was loaded with if there was
      none; and its tools are of the generation given by the reports on its server since then. */
  lemma {:induction false} StoriesAreTrue(os: seq<Owners>, es: seq<Event>, i: nat, id: nat)
    requires Run(os, es) && i <= |es|
    ensures id in os[i].actors <==> StoryOf(es[..i], id).Some?
    ensures id in os[i].actors ==> AsTold(os[i], id, StoryOf(es[..i], id).value)
  {
    hide Run, Next, Can;
    RunStart(os, es);
    if i > 0 {
      RunStep(os, es, i - 1);
      var o, e := os[i - 1], es[i - 1];
      hide AsTold, Owned, Told;
      StoryGrows(es, i - 1, id);
      hide StoryOf;
      StoriesAreTrue(os, es, i - 1, id);
      RunOwned(os, es, i - 1);
      if id in o.actors {
        LoadIsFresh(o, e, id);
        StepTold(o, e, id, StoryOf(es[..i - 1], id).value);
        ActorsStay(os, es, i - 1, id);
      } else {
        LoadTold(o, e, id);
      }
    }
  }

  /** Native's word on a thread is what the board holds. */
  lemma {:induction false} WordsAreKept(os: seq<Owners>, es: seq<Event>, i: nat, thread: string)
    requires Run(os, es) && i <= |es|
    ensures (if thread in os[i].startup then Some(os[i].startup[thread]) else None) == WordOn(es[..i], thread)
  {
    hide Run, Next, Can;
    RunStart(os, es);
    if i > 0 {
      RunStep(os, es, i - 1);
      var o, e := os[i - 1], es[i - 1];
      assert es[..i][..i - 1] == es[..i - 1] && es[..i][i - 1] == e;
      WordsAreKept(os, es, i - 1, thread);
      StepWord(o, e, thread);
    }
  }

  // ----- tools ---------------------------------------------------------------------------------

  /** A check of the tools that counts: it found them, nothing was heard of the server since it began, the
      last word on it is `ready`, and neither the owner nor the resident has ended. */
  predicate Proves(o: Owners, e: Event, id: nat) {
    && e == Local(id, FinishChecking(true)) && id in o.actors
    && o.actors[id].check == Some(o.actors[id].r.toolGeneration)
    && Ready(o, o.actors[id].thread) && !o.ended && !o.actors[id].r.closed
  }

  /** The tools are lost: the server was heard of again, another check ended without proof, or the resident
      was superseded. */
  predicate Spoils(o: Owners, e: Event, id: nat) {
    id in o.actors &&
    (|| (e.Status? && Has(o, e.thread) && o.owners[e.thread] == id)
     || (e.Local? && e.id == id && e.move.FinishChecking? && !Proves(o, e, id))
     || Supersedes(o, e, id))
  }

  predicate Supersedes(o: Owners, e: Event, id: nat) {
    && id in o.actors && e.Local? && e.id == id && e.move.Arrive? && e.move.superseded
    && o.actors[id].r.connection == Some(e.move.source) && !o.actors[id].r.closed
  }

  /** The sections that leave the tools alone. */
  lemma ToolsKept(r: Resident, c: nat, both: bool)
    ensures Retire(r, both).tools == r.tools && ClearConnection(r, c).tools == r.tools
    ensures Adopt(r, c).0.tools == r.tools && Admit(r, c).tools == r.tools
  {
  }

  lemma MovedTools(a: Actor, m: Move, conn: nat)
    requires CanMove(a, m) && !m.FinishChecking?
    ensures Moved(a, m, conn).r.tools <==>
              a.r.tools && !(m.Arrive? && m.superseded && a.r.connection == Some(m.source) && !a.r.closed)
  {
    forall c: nat, both ensures Retire(a.r, both).tools == a.r.tools && ClearConnection(a.r, c).tools == a.r.tools
      ensures Adopt(a.r, c).0.tools == a.r.tools && Admit(a.r, c).tools == a.r.tools
    {
      ToolsKept(a.r, c, both);
    }
    hide Retire, ClearConnection, Adopt, Admit;
  }

  lemma StartedTools(a: Actor)
    ensures Started(a).r.tools == a.r.tools
  {
  }

  lemma EndedTools(o: Owners, a: Actor, id: nat)
    ensures Ended(o, a, id).r.tools == a.r.tools
  {
  }

  lemma CheckedTools(a: Actor, valid: bool, stillReady: bool)
    requires a.check.Some?
    ensures Checked(a, valid, stillReady).r.tools <==>
              valid && stillReady && a.check == Some(a.r.toolGeneration) && !a.r.closed
  {
  }

  lemma StepTools(o: Owners, e: Event, id: nat)
    requires Can(o, e) && id in o.actors && (o.actors[id].check.Some? ==> !o.actors[id].r.tools)
    ensures id in Next(o, e).actors
    ensures Next(o, e).actors[id].r.tools <==> Proves(o, e, id) || (o.actors[id].r.tools && !Spoils(o, e, id))
  {
    hide Next, Moved, Checked, Started, Ended, Retire;
    ActedIs(o, e, id);
    var a := o.actors[id];
    StartedTools(a.(r := Withdraw(a.r)));
    EndedTools(o, a, id);
    ToolsKept(a.r, 0, true);
    if e.Local? && e.id == id {
      if e.move.FinishChecking? { CheckedTools(a, e.move.valid, Ready(o, a.thread) && !o.ended); }
      else { MovedTools(a, e.move, o.dialed + 1); }
    }
    hide Ready;
  }

  /** The last thing that decided. */
  ghost predicate ProvedSince(os: seq<Owners>, es: seq<Event>, i: nat, id: nat)
    requires i <= |es| < |os|
  {
    exists k :: 0 <= k < i && Proves(os[k], es[k], id) && forall x | k < x < i :: !Spoils(os[x], es[x], id)
  }

  lemma ProvedGrows(os: seq<Owners>, es: seq<Event>, i: nat, id: nat)
    requires i < |es| < |os|
    ensures ProvedSince(os, es, i + 1, id) <==>
              Proves(os[i], es[i], id) || (ProvedSince(os, es, i, id) && !Spoils(os[i], es[i], id))
  {
    hide Proves, Spoils;
  }

  /** In every run a resident has its tools exactly when a check has proved them and nothing has spoiled the
      proof since: a valid and current check gives tools, and only that does. */
  lemma {:induction false} ToolsFollowChecks(os: seq<Owners>, es: seq<Event>, i: nat, id: nat)
    requires Run(os, es) && i <= |es| && id in os[i].actors
    ensures os[i].actors[id].r.tools <==> ProvedSince(os, es, i, id)
  {
    hide Run, Next, Can;
    RunStart(os, es);
    if i > 0 {
      RunStep(os, es, i - 1);
      var o, e := os[i - 1], es[i - 1];
      hide Proves, Spoils, ProvedSince;
      ProvedGrows(os, es, i - 1, id);
      if id in o.actors {
        ToolsFollowChecks(os, es, i - 1, id);
        RunOk(os, es, i - 1);
        ActorPlaced(o, id);
        CheckingMeansNone(o.actors[id]);
        hide ActorOk, OwnersOk;
        StepTools(o, e, id);
      } else {
        NotProved(os, es, i - 1, id);
        NewTools(o, e, id);
        AbsentNotAdmits(o, e, id);
      }
    }
  }

  lemma CheckingMeansNone(a: Actor)
    requires ActorOk(a)
    ensures a.check.Some? ==> !a.r.tools
  {
    hide Linked, Current, Awake, Terminal;
  }

  lemma NewTools(o: Owners, e: Event, id: nat)
    requires Can(o, e) && id !in o.actors && id in Next(o, e).actors
    ensures !Next(o, e).actors[id].r.tools && !Next(o, e).actors[id].r.admitted && Next(o, e).actors[id].served == []
  {
    hide Moved, Checked, CanMove, WorkOf;
  }

  lemma {:induction false} NotProved(os: seq<Owners>, es: seq<Event>, i: nat, id: nat)
    requires Run(os, es) && i <= |es| && id !in os[i].actors
    ensures !ProvedSince(os, es, i, id)
  {
    hide Run, Next, Can;
    RunStart(os, es);
    if i > 0 {
      hide ProvedSince, Proves, Spoils;
      ActorsStay(os, es, i - 1, id);
      NotProved(os, es, i - 1, id);
      ProvedGrows(os, es, i - 1, id);
      AbsentNotAdmits(os[i - 1], es[i - 1], id);
    }
  }

  lemma ActorsStay(os: seq<Owners>, es: seq<Event>, i: nat, id: nat)
    requires Run(os, es) && i < |es|
    ensures id in os[i].actors ==> id in os[i + 1].actors
  {
    hide Run, Next, Can;
    RunStart(os, es);
    RunStep(os, es, i);
    if id in os[i].actors { ActedIs(os[i], es[i], id); }
  }

  // ----- checks --------------------------------------------------------------------------------

  /** A check of the tools begins: with a load or a report that finds native ready, or at once after a check
      that was overtaken by a report; never beside another, and never for a resident that is closed. */
  predicate Starts(o: Owners, e: Event, id: nat) {
    match e
    case Load(i, thread, _) => i == id && Ready(o, thread)
    case Status(thread, status) =>
      && Mine(o, thread, id) && status == "ready"
      && o.actors[id].check.None? && !o.actors[id].r.closed
    case Local(i, move) =>
      && i == id && id in o.actors && move.FinishChecking? && o.actors[id].check.Some? && !o.actors[id].r.closed
      && o.actors[id].check != Some(o.actors[id].r.toolGeneration)
      && Ready(o, o.actors[id].thread) && !o.ended
    case _ => false
  }

  predicate Ends(e: Event, id: nat) {
    e.Local? && e.id == id && e.move.FinishChecking?
  }

  lemma StartedCheck(a: Actor)
    requires a.r.checking <==> a.check.Some?
    ensures Started(a).check == if a.check.None? && !a.r.closed then Some(a.r.toolGeneration) else a.check
  {
  }

  lemma CheckedCheck(a: Actor, valid: bool, stillReady: bool)
    requires a.check.Some?
    ensures Checked(a, valid, stillReady).check ==
            if a.check != Some(a.r.toolGeneration) && stillReady && !a.r.closed then Some(a.r.toolGeneration) else None
  {
  }

  lemma MovedCheck(a: Actor, m: Move, conn: nat)
    requires CanMove(a, m) && !m.FinishChecking?
    ensures Moved(a, m, conn).check == a.check
  {
  }

  lemma EndedCheck(o: Owners, a: Actor, id: nat)
    ensures Ended(o, a, id).check == a.check
  {
  }

  /** What one event does to the check of a resident. */
  lemma StepCheck(o: Owners, e: Event, id: nat)
    requires Can(o, e) && id in o.actors && (o.actors[id].r.checking <==> o.actors[id].check.Some?)
    ensures id in Next(o, e).actors
    ensures Next(o, e).actors[id].check ==
            if Starts(o, e, id) then Some(o.actors[id].r.toolGeneration + if e.Status? then 1 else 0)
            else if Ends(e, id) then None else o.actors[id].check
  {
    hide Next, Moved, Checked, Started, Ended, Retire;
    ActedIs(o, e, id);
    LoadIsFresh(o, e, id);
    var a := o.actors[id];
    StartedCheck(a.(r := Withdraw(a.r)));
    EndedCheck(o, a, id);
    if e.Local? && e.id == id {
      if e.move.FinishChecking? { CheckedCheck(a, e.move.valid, Ready(o, a.thread) && !o.ended); }
      else { MovedCheck(a, e.move, o.dialed + 1); }
    }
    hide Ready;
  }

  lemma NewCheck(o: Owners, e: Event, id: nat)
    requires Can(o, e) && id !in o.actors && id in Next(o, e).actors
    ensures Next(o, e).actors[id].check == if Starts(o, e, id) then Some(0) else None
    ensures !Ends(e, id)
  {
    hide Moved, Checked, CanMove, WorkOf;
  }

  ghost predicate CheckedSince(os: seq<Owners>, es: seq<Event>, i: nat, id: nat)
    requires i <= |es| < |os|
  {
    exists k :: 0 <= k < i && Starts(os[k], es[k], id) && forall x | k < x < i :: Starts(os[x], es[x], id) || !Ends(es[x], id)
  }

  lemma CheckedGrows(os: seq<Owners>, es: seq<Event>, i: nat, id: nat)
    requires i < |es| < |os|
    ensures CheckedSince(os, es, i + 1, id) <==>
              Starts(os[i], es[i], id) || (CheckedSince(os, es, i, id) && !Ends(es[i], id))
  {
    hide Starts, Ends;
  }

  lemma AbsentStarts(o: Owners, e: Event, id: nat)
    requires Can(o, e) && id !in o.actors && Starts(o, e, id)
    ensures e.Load? && e.id == id
  {
    hide CanMove;
  }

  lemma {:induction false} NotChecked(os: seq<Owners>, es: seq<Event>, i: nat, id: nat)
    requires Run(os, es) && i <= |es| && id !in os[i].actors
    ensures !CheckedSince(os, es, i, id)
  {
    hide Run, Next, Can;
    RunStart(os, es);
    if i > 0 {
      hide CheckedSince, Starts, Ends;
      RunStep(os, es, i - 1);
      ActorsStay(os, es, i - 1, id);
      NotChecked(os, es, i - 1, id);
      CheckedGrows(os, es, i - 1, id);
      LoadTold(os[i - 1], es[i - 1], id);
      if Starts(os[i - 1], es[i - 1], id) { AbsentStarts(os[i - 1], es[i - 1], id); }
    }
  }

  /** In every run a check of the tools is running exactly when one was begun and none has ended since: the
      checks are begun by what the events say of native's readiness, one at a time. */
  lemma {:induction false} ChecksFollowReadiness(os: seq<Owners>, es: seq<Event>, i: nat, id: nat)
    requires Run(os, es) && i <= |es| && id in os[i].actors
    ensures os[i].actors[id].check.Some? <==> CheckedSince(os, es, i, id)
  {
    hide Run, Next, Can;
    RunStart(os, es);
    if i > 0 {
      hide CheckedSince, Starts, Ends;
      RunStep(os, es, i - 1);
      CheckedGrows(os, es, i - 1, id);
      if id in os[i - 1].actors {
        ChecksFollowReadiness(os, es, i - 1, id);
        RunChecking(os, es, i - 1, id);
        StepCheck(os[i - 1], es[i - 1], id);
      } else {
        NotChecked(os, es, i - 1, id);
        NewCheck(os[i - 1], es[i - 1], id);
      }
    }
  }

  lemma RunChecking(os: seq<Owners>, es: seq<Event>, i: nat, id: nat)
    requires Run(os, es) && i < |os| && id in os[i].actors
    ensures os[i].actors[id].r.checking <==> os[i].actors[id].check.Some?
  {
    RunOk(os, es, i);
    ActorPlaced(os[i], id);
    hide Run, OwnersOk, Linked, Current, Awake, Terminal;
  }

  // ----- admission -----------------------------------------------------------------------------

  /** Native accepts a hello built from the current generation, while the resident is open with its tools. */
  predicate Admits(o: Owners, e: Event, id: nat) {
    && e == Local(id, Accepted) && id in o.actors && CanMove(o.actors[id], Accepted)
    && o.actors[id].loop.began == o.actors[id].r.generation && o.actors[id].r.tools && !o.actors[id].r.closed
  }

  /** Admission ends: the thread is renamed, or its server heard of, or it is closed, or the owner ends; the
      connection is lost; or the resident retires or is superseded. */
  predicate Withdraws(o: Owners, e: Event, id: nat) {
    id in o.actors &&
    match e
    case SetThreadName(thread, _) => Has(o, thread) && o.owners[thread] == id
    case Status(thread, _) => Has(o, thread) && o.owners[thread] == id
    case Close(thread) => Has(o, thread) && o.owners[thread] == id
    case EndAll => !o.ended && Has(o, o.actors[id].thread) && o.owners[o.actors[id].thread] == id
    case Local(i, move) =>
      i == id && CanMove(o.actors[id], move) &&
      (|| (move.LoseConnection? && o.actors[id].r.connection == o.actors[id].loop.link)
       || (move.HelloFailed? && o.actors[id].r.connection == Some(o.actors[id].loop.conn))
       || (move.Leave? && !o.actors[id].r.closed)
       || move.EndSuperseded? || Supersedes(o, e, id))
    case _ => false
  }

  lemma MovedAdmitted(a: Actor, m: Move, conn: nat)
    requires CanMove(a, m) && !m.FinishChecking?
    ensures Moved(a, m, conn).r.admitted <==>
              || (m.Accepted? && a.loop.began == a.r.generation && a.r.tools && !a.r.closed)
              || (a.r.admitted
                  && !(m.LoseConnection? && a.r.connection == a.loop.link)
                  && !(m.HelloFailed? && a.r.connection == Some(a.loop.conn))
                  && !(m.Leave? && !a.r.closed) && !m.EndSuperseded?
                  && !(m.Arrive? && m.superseded && a.r.connection == Some(m.source) && !a.r.closed))
  {
  }

  lemma StepAdmitted(o: Owners, e: Event, id: nat)
    requires Can(o, e) && id in o.actors
    ensures id in Next(o, e).actors
    ensures Next(o, e).actors[id].r.admitted <==> Admits(o, e, id) || (o.actors[id].r.admitted && !Withdraws(o, e, id))
  {
    hide Next, Moved, Checked, Started, Ended, Retire;
    ActedIs(o, e, id);
    var a := o.actors[id];
    StartedAdmitted(a.(r := Withdraw(a.r)));
    EndedAdmitted(o, a, id);
    if e.Local? && e.id == id {
      if e.move.FinishChecking? { CheckedAdmitted(a, e.move.valid, Ready(o, a.thread) && !o.ended); }
      else { MovedAdmitted(a, e.move, o.dialed + 1); }
    }
    hide Ready;
  }

  lemma StartedAdmitted(a: Actor)
    ensures Started(a).r.admitted == a.r.admitted
  {
  }

  lemma EndedAdmitted(o: Owners, a: Actor, id: nat)
    ensures !Retire(a.r, true).admitted
    ensures Ended(o, a, id).r.admitted == (a.r.admitted && !Mine(o, a.thread, id))
  {
  }

  lemma CheckedAdmitted(a: Actor, valid: bool, stillReady: bool)
    requires a.check.Some?
    ensures Checked(a, valid, stillReady).r.admitted == a.r.admitted
  {
  }

  ghost predicate AdmittedSince(os: seq<Owners>, es: seq<Event>, i: nat, id: nat)
    requires i <= |es| < |os|
  {
    exists k :: 0 <= k < i && Admits(os[k], es[k], id) && forall x | k < x < i :: !Withdraws(os[x], es[x], id)
  }

  lemma AdmittedGrows(os: seq<Owners>, es: seq<Event>, i: nat, id: nat)
    requires i < |es| < |os|
    ensures AdmittedSince(os, es, i + 1, id) <==>
              Admits(os[i], es[i], id) || (AdmittedSince(os, es, i, id) && !Withdraws(os[i], es[i], id))
  {
    hide Admits, Withdraws;
  }

  lemma AbsentNotAdmits(o: Owners, e: Event, id: nat)
    requires id !in o.actors
    ensures !Admits(o, e, id) && !Proves(o, e, id) && forall mark :: !ServedAt(o, e, id, mark)
  {
    hide CanMove;
  }

  lemma {:induction false} NotAdmitted(os: seq<Owners>, es: seq<Event>, i: nat, id: nat)
    requires Run(os, es) && i <= |es| && id !in os[i].actors
    ensures !AdmittedSince(os, es, i, id)
  {
    hide Run, Next, Can;
    RunStart(os, es);
    if i > 0 {
      hide AdmittedSince, Admits, Withdraws;
      ActorsStay(os, es, i - 1, id);
      NotAdmitted(os, es, i - 1, id);
      AdmittedGrows(os, es, i - 1, id);
      AbsentNotAdmits(os[i - 1], es[i - 1], id);
    }
  }

  /** In every run a resident is admitted exactly when native has accepted a current hello of it and nothing
      has withdrawn the admission since. */
  lemma {:induction false} AdmissionFollowsHellos(os: seq<Owners>, es: seq<Event>, i: nat, id: nat)
    requires Run(os, es) && i <= |es| && id in os[i].actors
    ensures os[i].actors[id].r.admitted <==> AdmittedSince(os, es, i, id)
  {
    hide Run, Next, Can;
    RunStart(os, es);
    if i > 0 {
      RunStep(os, es, i - 1);
      var o, e := os[i - 1], es[i - 1];
      hide Admits, Withdraws, AdmittedSince;
      AdmittedGrows(os, es, i - 1, id);
      if id in o.actors {
        AdmissionFollowsHellos(os, es, i - 1, id);
        StepAdmitted(o, e, id);
      } else {
        NotAdmitted(os, es, i - 1, id);
        NewTools(o, e, id);
        AbsentNotAdmits(o, e, id);
      }
    }
  }

  /** An admitted resident is published under its name: the hello native last accepted, on the connection it
      has, carried its session and the last name the events gave it. */
  lemma PublishedUnderItsName(os: seq<Owners>, es: seq<Event>, i: nat, id: nat)
    requires Run(os, es) && i <= |es| && id in os[i].actors && os[i].actors[id].r.admitted
    ensures StoryOf(es[..i], id).Some? && os[i].actors[id].r.connection.Some?
    ensures var s := StoryOf(es[..i], id).value;
            os[i].actors[id].accepted == Some((os[i].actors[id].r.connection.value, Identity(s.session, s.name)))
    ensures WordOn(es[..i], StoryOf(es[..i], id).value.session) == Some("ready")
  {
    AdmittedMeansPublished(os, es, i, id);
    StoriesAreTrue(os, es, i, id);
    WordsAreKept(os, es, i, os[i].actors[id].thread);
    hide Run;
  }

  // ----- closing, cancelling, connections ------------------------------------------------------

  /** The resident is closed: its thread is, or the owner ends, or its publisher leaves, or it is superseded. */
  predicate Closes(o: Owners, e: Event, id: nat) {
    id in o.actors &&
    match e
    case Close(thread) => Mine(o, thread, id)
    case EndAll => !o.ended && Mine(o, o.actors[id].thread, id)
    case Local(i, move) => i == id && (move.Leave? || move.EndSuperseded? || Supersedes(o, e, id))
    case _ => false
  }

  /** Its context is cancelled: by its closing, or with everybody's. */
  predicate Cancels(o: Owners, e: Event, id: nat) {
    (e.CancelAll? && id in o.actors) || (e.EndAll? && !o.ended && id in o.actors) || (Closes(o, e, id) && !o.actors[id].r.closed)
  }

  /** A dial succeeds while it is open. */
  predicate Dials(o: Owners, e: Event, id: nat) {
    e == Local(id, DialOk) && id in o.actors && o.actors[id].loop.Dialing? && !o.actors[id].r.closed
  }

  /** The connection is given up: it was lost or its hello failed, or the resident ends. */
  predicate Drops(o: Owners, e: Event, id: nat) {
    id in o.actors &&
    match e
    case Close(thread) => Mine(o, thread, id)
    case EndAll => !o.ended && Mine(o, o.actors[id].thread, id)
    case Local(i, move) =>
      i == id && CanMove(o.actors[id], move) &&
      (|| (move.LoseConnection? && o.actors[id].r.connection == o.actors[id].loop.link)
       || (move.HelloFailed? && o.actors[id].r.connection == Some(o.actors[id].loop.conn))
       || (move.Leave? && !o.actors[id].r.closed) || move.EndSuperseded?)
    case _ => false
  }

  lemma MovedEnds(a: Actor, m: Move, conn: nat)
    requires CanMove(a, m) && !m.FinishChecking? && a.ending <= a.handlers && (a.ending > 0 ==> a.r.closed)
    ensures var supersedes := m.Arrive? && m.superseded && a.r.connection == Some(m.source) && !a.r.closed;
            && (Moved(a, m, conn).r.closed <==> a.r.closed || m.Leave? || m.EndSuperseded? || supersedes)
            && (Moved(a, m, conn).r.cancelled <==> a.r.cancelled || (!a.r.closed && (m.Leave? || m.EndSuperseded? || supersedes)))
  {
    forall c: nat ensures Adopt(a.r, c).0.closed == a.r.closed && Adopt(a.r, c).0.cancelled == a.r.cancelled
      ensures Admit(a.r, c).closed == a.r.closed && Admit(a.r, c).cancelled == a.r.cancelled
      ensures ClearConnection(a.r, c).closed == a.r.closed && ClearConnection(a.r, c).cancelled == a.r.cancelled
    {
      EndsKept(a.r, c);
    }
    hide Adopt, Admit, ClearConnection;
  }

  /** The sections that end nothing. */
  lemma EndsKept(r: Resident, c: nat)
    ensures Adopt(r, c).0.closed == r.closed && Adopt(r, c).0.cancelled == r.cancelled
    ensures Admit(r, c).closed == r.closed && Admit(r, c).cancelled == r.cancelled
    ensures ClearConnection(r, c).closed == r.closed && ClearConnection(r, c).cancelled == r.cancelled
  {
  }

  lemma MovedConnection(a: Actor, m: Move, conn: nat)
    requires CanMove(a, m) && !m.FinishChecking?
    ensures Moved(a, m, conn).r.connection ==
            if m.DialOk? && !a.r.closed then Some(conn)
            else if (m.LoseConnection? && a.r.connection == a.loop.link) || (m.HelloFailed? && a.r.connection == Some(a.loop.conn))
                    || (m.Leave? && !a.r.closed) || m.EndSuperseded? then None
            else a.r.connection
  {
  }

  lemma QuietEnds(o: Owners, a: Actor, id: nat)
    ensures Started(a).r.closed == a.r.closed && Started(a).r.cancelled == a.r.cancelled && Started(a).r.connection == a.r.connection
    ensures Ended(o, a, id).r.cancelled && (Ended(o, a, id).r.closed <==> a.r.closed || Mine(o, a.thread, id))
    ensures Ended(o, a, id).r.connection == if Mine(o, a.thread, id) then None else a.r.connection
  {
  }

  lemma CheckedEnds(a: Actor, valid: bool, stillReady: bool)
    requires a.check.Some?
    ensures var r := Checked(a, valid, stillReady).r;
            r.closed == a.r.closed && r.cancelled == a.r.cancelled && r.connection == a.r.connection
  {
  }

  lemma RetireEnds(r: Resident)
    ensures Retire(r, true).closed && Retire(r, true).connection.None? && (Retire(r, true).cancelled <==> r.cancelled || !r.closed)
  {
  }

  /** What one event does to the end of a resident and to its connection. */
  lemma StepEnds(o: Owners, e: Event, id: nat)
    requires Can(o, e) && id in o.actors && Terminal(o.actors[id])
    ensures id in Next(o, e).actors
    ensures var r, r' := o.actors[id].r, Next(o, e).actors[id].r;
            && (r'.closed <==> r.closed || Closes(o, e, id))
            && (r'.cancelled <==> r.cancelled || Cancels(o, e, id))
            && r'.connection == if Dials(o, e, id) then Some(o.dialed + 1) else if Drops(o, e, id) then None else r.connection
  {
    hide Next, Moved, Checked, Started, Ended, Retire;
    ActedIs(o, e, id);
    var a := o.actors[id];
    QuietEnds(o, a.(r := Withdraw(a.r)), id);
    QuietEnds(o, a, id);
    RetireEnds(a.r);
    if e.Local? && e.id == id {
      if e.move.FinishChecking? { CheckedEnds(a, e.move.valid, Ready(o, a.thread) && !o.ended); }
      else { MovedEnds(a, e.move, o.dialed + 1); MovedConnection(a, e.move, o.dialed + 1); }
    }
    hide Ready;
  }

  lemma NewEnds(o: Owners, e: Event, id: nat)
    requires Can(o, e) && id !in o.actors && id in Next(o, e).actors
    ensures var r := Next(o, e).actors[id].r; !r.closed && !r.cancelled && r.connection.None?
    ensures !Closes(o, e, id) && !Cancels(o, e, id) && !Dials(o, e, id) && !Drops(o, e, id)
  {
    hide Moved, Checked, CanMove, WorkOf;
  }

  ghost predicate ClosedBy(os: seq<Owners>, es: seq<Event>, i: nat, id: nat)
    requires i <= |es| < |os|
  {
    exists k :: 0 <= k < i && Closes(os[k], es[k], id)
  }

  ghost predicate CancelledBy(os: seq<Owners>, es: seq<Event>, i: nat, id: nat)
    requires i <= |es| < |os|
  {
    exists k :: 0 <= k < i && Cancels(os[k], es[k], id)
  }

  /** The dial that made connection `c`, not given up since. */
  ghost predicate DialedSince(os: seq<Owners>, es: seq<Event>, i: nat, id: nat, c: nat)
    requires i <= |es| < |os|
  {
    exists k :: 0 <= k < i && DialsAs(os[k], es[k], id, c)
                && forall x | k < x < i :: !Dials(os[x], es[x], id) && !Drops(os[x], es[x], id)
  }

  predicate DialsAs(o: Owners, e: Event, id: nat, c: nat) {
    Dials(o, e, id) && o.dialed + 1 == c
  }

  lemma EndsGrow(os: seq<Owners>, es: seq<Event>, i: nat, id: nat)
    requires i < |es| < |os|
    ensures ClosedBy(os, es, i + 1, id) <==> ClosedBy(os, es, i, id) || Closes(os[i], es[i], id)
    ensures CancelledBy(os, es, i + 1, id) <==> CancelledBy(os, es, i, id) || Cancels(os[i], es[i], id)
  {
    hide Closes, Cancels;
  }

  lemma DialedGrows(os: seq<Owners>, es: seq<Event>, i: nat, id: nat, c: nat)
    requires i < |es| < |os|
    ensures DialedSince(os, es, i + 1, id, c) <==>
              if Dials(os[i], es[i], id) then os[i].dialed + 1 == c else DialedSince(os, es, i, id, c) && !Drops(os[i], es[i], id)
  {
    assert DialsAs(os[i], es[i], id, c) <==> Dials(os[i], es[i], id) && os[i].dialed + 1 == c;
    assert Dials(os[i], es[i], id) ==> forall k: nat | k < i && DialsAs(os[k], es[k], id, c) :: k < i < i + 1;
    hide Dials, Drops, DialsAs;
  }

  ghost predicate EndsOk(os: seq<Owners>, es: seq<Event>, i: nat, id: nat)
    requires i <= |es| < |os|
  {
    if id in os[i].actors then
      var r := os[i].actors[id].r;
      && (r.closed <==> ClosedBy(os, es, i, id))
      && (r.cancelled <==> CancelledBy(os, es, i, id))
      && forall c: nat :: r.connection == Some(c) <==> DialedSince(os, es, i, id, c)
    else !ClosedBy(os, es, i, id) && !CancelledBy(os, es, i, id) && forall c: nat :: !DialedSince(os, es, i, id, c)
  }

  lemma NeverDialed(os: seq<Owners>, es: seq<Event>, i: nat, j: nat, id: nat)
    requires i + 1 == j <= |es| < |os| && !Dials(os[i], es[i], id) && forall c: nat :: !DialedSince(os, es, i, id, c)
    ensures forall c: nat :: !DialedSince(os, es, j, id, c)
  {
    hide DialedSince, Dials, Drops;
    forall c: nat ensures !DialedSince(os, es, j, id, c) { DialedGrows(os, es, i, id, c); }
  }

  lemma EndsStill(os: seq<Owners>, es: seq<Event>, i: nat, id: nat)
    requires Run(os, es) && i < |es| < |os| && EndsOk(os, es, i, id)
    ensures EndsOk(os, es, i + 1, id)
  {
    hide Run, Next, Can, Closes, Cancels, Dials, Drops, ClosedBy, CancelledBy, DialedSince;
    RunStep(os, es, i);
    EndsGrow(os, es, i, id);
    var j := i + 1;
    forall c: nat
      ensures DialedSince(os, es, j, id, c) <==>
                if Dials(os[i], es[i], id) then os[i].dialed + 1 == c else DialedSince(os, es, i, id, c) && !Drops(os[i], es[i], id)
    {
      DialedGrows(os, es, i, id, c);
    }
    if id in os[i].actors {
      RunTerminal(os, es, i, id);
      hide Terminal;
      StepEnds(os[i], es[i], id);
    } else if id in os[i + 1].actors {
      NewEnds(os[i], es[i], id);
      NeverDialed(os, es, i, j, id);
    } else {
      AbsentEnds(os[i], es[i], id);
      NeverDialed(os, es, i, j, id);
    }
  }

  lemma RunTerminal(os: seq<Owners>, es: seq<Event>, i: nat, id: nat)
    requires Run(os, es) && i < |os| && id in os[i].actors
    ensures Terminal(os[i].actors[id])
  {
    RunOk(os, es, i);
    ActorPlaced(os[i], id);
    hide Run, OwnersOk, Linked, Current, Published, Awake;
  }

  lemma AbsentEnds(o: Owners, e: Event, id: nat)
    requires id !in o.actors
    ensures !Closes(o, e, id) && !Cancels(o, e, id) && !Dials(o, e, id) && !Drops(o, e, id)
  {
    hide CanMove;
  }

  lemma {:induction false} RunEnds(os: seq<Owners>, es: seq<Event>, i: nat, id: nat)
    requires Run(os, es) && i <= |es| < |os|
    ensures EndsOk(os, es, i, id)
  {
    hide Run, Next, Can;
    RunStart(os, es);
    if i > 0 {
      RunEnds(os, es, i - 1, id);
      EndsStill(os, es, i - 1, id);
    }
  }

  /** In every run a resident is closed exactly when its thread was closed, its owner ended, its publisher
      left or it was superseded; its context is cancelled exactly when that happened or everybody's was;
      and it has a connection exactly when that was dialled while it was open and not given up since. */
  lemma EndsFollowEvents(os: seq<Owners>, es: seq<Event>, i: nat, id: nat, c: nat)
    requires Run(os, es) && i <= |es| && id in os[i].actors
    ensures os[i].actors[id].r.closed <==> ClosedBy(os, es, i, id)
    ensures os[i].actors[id].r.cancelled <==> CancelledBy(os, es, i, id)
    ensures os[i].actors[id].r.connection == Some(c) <==> DialedSince(os, es, i, id, c)
  {
    RunEnds(os, es, i, id);
    hide Run, ClosedBy, CancelledBy, DialedSince;
  }

  // ----- requests ------------------------------------------------------------------------------

  /** A request on the connection of an open resident. */
  predicate Serves(o: Owners, e: Event, id: nat) {
    && id in o.actors && e.Local? && e.id == id && e.move.Arrive? && !e.move.superseded
    && o.actors[id].r.connection == Some(e.move.source) && !o.actors[id].r.closed
  }

  /** One more mark for every request served, and it is the admission at that moment. */
  lemma StepServed(o: Owners, e: Event, id: nat)
    requires Can(o, e) && id in o.actors
    ensures id in Next(o, e).actors
    ensures Next(o, e).actors[id].served ==
            o.actors[id].served + if Serves(o, e, id) then [(e.move.source, o.actors[id].r.admitted)] else []
  {
    ActedIs(o, e, id);
    hide Next;
    if e.Local? && e.id == id && !e.move.FinishChecking? { MovedServed(o.actors[id], e.move, o.dialed + 1); }
    hide Moved;
  }

  lemma MovedServed(a: Actor, m: Move, conn: nat)
    requires CanMove(a, m) && !m.FinishChecking?
    ensures Moved(a, m, conn).served ==
            a.served + if m.Arrive? && !m.superseded && a.r.connection == Some(m.source) && !a.r.closed
                       then [(m.source, a.r.admitted)] else []
  {
  }

  /** The request with this mark was served at step `k`. */
  predicate ServedAt(o: Owners, e: Event, id: nat, mark: (nat, bool)) {
    Serves(o, e, id) && e.move.source == mark.0 && o.actors[id].r.admitted == mark.1
  }

  ghost predicate ServedBy(os: seq<Owners>, es: seq<Event>, i: nat, id: nat, mark: (nat, bool))
    requires i <= |es| < |os|
  {
    exists k :: 0 <= k < i && ServedAt(os[k], es[k], id, mark)
  }

  /** In every run a request is handled as admitted exactly when it came over the connection of a resident
      that was admitted then, and so published under its name on that very connection. */
  lemma {:induction false} ServedAsAdmitted(os: seq<Owners>, es: seq<Event>, i: nat, id: nat, mark: (nat, bool))
    requires Run(os, es) && i <= |es| && id in os[i].actors
    ensures mark in os[i].actors[id].served <==> ServedBy(os, es, i, id, mark)
  {
    hide Run, Next, Can;
    RunStart(os, es);
    if i > 0 {
      if id in os[i - 1].actors {
        ServedAsAdmitted(os, es, i - 1, id, mark);
        ServedStill(os, es, i - 1, id, mark);
      } else {
        ServedFirst(os, es, i - 1, id, mark);
      }
    }
    hide ServedBy;
  }

  lemma ServedStill(os: seq<Owners>, es: seq<Event>, i: nat, id: nat, mark: (nat, bool))
    requires Run(os, es) && i < |es| && id in os[i].actors && id in os[i + 1].actors
    requires mark in os[i].actors[id].served <==> ServedBy(os, es, i, id, mark)
    ensures mark in os[i + 1].actors[id].served <==> ServedBy(os, es, i + 1, id, mark)
  {
    hide Run, Next, Can, ServedBy, ServedAt;
    RunStart(os, es);
    RunStep(os, es, i);
    ServedGrows(os, es, i, id, mark);
    StepMark(os[i], es[i], id, mark);
  }

  lemma ServedFirst(os: seq<Owners>, es: seq<Event>, i: nat, id: nat, mark: (nat, bool))
    requires Run(os, es) && i < |es| && id !in os[i].actors && id in os[i + 1].actors
    ensures mark in os[i + 1].actors[id].served <==> ServedBy(os, es, i + 1, id, mark)
  {
    hide Run, Next, Can, ServedBy, ServedAt;
    RunStart(os, es);
    RunStep(os, es, i);
    ServedGrows(os, es, i, id, mark);
    NotServed(os, es, i, id, mark);
    NewTools(os[i], es[i], id);
    AbsentNotAdmits(os[i], es[i], id);
  }

  lemma StepMark(o: Owners, e: Event, id: nat, mark: (nat, bool))
    requires Can(o, e) && id in o.actors
    ensures id in Next(o, e).actors
    ensures mark in Next(o, e).actors[id].served <==> mark in o.actors[id].served || ServedAt(o, e, id, mark)
  {
    StepServed(o, e, id);
    hide Next, Can, Serves;
  }

  lemma ServedGrows(os: seq<Owners>, es: seq<Event>, i: nat, id: nat, mark: (nat, bool))
    requires i < |es| < |os|
    ensures ServedBy(os, es, i + 1, id, mark) <==> ServedBy(os, es, i, id, mark) || ServedAt(os[i], es[i], id, mark)
  {
    hide ServedAt;
  }

  lemma {:induction false} NotServed(os: seq<Owners>, es: seq<Event>, i: nat, id: nat, mark: (nat, bool))
    requires Run(os, es) && i <= |es| && id !in os[i].actors
    ensures !ServedBy(os, es, i, id, mark)
  {
    hide Run, Next, Can;
    RunStart(os, es);
    if i > 0 {
      hide ServedBy, ServedAt;
      ActorsStay(os, es, i - 1, id);
      NotServed(os, es, i - 1, id, mark);
      ServedGrows(os, es, i - 1, id, mark);
      AbsentNotAdmits(os[i - 1], es[i - 1], id);
    }
  }
}
