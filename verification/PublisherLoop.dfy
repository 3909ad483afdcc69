/** The publisher loop gets where it should: what its own moves lead to, from every state of a resident, as
    long as nothing else intervenes. */
module PublisherLoop {
  import opened Prelude
  import opened Publisher
  import opened PublisherRun

  /** The resident after a sequence of its own moves, if each is possible when its turn comes. */
  function After(a: Actor, ms: seq<Move>, conn: nat): Option<Actor>
    decreases |ms|
  {
    if ms == [] then Some(a)
    else if ms[0].FinishChecking? || !CanMove(a, ms[0]) then None
    else After(Moved(a, ms[0], conn), ms[1..], conn)
  }

  lemma {:induction false} AfterBoth(a: Actor, ms: seq<Move>, ns: seq<Move>, conn: nat)
    requires After(a, ms, conn).Some?
    ensures After(a, ms + ns, conn) == After(After(a, ms, conn).value, ns, conn)
    decreases |ms|
  {
    hide Moved, CanMove;
    if ms == [] {
      assert ms + ns == ns;
    } else {
      assert (ms + ns)[1..] == ms[1..] + ns && (ms + ns)[0] == ms[0];
      AfterBoth(Moved(a, ms[0], conn), ms[1..], ns, conn);
    }
  }

  lemma AfterOne(a: Actor, m: Move, conn: nat)
    requires !m.FinishChecking? && CanMove(a, m)
    ensures After(a, [m], conn) == Some(Moved(a, m, conn))
  {
    assert [m][1..] == [];
    hide Moved, CanMove;
  }

  lemma AfterTwo(a: Actor, m: Move, n: Move, conn: nat)
    requires !m.FinishChecking? && CanMove(a, m) && !n.FinishChecking? && CanMove(Moved(a, m, conn), n)
    ensures After(a, [m, n], conn) == Some(Moved(Moved(a, m, conn), n, conn))
  {
    hide Moved, CanMove;
    assert [m, n][1..] == [n];
    AfterOne(Moved(a, m, conn), n, conn);
  }

  // ----- publishing ----------------------------------------------------------------------------

  /** Drains the wake channel, if it holds anything. */
  function Drains(a: Actor): seq<Move> {
    if a.r.changed then [Drain] else []
  }

  const Greeting: seq<Move> := [Read, Read, Accepted, HelloOk, Compare]

  lemma HelloSent(a: Actor, conn: nat)
    requires a.loop.Draining? && !a.r.changed && Needs(a.r)
    ensures After(a, [Read, Read], conn) == Some(a.(loop := Hello(a.loop.conn, a.r.identity, a.r.generation, false)))
  {
    AfterTwo(a, Read, Read, conn);
  }

  lemma HelloTaken(a: Actor, conn: nat)
    requires a.loop.Hello? && !a.loop.observed && a.loop.began == a.r.generation && a.r.tools && !a.r.closed
    ensures After(a, [Accepted, HelloOk, Compare], conn) ==
            Some(a.(r := a.r.(admitted := true), loop := Parked(Some(a.loop.conn)), accepted := Some((a.loop.conn, a.loop.identity))))
  {
    var b := Moved(a, Accepted, conn);
    AfterTwo(b, HelloOk, Compare, conn);
    assert [Accepted, HelloOk, Compare][1..] == [HelloOk, Compare];
  }

  /** From a drained channel: the hello carries the identity, native accepts it, and the loop sleeps. */
  lemma Greets(a: Actor, conn: nat)
    requires a.loop.Draining? && !a.r.changed && Needs(a.r) && !a.r.closed
    ensures After(a, Greeting, conn) ==
            Some(a.(r := a.r.(admitted := true), loop := Parked(Some(a.loop.conn)), accepted := Some((a.loop.conn, a.r.identity))))
  {
    HelloSent(a, conn);
    var b := a.(loop := Hello(a.loop.conn, a.r.identity, a.r.generation, false));
    HelloTaken(b, conn);
    AfterBoth(a, [Read, Read], [Accepted, HelloOk, Compare], conn);
    assert [Read, Read] + [Accepted, HelloOk, Compare] == Greeting;
    hide After;
  }

  lemma DrainsAndGreets(a: Actor, conn: nat)
    requires a.loop.Draining? && Needs(a.r) && !a.r.closed
    ensures After(a, Drains(a) + Greeting, conn) ==
            Some(a.(r := a.r.(admitted := true, changed := false), loop := Parked(Some(a.loop.conn)),
                    accepted := Some((a.loop.conn, a.r.identity))))
  {
    if a.r.changed {
      AfterOne(a, Drain, conn);
      var b := Moved(a, Drain, conn);
      assert b == a.(r := a.r.(changed := false));
      Greets(b, conn);
      AfterBoth(a, [Drain], Greeting, conn);
    } else {
      Greets(a, conn);
      assert [] + Greeting == Greeting;
      assert a.r.(changed := false) == a.r;
    }
    hide After, Moved;
  }

  /** A resident with an unmet need and no connection dials, says hello with its identity, is admitted when
      native accepts, and sleeps on the new connection. */
  lemma Publishes(a: Actor, conn: nat)
    requires a.loop == Top(None) && Needs(a.r) && !a.r.closed
    ensures After(a, [Look, DialOk] + (Drains(a) + Greeting), conn) ==
            Some(a.(r := a.r.(admitted := true, changed := false, connection := Some(conn)), loop := Parked(Some(conn)),
                    accepted := Some((conn, a.r.identity))))
  {
    AfterTwo(a, Look, DialOk, conn);
    var b := a.(r := a.r.(connection := Some(conn)), loop := Draining(conn));
    assert Moved(Moved(a, Look, conn), DialOk, conn) == b;
    DrainsAndGreets(b, conn);
    AfterBoth(a, [Look, DialOk], Drains(a) + Greeting, conn);
    hide After, Moved;
  }

  /** One that still has its connection says hello on that. */
  lemma Republishes(a: Actor, conn: nat)
    requires a.loop.Top? && a.loop.link.Some? && Needs(a.r) && !a.r.closed
    ensures After(a, [Look] + (Drains(a) + Greeting), conn) ==
            Some(a.(r := a.r.(admitted := true, changed := false), loop := Parked(a.loop.link),
                    accepted := Some((a.loop.link.value, a.r.identity))))
  {
    AfterOne(a, Look, conn);
    var b := a.(loop := Draining(a.loop.link.value));
    assert Moved(a, Look, conn) == b;
    DrainsAndGreets(b, conn);
    AfterBoth(a, [Look], Drains(a) + Greeting, conn);
    hide After, Moved;
  }

  /** One without a need goes to sleep; one that finds its need met in time goes back to look; and a hello
      overtaken by a rename is followed by another look. */
  lemma LooksAgain(a: Actor, conn: nat)
    ensures a.loop.Top? && !Needs(a.r) ==> After(a, [Look], conn) == Some(a.(loop := Parked(a.loop.link)))
    ensures a.loop.Reading? && !Needs(a.r) ==> After(a, [Read], conn) == Some(a.(loop := Top(Some(a.loop.conn))))
    ensures a.loop.Comparing? && a.loop.began != a.r.generation ==> After(a, [Compare], conn) == Some(a.(loop := Top(Some(a.loop.conn))))
    ensures a.loop.Parked? && a.r.changed ==>
              After(a, [TakeWake], conn) == Some(a.(r := a.r.(changed := false), loop := Top(a.loop.link)))
  {
    if a.loop.Top? { AfterOne(a, Look, conn); }
    if a.loop.Reading? { AfterOne(a, Read, conn); }
    if a.loop.Comparing? { AfterOne(a, Compare, conn); }
    if a.loop.Parked? && a.r.changed { AfterOne(a, TakeWake, conn); }
    hide After;
  }

  // ----- failing and ending --------------------------------------------------------------------

  /** After a failed dial, a hello that failed for a passing reason, or a lost connection, the loop waits and
      starts afresh, without the connection and without its admission. */
  lemma StartsAfresh(a: Actor, conn: nat)
    ensures a.loop.Dialing? ==> After(a, [DialFailed, Retry], conn) == Some(a.(loop := Top(None)))
    ensures a.loop.Hello? && a.r.connection == Some(a.loop.conn) ==>
              After(a, [HelloFailed(false), Retry], conn) == Some(a.(r := a.r.(connection := None, admitted := false), loop := Top(None)))
    ensures a.loop.Parked? && a.loop.link.Some? && a.r.connection == a.loop.link ==>
              After(a, [LoseConnection, Retry], conn) == Some(a.(r := a.r.(connection := None, admitted := false), loop := Top(None)))
  {
    if a.loop.Dialing? { AfterTwo(a, DialFailed, Retry, conn); }
    if a.loop.Hello? { AfterTwo(a, HelloFailed(false), Retry, conn); }
    if a.loop.Parked? && a.loop.link.Some? { AfterTwo(a, LoseConnection, Retry, conn); }
    hide After;
  }

  /** What was counted is counted off: a wake that was owed is sent and no longer owed, a handler that ends is
      gone, and a supersession is one handler more until it has retired the resident. */
  lemma CountsOff(a: Actor, conn: nat, source: nat)
    ensures a.waking > 0 ==> Moved(a, WakeChecked, conn) == a.(r := a.r.(changed := true), waking := a.waking - 1)
    ensures a.renaming > 0 ==> Moved(a, WakeRenamed, conn) == a.(r := a.r.(changed := true), renaming := a.renaming - 1)
    ensures a.handlers > a.ending ==> Moved(a, HandlerDone, conn) == a.(handlers := a.handlers - 1)
    ensures a.ending > 0 ==>
              var b := Moved(a, EndSuperseded, conn);
              b.ending == a.ending - 1 && b.handlers == a.handlers && b.r.closed && b.r.connection.None?
    ensures a.r.connection == Some(source) && !a.r.closed ==>
              var b := Moved(a, Arrive(source, true), conn);
              b.ending == a.ending + 1 && b.handlers == a.handlers + 1 && b.r.closed && b.r.cancelled
  {
  }

  /** A sleeping or waiting loop whose context is cancelled leaves, a hello that native calls invalid makes it
      leave, and so does a dial that finds the resident closed; then it retires and, its handlers done, ends. */
  lemma LeavesForGood(a: Actor, conn: nat)
    ensures a.loop.Parked? && a.r.cancelled ==> After(a, [SeeCancel], conn) == Some(a.(loop := Retiring))
    ensures a.loop.Backoff? && a.r.cancelled ==> After(a, [GiveUp], conn) == Some(a.(loop := Retiring))
    ensures a.loop.Hello? ==> After(a, [HelloFailed(true)], conn).Some? && After(a, [HelloFailed(true)], conn).value.loop.Retiring?
    ensures a.loop.Dialing? && a.r.closed ==> After(a, [DialOk], conn) == Some(a.(loop := Retiring))
    ensures a.loop.Retiring? && a.handlers == 0 ==>
              After(a, [Leave, Join], conn).Some?
              && After(a, [Leave, Join], conn).value.loop.Done? && After(a, [Leave, Join], conn).value.r.closed
  {
    if a.loop.Parked? && a.r.cancelled { AfterOne(a, SeeCancel, conn); }
    if a.loop.Backoff? && a.r.cancelled { AfterOne(a, GiveUp, conn); }
    if a.loop.Hello? { AfterOne(a, HelloFailed(true), conn); }
    if a.loop.Dialing? { AfterOne(a, DialOk, conn); }
    if a.loop.Retiring? && a.handlers == 0 { AfterTwo(a, Leave, Join, conn); }
    hide After;
  }
}
