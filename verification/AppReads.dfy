/** The reader of the native client, in every run: which frames it stops on, what it does with the others,
    and the notifications it hands on. */
module AppReads {
  import opened Prelude
  import opened BrokerIds
  import opened AppClient
  import opened AppRun

  // ----- frames --------------------------------------------------------------------------------

  predicate IsRequest(f: Incoming) {
    f.verb != "" && f.id != ""
  }

  predicate IsResolution(f: Incoming) {
    f.verb == "serverRequest/resolved" && f.id == ""
  }

  /** Any other frame with a method. */
  predicate IsNotice(f: Incoming) {
    f.verb != "" && f.id == "" && f.verb != "serverRequest/resolved"
  }

  predicate IsResponse(f: Incoming) {
    f.verb == ""
  }

  /** The request cannot be served: its identifier is neither text nor number, or 256 requests are being
      served, or one with the same identifier is. */
  predicate BadRequest(j: Json, c: Client, f: Incoming) {
    IsRequest(f) &&
    (RequestMeaning(j, f.id) == NotAnId || |c.serving| >= 256
     || (RequestKey(j, f.id).Some? && RequestKey(j, f.id).value in c.serving))
  }

  /** The resolution does not decode, names no thread, or names no identifier. */
  predicate BadResolution(j: Json, f: Incoming) {
    IsResolution(f) &&
    (j.resolution(f.params).None? || j.resolution(f.params).value.0 == ""
     || RequestMeaning(j, j.resolution(f.params).value.1) == NotAnId)
  }

  /** The response has no positive identifier, has both or neither of result and error, or answers no call
      that is open or being drained. */
  predicate BadResponse(j: Json, c: Client, f: Incoming) {
    IsResponse(f) &&
    (j.number(f.id).None? || j.number(f.id).value < 1
     || (f.refused && f.result != "") || (!f.refused && f.result == "")
     || j.number(f.id).value !in c.pending)
  }

  /** The seven reasons to stop. */
  predicate Bad(j: Json, c: Client, f: Incoming) {
    BadRequest(j, c, f) || BadResolution(j, f) || BadResponse(j, c, f)
  }

  // ----- one frame -----------------------------------------------------------------------------

  /** The reader stops on a frame exactly for one of the seven reasons. Otherwise it starts a handler for a
      request, settles the answer to a call that is waited for, drops the answer to one that was given up,
      hands a notification on, and listens again. */
  lemma FrameHandled(j: Json, w: World, f: Incoming)
    requires w.reader.Listening?
    ensures var w' := Next(j, w, Arrive(f));
            && w'.incoming == w.incoming + [f]
            && (w'.reader.Faulting? <==> Bad(j, w.client, f))
            && (!Bad(j, w.client, f) ==>
                  w'.reader == if IsResponse(f) && w.client.pending[j.number(f.id).value].Live?
                               then Settling(j.number(f.id).value, w.client.pending[j.number(f.id).value].observes)
                               else Listening)
            && (IsResponse(f) && !Bad(j, w.client, f) ==> w'.client.pending == w.client.pending - {j.number(f.id).value})
            && (IsRequest(f) && !Bad(j, w.client, f) ==>
                  && w'.running == w.running[|w.incoming| := RequestKey(j, f.id).value]
                  && w'.client.serving == w.client.serving[RequestKey(j, f.id).value := Work(j.threadId(f.params), false)])
            && w'.notified == w.notified + (if IsNotice(f) then [|w.incoming|] else [])
  {
    hide RequestKey;
    assert forall raw :: RequestKey(j, raw).None? <==> RequestMeaning(j, raw) == NotAnId by { MeaningOfKey(j); }
    hide RequestMeaning;
    if IsResponse(f) { RespondExact(j, w.client, f); }
    hide Respond;
  }

  lemma MeaningOfKey(j: Json)
    ensures forall raw :: RequestKey(j, raw).None? <==> RequestMeaning(j, raw) == NotAnId
  {
  }

  lemma RespondExact(j: Json, c: Client, f: Incoming)
    requires IsResponse(f)
    ensures var (c', v) := Respond(j, c, f);
            && (v.Fault? <==> BadResponse(j, c, f))
            && (v.Fault? ==> c' == c)
            && (!v.Fault? ==>
                  var id := j.number(f.id).value;
                  && id in c.pending && c' == c.(pending := c.pending - {id})
                  && v == match c.pending[id] case Drained => Discard(id) case Live(observes) => Claimed(id, observes))
  {
  }

  // ----- runs ----------------------------------------------------------------------------------

  /** The step is the arrival of a frame the reader has to stop on, the last one read. */
  predicate StopsOn(j: Json, w: World, a: Action, incoming: seq<Incoming>) {
    a.Arrive? && w.reader.Listening? && Bad(j, w.client, a.f) && incoming == w.incoming + [a.f]
  }

  ghost predicate Stopping(j: Json, ws: seq<World>, acts: seq<Action>, i: nat)
    requires i <= |acts| < |ws|
  {
    exists k :: 0 <= k < i && StopsOn(j, ws[k], acts[k], ws[i].incoming)
  }

  lemma OtherReads(j: Json, w: World, a: Action)
    requires Enabled(w, a) && !a.Arrive?
    ensures var w' := Next(j, w, a);
            && w'.incoming == w.incoming && w'.notified == w.notified
            && (w'.reader.Faulting? ==> w.reader.Faulting?)
  {
    hide Mark, Fail, Orphans, Register, Cancel, Remove, End;
  }

  /** The reader stops only on a frame it has to stop on: the last one it read. */
  lemma {:induction false} FaultsAreEarned(j: Json, ws: seq<World>, acts: seq<Action>, i: nat)
    requires Run(j, ws, acts) && i <= |acts| && ws[i].reader.Faulting?
    ensures Stopping(j, ws, acts, i)
  {
    if i > 0 {
      var w, a := ws[i - 1], acts[i - 1];
      assert Enabled(w, a) && ws[i] == Next(j, w, a);
      if a.Arrive? {
        FrameHandled(j, w, a.f);
        hide Run, Next, Bad;
        assert StopsOn(j, w, a, ws[i].incoming);
      } else {
        OtherReads(j, w, a);
        FaultsAreEarned(j, ws, acts, i - 1);
        hide Run, Next, Enabled, StopsOn;
        var k :| 0 <= k < i - 1 && StopsOn(j, ws[k], acts[k], ws[i - 1].incoming);
        assert StopsOn(j, ws[k], acts[k], ws[i].incoming);
      }
    }
  }

  /** The notifications among the frames read, by index. */
  ghost predicate Listed(incoming: seq<Incoming>, notified: seq<nat>) {
    && (forall a, b | 0 <= a < b < |notified| :: notified[a] < notified[b])
    && (forall k: nat :: k in notified <==> k < |incoming| && IsNotice(incoming[k]))
  }

  lemma ListedGrows(incoming: seq<Incoming>, notified: seq<nat>, f: Incoming)
    requires Listed(incoming, notified)
    ensures Listed(incoming + [f], notified + if IsNotice(f) then [|incoming|] else [])
  {
    var n := notified + if IsNotice(f) then [|incoming|] else [];
    forall a, b | 0 <= a < b < |n| ensures n[a] < n[b] {
      assert n[a] in notified;
    }
    forall k: nat ensures k in n <==> k < |incoming| + 1 && IsNotice((incoming + [f])[k]) {
      if k < |incoming| { assert (incoming + [f])[k] == incoming[k]; }
    }
    hide IsNotice;
  }

  /** Every notification read is handed on, once and in reading order, and nothing else is. */
  lemma {:induction false} NotificationsInOrder(j: Json, ws: seq<World>, acts: seq<Action>, i: nat)
    requires Run(j, ws, acts) && i <= |acts|
    ensures Listed(ws[i].incoming, ws[i].notified)
  {
    if i > 0 {
      NotificationsInOrder(j, ws, acts, i - 1);
      var w, a := ws[i - 1], acts[i - 1];
      assert Enabled(w, a) && ws[i] == Next(j, w, a);
      if a.Arrive? {
        FrameHandled(j, w, a.f);
        ListedGrows(w.incoming, w.notified, a.f);
      } else {
        OtherReads(j, w, a);
      }
      hide Run, Next, Enabled, Listed, Bad;
    }
  }

  /** What native may say without being cut off, in any run: the answer, with exactly one of result and
      error, to a call whose frame was started and that has not been answered yet, given up or not, as
      long as the client has not failed; a well-formed resolution, whether or not it matches a request;
      and a request with an identifier of its own below the limit. */
  lemma ListensOn(j: Json, ws: seq<World>, acts: seq<Action>, i: nat, f: Incoming, id: nat)
    requires Run(j, ws, acts) && i < |ws| && ws[i].reader.Listening? && !ws[i].client.failed
    requires || (&& IsResponse(f) && j.number(f.id) == Some(id) && id >= 1 && f.refused == (f.result == "")
                 && Sent(ws[i], id) && id !in ws[i].answered)
             || (IsResolution(f) && !BadResolution(j, f))
             || (IsRequest(f) && !BadRequest(j, ws[i].client, f))
             || IsNotice(f)
    ensures !Next(j, ws[i], Arrive(f)).reader.Faulting?
  {
    FrameHandled(j, ws[i], f);
    RunSound(j, ws, acts, i);
    hide Run, Next, BadResolution, BadRequest, CallersOk, WireOk, RequestsOk, WritesOk, CallersHaveSlot, HolderOk;
    if IsResponse(f) && Sent(ws[i], id) {
      var k :| 0 <= k < |ws[i].wire| && ws[i].wire[k].who == ByCaller(id);
      assert id in ws[i].callers;
    }
  }
}
