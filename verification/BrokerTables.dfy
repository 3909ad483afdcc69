/** What every critical section of the multiplexer keeps: the byte account and the routing tables. */
module BrokerTables {
  import opened Prelude
  import opened BrokerIds
  import opened BrokerMux

  // ----- the byte account ----------------------------------------------------------------------

  ghost function Sizes(q: seq<Packet>): seq<nat> {
    seq(|q|, i requires 0 <= i < |q| => q[i].size)
  }

  ghost function CallCharges(calls: map<Key, Call>): map<Key, nat> {
    map k | k in calls :: calls[k].held
  }

  ghost function ServerCharges(servers: map<Key, ServerCall>): map<Key, nat> {
    map k | k in servers :: servers[k].held
  }

  /** Bytes held by the state itself: queued packets and remembered identifiers. */
  ghost function Charged(m: Mux): int {
    Sum(Sizes(m.nativeOut)) + Sum(Sizes(m.tuiOut)) + Total(CallCharges(m.calls)) + Total(ServerCharges(m.servers))
  }

  /** Bytes reserved but not held by the state; they belong to packets being written, or were
      abandoned by a failure. */
  ghost function Slack(m: Mux): int {
    m.buffered - Charged(m)
  }

  lemma SizesAppend(q: seq<Packet>, p: Packet)
    ensures Sum(Sizes(q + [p])) == Sum(Sizes(q)) + p.size
  {
    assert Sizes(q + [p]) == Sizes(q) + [p.size];
    SumAppend(Sizes(q), p.size);
  }

  lemma SizesPop(q: seq<Packet>)
    requires q != []
    ensures Sum(Sizes(q)) == q[0].size + Sum(Sizes(q[1..]))
  {
    assert Sizes(q)[1..] == Sizes(q[1..]);
  }

  lemma CallInsert(calls: map<Key, Call>, k: Key, v: Call)
    requires k !in calls
    ensures Total(CallCharges(calls[k := v])) == Total(CallCharges(calls)) + v.held
  {
    assert CallCharges(calls[k := v]) == CallCharges(calls)[k := v.held];
    TotalInsert(CallCharges(calls), k, v.held);
  }

  lemma CallDelete(calls: map<Key, Call>, k: Key)
    requires k in calls
    ensures Total(CallCharges(calls)) == Total(CallCharges(calls - {k})) + calls[k].held
  {
    assert CallCharges(calls - {k}) == CallCharges(calls) - {k};
    TotalRemove(CallCharges(calls), k);
  }

  lemma ServerInsert(servers: map<Key, ServerCall>, k: Key, v: ServerCall)
    requires k !in servers
    ensures Total(ServerCharges(servers[k := v])) == Total(ServerCharges(servers)) + v.held
  {
    assert ServerCharges(servers[k := v]) == ServerCharges(servers)[k := v.held];
    TotalInsert(ServerCharges(servers), k, v.held);
  }

  lemma ServerDelete(servers: map<Key, ServerCall>, k: Key)
    requires k in servers
    ensures Total(ServerCharges(servers)) == Total(ServerCharges(servers - {k})) + servers[k].held
  {
    assert ServerCharges(servers - {k}) == ServerCharges(servers) - {k};
    TotalRemove(ServerCharges(servers), k);
  }

  /** The same account before and after, with the ceiling kept. */
  ghost predicate Balanced(m: Mux, m': Mux) {
    && Slack(m') == Slack(m)
    && m'.limit == m.limit
    && (m.buffered <= m.limit ==> m'.buffered <= m'.limit)
  }

  lemma EnqueueBalanced(c: Codec, m: Mux, side: Side, f: Frame)
    ensures Balanced(m, Enqueue(c, m, side, f).0)
  {
    hide Total, CallCharges, ServerCharges, Sizes, Sum;
    var p := Packet(f, c.frameSize(f));
    SizesAppend(m.nativeOut, p);
    SizesAppend(m.tuiOut, p);
  }

  /** Counter values are ahead of every live correlation. */
  ghost predicate Fresh(m: Mux) {
    forall k {:trigger k in m.calls} :: k in m.calls ==> k == WireKey(m.calls[k].serial) && m.calls[k].serial <= m.next
  }

  lemma NextIsFresh(m: Mux)
    requires Fresh(m)
    ensures WireKey(m.next + 1) !in m.calls
  {
    if WireKey(m.next + 1) in m.calls {
      WireKeyInjective(m.next + 1, m.calls[WireKey(m.next + 1)].serial);
    }
  }

  lemma CallEntered(m: Mux, m': Mux, k: Key, v: Call)
    requires k !in m.calls && m'.calls == m.calls[k := v]
    requires m'.servers == m.servers && m'.nativeOut == m.nativeOut && m'.tuiOut == m.tuiOut
    requires m'.buffered == m.buffered + v.held
    ensures Slack(m') == Slack(m)
  {
    CallInsert(m.calls, k, v);
  }

  lemma ServerEntered(m: Mux, m': Mux, k: Key, v: ServerCall)
    requires k !in m.servers && m'.servers == m.servers[k := v]
    requires m'.calls == m.calls && m'.nativeOut == m.nativeOut && m'.tuiOut == m.tuiOut
    requires m'.buffered == m.buffered + v.held
    ensures Slack(m') == Slack(m)
  {
    ServerInsert(m.servers, k, v);
  }

  lemma ServerLeft(m: Mux, m': Mux, k: Key)
    requires k in m.servers && m'.servers == m.servers - {k}
    requires m'.calls == m.calls && m'.nativeOut == m.nativeOut && m'.tuiOut == m.tuiOut
    requires m'.buffered == m.buffered - m.servers[k].held
    ensures Slack(m') == Slack(m)
  {
    ServerDelete(m.servers, k);
  }

  lemma AdmitBalanced(c: Codec, m: Mux, f: Frame, key: Key, verb: string)
    requires "id" in f && WireKey(m.next) !in m.calls
    ensures Balanced(m, Admit(c, m, f, key, verb).0)
  {
    if Fits(m, Held(f["id"], key)) {
      var r := Record(m, f["id"], key, verb);
      CallEntered(m, r, WireKey(m.next), r.calls[WireKey(m.next)]);
      EnqueueBalanced(c, r, Native, f["id" := WireRaw(c, m.next)]);
    }
  }

  lemma TuiResponseBalanced(c: Codec, m: Mux, f: Frame)
    ensures Balanced(m, TuiResponse(c, m, f).0)
  {
    hide Charged;
    if "id" in f && OneOutcome(f) && BrokerId(c, f["id"]).Some? {
      var key := BrokerId(c, f["id"]).value;
      if key in m.servers {
        var m1 := m.(servers := m.servers - {key}, buffered := m.buffered - m.servers[key].held);
        ServerLeft(m, m1, key);
        EnqueueBalanced(c, m1, Native, f["id" := m.servers[key].original]);
      }
    }
  }

  /** A change to the flags alone. */
  lemma FlagsBalanced(m: Mux, m': Mux)
    requires m' == m.(ready := m'.ready, initialized := m'.initialized, initializeSeen := m'.initializeSeen,
                      next := m'.next)
    ensures Balanced(m, m')
  {
  }

  lemma SendBalanced(c: Codec, m: Mux, f: Frame)
    ensures Balanced(m, Send(c, m, f).0)
  {
    EnqueueBalanced(c, m, Native, f);
    hide Balanced, Enqueue;
    FlagsBalanced(Enqueue(c, m, Native, f).0, Send(c, m, f).0);
    BalancedTransitive(m, Enqueue(c, m, Native, f).0, Send(c, m, f).0);
  }

  lemma BalancedTransitive(m: Mux, m1: Mux, m2: Mux)
    requires Balanced(m, m1) && Balanced(m1, m2)
    ensures Balanced(m, m2)
  {
  }

  lemma TuiNoticeBalanced(c: Codec, m: Mux, f: Frame, verb: string)
    ensures Balanced(m, TuiNotice(c, m, f, verb).0)
  {
    hide Balanced, Send;
    var m1 := m.(initialized := true);
    FlagsBalanced(m, m1);
    SendBalanced(c, m, f);
    SendBalanced(c, m1, f);
    BalancedTransitive(m, m1, Send(c, m1, f).0);
    FlagsBalanced(m, m);
  }

  lemma FromTuiBalanced(c: Codec, m: Mux, f: Frame)
    requires Fresh(m)
    ensures Balanced(m, FromTui(c, m, f).0)
  {
    match Method(c, f)
    case None =>
    case Some(verb) =>
      if m.failed {
      } else if verb == "" {
        TuiResponseBalanced(c, m, f);
      } else if "id" !in f {
        TuiNoticeBalanced(c, m, f, verb);
      } else {
        NextIsFresh(m);
        var m1 := Numbered(m, verb);
        if BrokerId(c, f["id"]).Some? {
          AdmitBalanced(c, m1, f, BrokerId(c, f["id"]).value, verb);
          assert Slack(m1) == Slack(m);
        }
      }
  }

  lemma NativeRequestBalanced(c: Codec, m: Mux, f: Frame)
    requires "id" in f
    ensures Balanced(m, NativeRequest(c, m, f).0)
  {
    var (m', a) := NativeRequest(c, m, f);
    if m' != m {
      var key := KeyOf(c, ServerId(c, f["id"]));
      ServerEntered(m, m', key, ServerCall(f["id"], Held(f["id"], key)));
    }
  }

  lemma NativeResolvedBalanced(c: Codec, m: Mux, f: Frame)
    ensures Balanced(m, NativeResolved(c, m, f).0)
  {
    var r := ResolvedId(c, f);
    if r.Some? {
      var key := KeyOf(c, ServerId(c, r.value));
      if key in m.servers { ServerDelete(m.servers, key); }
    }
  }

  lemma NativeResponseBalanced(c: Codec, m: Mux, f: Frame)
    ensures Balanced(m, NativeResponse(c, m, f).0)
  {
    if "id" in f && BrokerId(c, f["id"]).Some? {
      var key := BrokerId(c, f["id"]).value;
      if key in m.calls { CallDelete(m.calls, key); }
    }
  }

  lemma FromNativeBalanced(c: Codec, m: Mux, f: Frame)
    ensures Balanced(m, FromNative(c, m, f).0)
  {
    match Method(c, f)
    case None =>
    case Some(verb) =>
      NativeResponseBalanced(c, m, f);
      NativeResolvedBalanced(c, m, f);
      if "id" in f { NativeRequestBalanced(c, m, f); }
  }

  lemma SubmitBalanced(c: Codec, m: Mux, verb: string, params: Raw)
    requires Fresh(m)
    ensures Balanced(m, Submit(c, m, verb, params).0)
  {
    hide Charged;
    if !m.failed && |m.calls| < RouteLimit {
      NextIsFresh(m);
      var n := m.next + 1;
      var m1 := Open(m, verb);
      CallEntered(m, m1, WireKey(n), Call(n, None, verb, true, 0));
      var f := InternalFrame(c, n, verb, params);
      EnqueueBalanced(c, m1, Native, f);
    }
  }

  lemma CancelBalanced(m: Mux, serial: nat)
    ensures Balanced(m, Cancel(m, serial).0)
  {
    assert CallCharges(Cancel(m, serial).0.calls) == CallCharges(m.calls);
  }

  /** A failure drops the correlations without releasing what they were charged. */
  lemma FailSlack(m: Mux)
    ensures Fail(m).buffered == m.buffered && Fail(m).limit == m.limit
    ensures Slack(Fail(m)) == Slack(m) + if m.failed then 0 else Total(CallCharges(m.calls))
  {
    assert CallCharges(map[]) == map[];
  }

  // ----- the routing tables --------------------------------------------------------------------

  /** The keys of the TUI requests awaiting a response. */
  ghost function TuiKeys(c: Codec, calls: map<Key, Call>): set<Key> {
    set k | k in calls && calls[k].original.Some? :: KeyOf(c, calls[k].original.value)
  }

  /** Every live TUI identifier is decodable, and no two live TUI requests share one. */
  ghost predicate CallIds(c: Codec, calls: map<Key, Call>) {
    && (forall k | k in calls && calls[k].original.Some? :: BrokerId(c, calls[k].original.value).Some? && !calls[k].reply)
    && (forall j, k | j in calls && k in calls && calls[j].original.Some? && calls[k].original.Some? ::
          KeyOf(c, calls[j].original.value) == KeyOf(c, calls[k].original.value) ==> j == k)
  }

  ghost predicate ServerIds(c: Codec, servers: map<Key, ServerCall>) {
    forall k | k in servers ::
      k == ServerKey(c, servers[k].original) && BrokerId(c, servers[k].original).Some?
  }

  ghost predicate Tables(c: Codec, m: Mux) {
    && Fresh(m)
    && CallIds(c, m.calls)
    && ServerIds(c, m.servers)
    && |m.calls| <= RouteLimit && |m.servers| <= RouteLimit
    && (if m.failed then m.calls == map[] else m.tuiIDs == TuiKeys(c, m.calls))
  }

  /** The steps that leave every table alone. */
  ghost predicate SameTables(m: Mux, m': Mux) {
    && m'.calls == m.calls && m'.servers == m.servers && m'.tuiIDs == m.tuiIDs
    && m'.failed == m.failed && m.next <= m'.next
  }

  lemma EnqueueSame(c: Codec, m: Mux, side: Side, f: Frame)
    ensures SameTables(m, Enqueue(c, m, side, f).0)
  {
  }

  lemma SameTablesKept(c: Codec, m: Mux, m': Mux)
    requires Tables(c, m) && SameTables(m, m')
    ensures Tables(c, m')
  {
  }

  lemma CallsGrow(c: Codec, calls: map<Key, Call>, k: Key, v: Call)
    requires CallIds(c, calls) && k !in calls
    requires v.original.Some? ==>
               BrokerId(c, v.original.value).Some? && !v.reply && KeyOf(c, v.original.value) !in TuiKeys(c, calls)
    ensures CallIds(c, calls[k := v])
    ensures v.original.Some? ==> TuiKeys(c, calls[k := v]) == TuiKeys(c, calls) + {KeyOf(c, v.original.value)}
    ensures v.original.None? ==> TuiKeys(c, calls[k := v]) == TuiKeys(c, calls)
  {
    hide KeyOf, BrokerId;
    var calls' := calls[k := v];
    assert forall j | j in calls :: calls'[j] == calls[j];
    assert calls'[k] == v;
  }

  lemma CallsShrink(c: Codec, calls: map<Key, Call>, k: Key)
    requires CallIds(c, calls) && k in calls
    ensures CallIds(c, calls - {k})
    ensures calls[k].original.Some? ==> TuiKeys(c, calls - {k}) == TuiKeys(c, calls) - {KeyOf(c, calls[k].original.value)}
    ensures calls[k].original.None? ==> TuiKeys(c, calls - {k}) == TuiKeys(c, calls)
  {
    hide KeyOf, BrokerId;
    var calls' := calls - {k};
    assert forall j | j in calls' :: calls'[j] == calls[j] && j != k;
  }

  lemma CallsDetach(c: Codec, calls: map<Key, Call>, k: Key)
    requires CallIds(c, calls) && k in calls
    ensures CallIds(c, calls[k := calls[k].(reply := false)])
    ensures TuiKeys(c, calls[k := calls[k].(reply := false)]) == TuiKeys(c, calls)
  {
    hide KeyOf, BrokerId;
    var calls' := calls[k := calls[k].(reply := false)];
    assert calls'.Keys == calls.Keys;
    assert forall j | j in calls :: calls'[j].original == calls[j].original;
  }

  lemma ServersGrow(c: Codec, servers: map<Key, ServerCall>, k: Key, v: ServerCall)
    requires ServerIds(c, servers) && k !in servers
    requires k == ServerKey(c, v.original) && BrokerId(c, v.original).Some?
    ensures ServerIds(c, servers[k := v])
  {
    hide ServerKey, BrokerId;
  }

  lemma ServersShrink(c: Codec, servers: map<Key, ServerCall>, k: Key)
    requires ServerIds(c, servers)
    ensures ServerIds(c, servers - {k}) && |servers - {k}| <= |servers|
  {
    hide ServerKey, BrokerId;
    var servers' := servers - {k};
    assert servers'.Keys == servers.Keys - {k};
  }

  lemma RecordTables(c: Codec, m: Mux, id: Raw, key: Key, verb: string)
    requires Tables(c, m) && !m.failed && |m.calls| < RouteLimit
    requires WireKey(m.next) !in m.calls
    requires BrokerId(c, id) == Some(key) && key !in m.tuiIDs
    ensures Tables(c, Record(m, id, key, verb))
  {
    hide WireKey, BrokerId;
    CallsGrow(c, m.calls, WireKey(m.next), Call(m.next, Some(id), verb, false, Held(id, key)));
  }

  lemma SettleTables(c: Codec, m: Mux, key: Key, succeeded: bool)
    requires Tables(c, m) && key in m.calls
    ensures Tables(c, Settle(c, m, key, succeeded))
  {
    hide WireKey, KeyOf, BrokerId;
    CallsShrink(c, m.calls, key);
    assert (m.calls - {key}).Keys == m.calls.Keys - {key};
  }

  lemma ServersTables(c: Codec, m: Mux, m': Mux)
    requires Tables(c, m)
    requires m'.calls == m.calls && m'.tuiIDs == m.tuiIDs && m'.failed == m.failed && m'.next == m.next
    requires ServerIds(c, m'.servers) && |m'.servers| <= RouteLimit
    ensures Tables(c, m')
  {
  }

  lemma FromTuiTables(c: Codec, m: Mux, f: Frame)
    requires Tables(c, m)
    ensures Tables(c, FromTui(c, m, f).0)
  {
    hide Tables, TuiResponse, TuiRequest, TuiNotice;
    if m.failed || Method(c, f).None? {
    } else if Method(c, f).value == "" {
      TuiResponseTables(c, m, f);
    } else if "id" !in f {
      NoticeTables(c, m, f, Method(c, f).value);
    } else {
      TuiRequestTables(c, m, f, Method(c, f).value);
    }
  }

  lemma NoticeTables(c: Codec, m: Mux, f: Frame, verb: string)
    requires Tables(c, m)
    ensures Tables(c, TuiNotice(c, m, f, verb).0)
  {
    EnqueueSame(c, m, Native, f);
    EnqueueSame(c, m.(initialized := true), Native, f);
    hide Tables, Enqueue;
    SameTablesKept(c, m, TuiNotice(c, m, f, verb).0);
  }

  lemma TuiResponseTables(c: Codec, m: Mux, f: Frame)
    requires Tables(c, m)
    ensures Tables(c, TuiResponse(c, m, f).0)
  {
    hide Tables, ServerIds, KeyOf, ServerKey, BrokerId, InMappedNamespace;
    var m' := TuiResponse(c, m, f).0;
    if m' == m {
    } else {
      var key := BrokerId(c, f["id"]).value;
      assert ServerIds(c, m.servers) && |m.servers| <= RouteLimit by { TablesServers(c, m); }
      ServersShrink(c, m.servers, key);
      assert m'.servers == m.servers - {key} && m'.calls == m.calls;
      ServersTables(c, m, m');
    }
  }

  lemma TablesServers(c: Codec, m: Mux)
    requires Tables(c, m)
    ensures ServerIds(c, m.servers) && |m.servers| <= RouteLimit
  {
  }

  lemma TuiRequestTables(c: Codec, m: Mux, f: Frame, verb: string)
    requires Tables(c, m) && !m.failed && "id" in f
    ensures Tables(c, TuiRequest(c, m, f, verb).0)
  {
    var id := BrokerId(c, f["id"]);
    if id.Some? && id.value !in m.tuiIDs && |m.calls| < RouteLimit {
      var m1 := Numbered(m, verb);
      SameTablesKept(c, m, m1);
      NextIsFresh(m);
      AdmitTables(c, m1, f, id.value, verb);
    }
  }

  lemma AdmitTables(c: Codec, m: Mux, f: Frame, key: Key, verb: string)
    requires Tables(c, m) && !m.failed && |m.calls| < RouteLimit && "id" in f
    requires WireKey(m.next) !in m.calls
    requires BrokerId(c, f["id"]) == Some(key) && key !in m.tuiIDs
    ensures Tables(c, Admit(c, m, f, key, verb).0)
  {
    hide Tables, BrokerId, WireKey;
    var r := Record(m, f["id"], key, verb);
    RecordTables(c, m, f["id"], key, verb);
    var f' := f["id" := WireRaw(c, m.next)];
    assert SameTables(r, Send(c, r, f').0);
    SameTablesKept(c, r, Send(c, r, f').0);
  }

  lemma FromNativeTables(c: Codec, m: Mux, f: Frame)
    requires Lawful(c) && Tables(c, m)
    ensures Tables(c, FromNative(c, m, f).0)
  {
    hide Tables, Lawful, BrokerId;
    if Method(c, f) == Some("") {
      NativeResponseTables(c, m, f);
    } else if "id" in f {
      NativeRequestTables(c, m, f);
    } else {
      NativeResolvedTables(c, m, f);
    }
  }

  lemma NativeResponseTables(c: Codec, m: Mux, f: Frame)
    requires Tables(c, m)
    ensures Tables(c, NativeResponse(c, m, f).0)
  {
    hide Tables, BrokerId;
    var m' := NativeResponse(c, m, f).0;
    if m' != m { SettleTables(c, m, BrokerId(c, f["id"]).value, "error" !in f); }
  }

  lemma NativeRequestTables(c: Codec, m: Mux, f: Frame)
    requires Lawful(c) && Tables(c, m) && "id" in f
    ensures Tables(c, NativeRequest(c, m, f).0)
  {
    ServerIdDecodes(c, f["id"]);
    TablesServers(c, m);
    hide Tables, Lawful, BrokerId, ServerKey, ServerId;
    var m' := NativeRequest(c, m, f).0;
    if m' != m {
      var key := KeyOf(c, ServerId(c, f["id"]));
      ServersGrow(c, m.servers, key, ServerCall(f["id"], Held(f["id"], key)));
      ServersTables(c, m, m');
    }
  }

  lemma NativeResolvedTables(c: Codec, m: Mux, f: Frame)
    requires Tables(c, m)
    ensures Tables(c, NativeResolved(c, m, f).0)
  {
    TablesServers(c, m);
    hide Tables, BrokerId, ServerId;
    var m' := NativeResolved(c, m, f).0;
    if m' != m {
      var key := KeyOf(c, ServerId(c, ResolvedId(c, f).value));
      ServersShrink(c, m.servers, key);
      ServersTables(c, m, m');
    }
  }

  lemma SubmitTables(c: Codec, m: Mux, verb: string, params: Raw)
    requires Tables(c, m)
    ensures Tables(c, Submit(c, m, verb, params).0)
  {
    var (m', r) := Submit(c, m, verb, params);
    if !r.Refused? {
      var n := m.next + 1;
      var m1 := Open(m, verb);
      OpenTables(c, m, verb);
      hide Tables, InternalFrame, WireKey, Enqueue;
      EnqueueSame(c, m1, Native, InternalFrame(c, n, verb, params));
      SameTablesKept(c, m1, m');
    }
  }

  lemma OpenTables(c: Codec, m: Mux, verb: string)
    requires Tables(c, m) && !m.failed && |m.calls| < RouteLimit
    ensures Tables(c, Open(m, verb))
  {
    NextIsFresh(m);
    hide WireKey, BrokerId, KeyOf, CallIds, TuiKeys, ServerIds;
    CallsGrow(c, m.calls, WireKey(m.next + 1), Call(m.next + 1, None, verb, true, 0));
  }

  lemma CancelTables(c: Codec, m: Mux, serial: nat)
    requires Tables(c, m)
    ensures Tables(c, Cancel(m, serial).0)
  {
    hide WireKey;
    var key := WireKey(serial);
    if key in m.calls {
      CallsDetach(c, m.calls, key);
      assert m.calls[key := m.calls[key].(reply := false)].Keys == m.calls.Keys;
    }
  }

  /** A duplicate TUI identifier is refused exactly when a live request decodes to the same value. */
  lemma DuplicateIsSameMeaning(c: Codec, m: Mux, id: Raw)
    requires Tables(c, m) && !m.failed && BrokerId(c, id).Some?
    ensures BrokerId(c, id).value in m.tuiIDs <==>
            exists k :: k in m.calls && m.calls[k].original.Some? && Decode(c, m.calls[k].original.value) == Decode(c, id)
  {
    forall k | k in m.calls && m.calls[k].original.Some?
      ensures KeyOf(c, m.calls[k].original.value) == BrokerId(c, id).value <==>
              Decode(c, m.calls[k].original.value) == Decode(c, id)
    {
      KeyIsMeaning(c, m.calls[k].original.value, id);
    }
  }
}
