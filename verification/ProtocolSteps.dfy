/** Every action keeps every call in its one place. */
module ProtocolSteps {
  import opened Keys
  import opened RedisStore
  import opened Protocol
  import opened ProtocolPlaces

  /** Both worlds hold the same lists, and lost the same messages. */
  ghost predicate SameLists(s: World, s': World) {
    && (forall u: string :: CallItems(s', u) == CallItems(s, u))
    && (forall c: Uuid :: ResItems(s', c) == ResItems(s, c))
    && s'.lost == s.lost
  }

  /** Only the history of m went on, and not in what places it. */
  ghost predicate SameButFor(s: World, s': World, m: Uuid) {
    && s'.calls.Keys == s.calls.Keys
    && (forall n :: n in s.calls && n != m ==> s'.calls[n] == s.calls[n])
    && (m in s.calls ==>
          && s'.calls[m].accepted == s.calls[m].accepted
          && s'.calls[m].conn == s.calls[m].conn
          && s'.calls[m].uri == s.calls[m].uri)
  }

  lemma ListsHomed(s: World, s': World, m: Uuid)
    requires Homed(s) && SameLists(s, s') && SameButFor(s, s', m) && NotQueued(s, m)
    ensures forall u: string, i :: 0 <= i < |CallItems(s', u)| ==>
              Known(s', CallItems(s', u)[i], 0) && CallItems(s', u)[i].uri == u
    ensures forall c: Uuid, i :: 0 <= i < |ResItems(s', c)| ==>
              Known(s', ResItems(s', c)[i], 2) && ResItems(s', c)[i].conn == c
  {
    forall u: string, i | 0 <= i < |CallItems(s', u)|
      ensures Known(s', CallItems(s', u)[i], 0) && CallItems(s', u)[i].uri == u
    {
      assert CallItems(s', u)[i] == CallItems(s, u)[i];
    }
    forall c: Uuid, i | 0 <= i < |ResItems(s', c)|
      ensures Known(s', ResItems(s', c)[i], 2) && ResItems(s', c)[i].conn == c
    {
      assert ResItems(s', c)[i] == ResItems(s, c)[i];
    }
  }

  lemma SamePlacesOf(s: World, s': World, n: Uuid)
    requires n in s.calls && n in s'.calls
    requires s'.calls[n].uri == s.calls[n].uri && s'.calls[n].conn == s.calls[n].conn
    requires SameLists(s, s') && JobCount(s'.jobs, n) == JobCount(s.jobs, n)
    ensures Places(s', n) == Places(s, n)
  {
    assert CallItems(s', s.calls[n].uri) == CallItems(s, s.calls[n].uri);
    assert ResItems(s', s.calls[n].conn) == ResItems(s, s.calls[n].conn);
  }

  lemma SamePlaces(s: World, s': World, m: Uuid)
    requires Conserved(s) && SameLists(s, s') && SameButFor(s, s', m)
    requires forall n :: JobCount(s'.jobs, n) == JobCount(s.jobs, n)
    ensures Conserved(s')
  {
    forall n | n in s'.calls ensures Places(s', n) == if s'.calls[n].accepted then 1 else 0 {
      SamePlacesOf(s, s', n);
    }
  }

  /** A job goes to its next stage. */
  lemma StageCore(s: World, s': World, i: nat, st: Stage)
    requires Core(s) && Typed(s') && i < |s.jobs|
    requires s'.jobs == Staged(s, i, st) && SameLists(s, s') && SameButFor(s, s', s.jobs[i].p.msg)
    requires Known(s', s.jobs[i].p, StageRank(st)) && OnOwnConn(Job(s.jobs[i].p, st))
    ensures Core(s')
  {
    SoleJob(s, i);
    ListsHomed(s, s', s.jobs[i].p.msg);
    forall n ensures JobCount(s'.jobs, n) == JobCount(s.jobs, n) { JobStaged(s, i, st, n); }
    SamePlaces(s, s', s.jobs[i].p.msg);
    JobsHomed(s, s', i, st);
  }

  lemma JobsHomed(s: World, s': World, i: nat, st: Stage)
    requires Homed(s) && i < |s.jobs| && s'.jobs == Staged(s, i, st) && SameButFor(s, s', s.jobs[i].p.msg)
    requires forall j :: 0 <= j < |s.jobs| && j != i ==> s.jobs[j].p.msg != s.jobs[i].p.msg
    requires Known(s', s.jobs[i].p, StageRank(st)) && OnOwnConn(Job(s.jobs[i].p, st))
    ensures forall j :: 0 <= j < |s'.jobs| ==>
              Known(s', s'.jobs[j].p, StageRank(s'.jobs[j].stage)) && OnOwnConn(s'.jobs[j])
  {
    forall j | 0 <= j < |s'.jobs|
      ensures Known(s', s'.jobs[j].p, StageRank(s'.jobs[j].stage)) && OnOwnConn(s'.jobs[j])
    {
      if j != i { assert Known(s, s.jobs[j].p, StageRank(s.jobs[j].stage)) && OnOwnConn(s.jobs[j]); }
    }
  }

  lemma KeyDeleted(s: World, s': World, k: Key)
    requires Typed(s) && s'.db == s.db - {k} && s'.lost == s.lost && !k.CallList? && !k.ResList?
    ensures SameLists(s, s') && Typed(s')
  {
    forall u: string ensures CallItems(s', u) == CallItems(s, u) {}
    forall c: Uuid ensures ResItems(s', c) == ResItems(s, c) {}
  }

  /** The histories are the same, but for the reply to m. */
  ghost predicate SameButForReply(s: World, s': World, m: Uuid) {
    && SameButFor(s, s', m)
    && (m in s.calls ==> s'.calls[m] == s.calls[m].(repliedAt := s'.calls[m].repliedAt))
  }

  lemma KnownStill(s: World, s': World, m: Uuid, p: Payload, r: nat)
    requires SameButForReply(s, s', m) && Known(s, p, r)
    ensures Known(s', p, r)
  {
  }

  lemma StillHomed(s: World, s': World, m: Uuid)
    requires Homed(s) && SameLists(s, s') && SameButForReply(s, s', m) && s'.jobs == s.jobs
    ensures Homed(s')
  {
    forall u: string, i | 0 <= i < |CallItems(s', u)|
      ensures Known(s', CallItems(s', u)[i], 0) && CallItems(s', u)[i].uri == u
    {
      assert CallItems(s', u)[i] == CallItems(s, u)[i];
      KnownStill(s, s', m, CallItems(s, u)[i], 0);
    }
    forall c: Uuid, i | 0 <= i < |ResItems(s', c)|
      ensures Known(s', ResItems(s', c)[i], 2) && ResItems(s', c)[i].conn == c
    {
      assert ResItems(s', c)[i] == ResItems(s, c)[i];
      KnownStill(s, s', m, ResItems(s, c)[i], 2);
    }
    forall i | 0 <= i < |s'.jobs|
      ensures Known(s', s'.jobs[i].p, StageRank(s'.jobs[i].stage)) && OnOwnConn(s'.jobs[i])
    {
      KnownStill(s, s', m, s.jobs[i].p, StageRank(s.jobs[i].stage));
    }
  }

  /** A step that touches no list and no job. */
  lemma StillCore(s: World, s': World, m: Uuid)
    requires Core(s) && Typed(s') && SameLists(s, s') && SameButForReply(s, s', m) && s'.jobs == s.jobs
    ensures Core(s')
  {
    SamePlaces(s, s', m);
    StillHomed(s, s', m);
  }

  lemma ReplyFacts(s: World, conn: Uuid)
    requires Typed(s) && Enabled(s, Reply(conn))
    ensures var s' := SendReply(s, conn);
      && Typed(s') && SameLists(s, s') && s'.jobs == s.jobs
      && SameButForReply(s, s', s.unreplied[conn])
  {
  }

  lemma ReplyCore(s: World, conn: Uuid)
    requires Core(s) && Enabled(s, Reply(conn))
    ensures Core(Apply(s, Reply(conn)))
  {
    ReplyFacts(s, conn);
    StillCore(s, SendReply(s, conn), s.unreplied[conn]);
  }

  lemma TickCore(s: World, dt: nat)
    requires Core(s)
    ensures Core(Apply(s, Tick(dt)))
  {
    var m: Uuid :| true;
    StillCore(s, Apply(s, Tick(dt)), m);
  }

  lemma ExpireCore(s: World, k: Key)
    requires Core(s) && Enabled(s, Expire(k))
    ensures Core(Apply(s, Expire(k)))
  {
    var s' := Apply(s, Expire(k));
    KeyDeleted(s, s', k);
    var m: Uuid :| true;
    StillCore(s, s', m);
  }

  lemma ReadCallFacts(s: World, i: nat, fault: bool)
    requires Typed(s) && Enabled(s, ReadCallTtl(i, fault)) && Known(s, s.jobs[i].p, 0)
    ensures var s', p := CheckCall(s, i, fault), s.jobs[i].p;
      && Typed(s') && SameLists(s, s') && SameButFor(s, s', p.msg)
      && StageRank(s'.jobs[i].stage) == 0 && Known(s', p, 0) && OnOwnConn(s'.jobs[i])
  {
    var s', p := CheckCall(s, i, fault), s.jobs[i].p;
    if !fault { KeyDeleted(s, s', CallTimeout(p.uri, p.msg)); }
  }

  lemma ReadCallCore(s: World, i: nat, fault: bool)
    requires Core(s) && Enabled(s, ReadCallTtl(i, fault))
    ensures Core(Apply(s, ReadCallTtl(i, fault)))
  {
    var s' := CheckCall(s, i, fault);
    ReadCallFacts(s, i, fault);
    StageCore(s, s', i, s'.jobs[i].stage);
  }

  lemma InvokeFacts(s: World, i: nat)
    requires Typed(s) && Enabled(s, Invoke(i)) && Known(s, s.jobs[i].p, 0)
    ensures var s', p := StartThunk(s, i), s.jobs[i].p;
      Typed(s') && SameLists(s, s') && SameButFor(s, s', p.msg) && Known(s', p, 1)
  {
  }

  lemma InvokeCore(s: World, i: nat)
    requires Core(s) && Enabled(s, Invoke(i))
    ensures Core(Apply(s, Invoke(i)))
  {
    var s' := StartThunk(s, i);
    InvokeFacts(s, i);
    StageCore(s, s', i, s'.jobs[i].stage);
  }

  lemma ReturnFacts(s: World, i: nat)
    requires Typed(s) && Enabled(s, Return(i)) && Known(s, s.jobs[i].p, 1)
    ensures var s', p := EndThunk(s, i), s.jobs[i].p;
      && Typed(s') && SameLists(s, s') && SameButFor(s, s', p.msg)
      && StageRank(s'.jobs[i].stage) == 1 && Known(s', p, 1) && OnOwnConn(s'.jobs[i])
  {
  }

  lemma ReturnCore(s: World, i: nat)
    requires Core(s) && Enabled(s, Return(i))
    ensures Core(Apply(s, Return(i)))
  {
    var s' := EndThunk(s, i);
    ReturnFacts(s, i);
    StageCore(s, s', i, s'.jobs[i].stage);
  }

  lemma ReadResFacts(s: World, i: nat, fault: bool)
    requires Typed(s) && Enabled(s, ReadResTtl(i, fault)) && Known(s, s.jobs[i].p, 2) && OnOwnConn(s.jobs[i])
    ensures var s', p := CheckResult(s, i, fault), s.jobs[i].p;
      && Typed(s') && SameLists(s, s') && SameButFor(s, s', p.msg)
      && StageRank(s'.jobs[i].stage) == 2 && Known(s', p, 2) && OnOwnConn(s'.jobs[i])
  {
    var s', p := CheckResult(s, i, fault), s.jobs[i].p;
    if !fault { KeyDeleted(s, s', ResTimeout(p.conn, p.msg)); }
  }

  lemma ReadResCore(s: World, i: nat, fault: bool)
    requires Core(s) && Enabled(s, ReadResTtl(i, fault))
    ensures Core(Apply(s, ReadResTtl(i, fault)))
  {
    var s' := CheckResult(s, i, fault);
    ReadResFacts(s, i, fault);
    StageCore(s, s', i, s'.jobs[i].stage);
  }

  lemma SendFacts(s: World, i: nat)
    requires Typed(s) && Enabled(s, SendRes(i)) && Known(s, s.jobs[i].p, 2) && OnOwnConn(s.jobs[i])
    ensures var s', p := EmitRes(s, i), s.jobs[i].p;
      && Typed(s') && SameLists(s, s') && SameButFor(s, s', p.msg)
      && StageRank(s'.jobs[i].stage) == 3 && Known(s', p, 3) && OnOwnConn(s'.jobs[i])
  {
  }

  lemma SendCore(s: World, i: nat)
    requires Core(s) && Enabled(s, SendRes(i))
    ensures Core(Apply(s, SendRes(i)))
  {
    var s' := EmitRes(s, i);
    SendFacts(s, i);
    StageCore(s, s', i, s'.jobs[i].stage);
  }

  // --------------------------------------------------------------------- pops

  lemma PopItems(s: World, p: Popped<Key, Payload>, stage: Stage, k: Key)
    requires p.Item? && Items(s.db, p.key) != []
    ensures Items(PopTo(s, p, stage).db, k) == if k == p.key then Items(s.db, k)[1..] else Items(s.db, k)
  {
  }

  /** The item popped is known, and its list is its own. */
  lemma PoppedOwn(s: World, p: Popped<Key, Payload>)
    requires Homed(s) && p.Item? && Items(s.db, p.key) != [] && p.item == Items(s.db, p.key)[0]
    requires p.key.CallList? || p.key.ResList?
    ensures Known(s, p.item, if p.key.CallList? then 0 else 2)
    ensures p.key == if p.key.CallList? then CallList(p.item.uri) else ResList(p.item.conn)
  {
    if p.key.CallList? {
      assert p.item == CallItems(s, p.key.uri)[0];
    } else {
      assert p.item == ResItems(s, p.key.conn)[0];
    }
  }

  lemma PopCore(s: World, p: Popped<Key, Payload>, stage: Stage)
    requires Core(s) && p.Item? && Items(s.db, p.key) != [] && p.item == Items(s.db, p.key)[0]
    requires p.key.CallList? || p.key.ResList?
    requires StageRank(stage) == (if p.key.CallList? then 0 else 2) && OnOwnConn(Job(p.item, stage))
    ensures Core(PopTo(s, p, stage))
  {
    var s' := PopTo(s, p, stage);
    PoppedOwn(s, p);
    PopHomed(s, s', p, stage);
    PopConserved(s, s', p, stage);
  }

  lemma PopConserved(s: World, s': World, p: Popped<Key, Payload>, stage: Stage)
    requires Conserved(s) && p.Item? && Items(s.db, p.key) != [] && p.item == Items(s.db, p.key)[0]
    requires s' == PopTo(s, p, stage) && p.item.msg in s.calls
    requires p.key == CallList(s.calls[p.item.msg].uri) || p.key == ResList(s.calls[p.item.msg].conn)
    ensures Conserved(s')
  {
    forall m | m in s'.calls ensures Places(s', m) == if s'.calls[m].accepted then 1 else 0 {
      PopPlaces(s, s', p, stage, m);
    }
  }

  lemma PopHomed(s: World, s': World, p: Popped<Key, Payload>, stage: Stage)
    requires Homed(s) && p.Item? && Items(s.db, p.key) != []
    requires s' == PopTo(s, p, stage) && Known(s, p.item, StageRank(stage)) && OnOwnConn(Job(p.item, stage))
    ensures Homed(s')
  {
    forall u: string, i | 0 <= i < |CallItems(s', u)|
      ensures Known(s', CallItems(s', u)[i], 0) && CallItems(s', u)[i].uri == u
    {
      PopItems(s, p, stage, CallList(u));
      var k := if p.key == CallList(u) then i + 1 else i;
      assert CallItems(s', u)[i] == CallItems(s, u)[k];
    }
    forall c: Uuid, i | 0 <= i < |ResItems(s', c)|
      ensures Known(s', ResItems(s', c)[i], 2) && ResItems(s', c)[i].conn == c
    {
      PopItems(s, p, stage, ResList(c));
      var k := if p.key == ResList(c) then i + 1 else i;
      assert ResItems(s', c)[i] == ResItems(s, c)[k];
    }
    forall i | 0 <= i < |s'.jobs|
      ensures Known(s', s'.jobs[i].p, StageRank(s'.jobs[i].stage)) && OnOwnConn(s'.jobs[i])
    {
      if i < |s.jobs| { assert s'.jobs[i] == s.jobs[i]; }
    }
  }

  lemma PopPlaces(s: World, s': World, p: Popped<Key, Payload>, stage: Stage, m: Uuid)
    requires p.Item? && Items(s.db, p.key) != [] && p.item == Items(s.db, p.key)[0]
    requires s' == PopTo(s, p, stage) && m in s.calls && p.item.msg in s.calls
    requires p.key == CallList(s.calls[p.item.msg].uri) || p.key == ResList(s.calls[p.item.msg].conn)
    ensures Places(s', m) == Places(s, m)
  {
    JobAppend(s.jobs, [Job(p.item, stage)], m);
    PopItems(s, p, stage, CallList(s.calls[m].uri));
    PopItems(s, p, stage, ResList(s.calls[m].conn));
  }

  lemma PopCallCore(s: World, uris: seq<string>)
    requires Core(s) && Enabled(s, PopCall(uris))
    ensures Core(Apply(s, PopCall(uris)))
  {
    PopCore(s, Peek(s.db, Millis(s), CallKeys(uris)), CallPopped);
  }

  lemma PopResultCore(s: World, conn: Uuid)
    requires Core(s) && Enabled(s, PopResult(conn))
    ensures Core(Apply(s, PopResult(conn)))
  {
    var p := Peek(s.db, Millis(s), [ResList(conn)]);
    assert p.item == ResItems(s, conn)[0];
    PopCore(s, p, ResPopped(conn));
  }

  /** A callee is only ever handed calls for URIs that it asked for, so it has a thunk for them. */
  lemma PoppedUri(s: World, uris: seq<string>)
    requires Core(s) && Enabled(s, PopCall(uris))
    ensures var s' := Apply(s, PopCall(uris)); s'.jobs[|s.jobs|].p.uri in uris
  {
    var p := Peek(s.db, Millis(s), CallKeys(uris));
    var i :| 0 <= i < |uris| && p.key == CallKeys(uris)[i];
    assert p.item == CallItems(s, uris[i])[0];
  }
}
