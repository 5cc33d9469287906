/** Deadlines: the expiring key of every waiting payload is its own, and no other step touches it. */
module ProtocolTime {
  import opened Keys
  import opened RedisStore
  import opened Timing
  import opened Protocol
  import opened ProtocolPlaces
  import opened ProtocolRegister
  import opened ProtocolLog

  /** The call p has yet to have its time to live read. */
  predicate Waiting(s: World, p: Payload) {
    p in CallItems(s, p.uri) || Job(p, CallPopped) in s.jobs
  }

  predicate ResWaiting(s: World, p: Payload) {
    p in ResItems(s, p.conn) || Job(p, ResPopped(p.conn)) in s.jobs
  }

  /** The key holds this deadline, or has expired by it. */
  predicate Holds(s: World, k: Key, deadline: int) {
    if k in s.db then s.db[k] == Expiring(deadline) else deadline < Millis(s)
  }

  predicate CallKeyOk(s: World, p: Payload) {
    p.msg in s.calls && Holds(s, CallTimeout(p.uri, p.msg), s.calls[p.msg].deadline)
  }

  predicate ResKeyOk(s: World, p: Payload) {
    && p.msg in s.calls && s.calls[p.msg].stored.Some?
    && Holds(s, ResTimeout(p.conn, p.msg), s.calls[p.msg].stored.value.deadline)
  }

  ghost predicate Ttls(s: World) {
    && (forall p :: Waiting(s, p) ==> CallKeyOk(s, p))
    && (forall p :: ResWaiting(s, p) ==> ResKeyOk(s, p))
  }

  /** The expiring keys and the deadlines of every message but those in x are as they were, or have expired. */
  ghost predicate KeysKept(s: World, s': World, x: set<Uuid>) {
    && s.now <= s'.now
    && (forall k: Key :: (k.CallTimeout? || k.ResTimeout?) && k.msg !in x && k in s'.db ==>
          k in s.db && s'.db[k] == s.db[k])
    && (forall k: Key :: (k.CallTimeout? || k.ResTimeout?) && k.msg !in x && k in s.db && k !in s'.db ==>
          s.db[k].Expiring? && s.db[k].deadline < Millis(s'))
    && (forall m :: m in s.calls && m !in x ==>
          m in s'.calls && s'.calls[m].deadline == s.calls[m].deadline && s'.calls[m].stored == s.calls[m].stored)
  }

  /** Nothing is waiting that was not, but for y; and no message of x is waiting otherwise. */
  ghost predicate NoneNew(s: World, s': World, x: set<Uuid>, y: set<Payload>) {
    && (forall p :: Waiting(s', p) && p !in y ==> Waiting(s, p) && p.msg !in x)
    && (forall p :: ResWaiting(s', p) && p !in y ==> ResWaiting(s, p) && p.msg !in x)
    && (forall p :: p in y ==> (Waiting(s', p) ==> CallKeyOk(s', p)) && (ResWaiting(s', p) ==> ResKeyOk(s', p)))
  }

  lemma HoldsStill(s: World, s': World, x: set<Uuid>, k: Key, deadline: int)
    requires KeysKept(s, s', x) && Holds(s, k, deadline) && (k.CallTimeout? || k.ResTimeout?) && k.msg !in x
    ensures Holds(s', k, deadline)
  {
    assert Millis(s) <= Millis(s');
  }

  lemma TtlsKept(s: World, s': World, x: set<Uuid>, y: set<Payload>)
    requires Ttls(s) && KeysKept(s, s', x) && NoneNew(s, s', x, y)
    ensures Ttls(s')
  {
    forall p | Waiting(s', p) ensures CallKeyOk(s', p) {
      if p !in y {
        assert CallKeyOk(s, p);
        HoldsStill(s, s', x, CallTimeout(p.uri, p.msg), s.calls[p.msg].deadline);
      }
    }
    forall p | ResWaiting(s', p) ensures ResKeyOk(s', p) {
      if p !in y {
        assert ResKeyOk(s, p);
        HoldsStill(s, s', x, ResTimeout(p.conn, p.msg), s.calls[p.msg].stored.value.deadline);
      }
    }
  }

  // -------------------------------------------------------------- by action

  lemma SameWaiting(s: World, s': World)
    requires Ttls(s) && KeysKept(s, s', {}) && s'.jobs == s.jobs
    requires forall u: string :: CallItems(s', u) == CallItems(s, u)
    requires forall c: Uuid :: ResItems(s', c) == ResItems(s, c)
    ensures Ttls(s')
  {
    assert forall p :: Waiting(s', p) ==> Waiting(s, p);
    assert forall p :: ResWaiting(s', p) ==> ResWaiting(s, p);
    TtlsKept(s, s', {}, {});
  }

  lemma PlainTtls(s: World, a: Action)
    requires Typed(s) && Ttls(s) && Enabled(s, a) && (a.Tick? || a.Expire? || a.Reply?)
    ensures Ttls(Apply(s, a))
  {
    PlainKeys(s, a);
    SameWaiting(s, Apply(s, a));
  }

  lemma PlainKeys(s: World, a: Action)
    requires Typed(s) && Enabled(s, a) && (a.Tick? || a.Expire? || a.Reply?)
    ensures var s' := Apply(s, a);
      && KeysKept(s, s', {}) && s'.jobs == s.jobs
      && (forall u: string :: CallItems(s', u) == CallItems(s, u))
      && (forall c: Uuid :: ResItems(s', c) == ResItems(s, c))
  {
    forall k: Key | k.CallList? || k.ResList? ensures Items(Apply(s, a).db, k) == Items(s.db, k) {}
  }

  /** A job moves on from a stage; what waits afterwards are other messages. */
  lemma MovedOn(s: World, s': World, i: nat, st: Stage)
    requires Core(s) && i < |s.jobs| && !st.CallPopped? && !st.ResPopped?
    requires s'.jobs == Staged(s, i, st)
    requires forall u: string :: CallItems(s', u) == CallItems(s, u)
    requires forall c: Uuid :: ResItems(s', c) == ResItems(s, c)
    ensures NoneNew(s, s', {s.jobs[i].p.msg}, {})
  {
    SoleJob(s, i);
    var m := s.jobs[i].p.msg;
    forall p | Waiting(s', p) ensures Waiting(s, p) && p.msg != m {
      if p in CallItems(s', p.uri) {
        assert p in CallItems(s, p.uri);
      } else {
        var j :| 0 <= j < |s'.jobs| && s'.jobs[j] == Job(p, CallPopped);
        assert j != i && s.jobs[j] == s'.jobs[j];
      }
    }
    forall p | ResWaiting(s', p) ensures ResWaiting(s, p) && p.msg != m {
      if p in ResItems(s', p.conn) {
        assert p in ResItems(s, p.conn);
      } else {
        var j :| 0 <= j < |s'.jobs| && s'.jobs[j] == Job(p, ResPopped(p.conn));
        assert j != i && s.jobs[j] == s'.jobs[j];
      }
    }
  }

  /** The key read and deleted, if any, is that of the job's own message. */
  lemma JobKeys(s: World, a: Action)
    requires Typed(s) && Enabled(s, a)
    requires a.ReadCallTtl? || a.Invoke? || a.Return? || a.ReadResTtl? || a.SendRes?
    ensures var s' := Apply(s, a);
      && KeysKept(s, s', {s.jobs[a.i].p.msg})
      && a.i < |s'.jobs| && s'.jobs == Staged(s, a.i, s'.jobs[a.i].stage)
      && !s'.jobs[a.i].stage.CallPopped? && !s'.jobs[a.i].stage.ResPopped?
      && (forall u: string :: CallItems(s', u) == CallItems(s, u))
      && (forall c: Uuid :: ResItems(s', c) == ResItems(s, c))
  {
    var s' := Apply(s, a);
    if a.ReadCallTtl? || a.ReadResTtl? {
      forall k: Key | k.CallList? || k.ResList? ensures Items(s'.db, k) == Items(s.db, k) {}
    } else {
      assert s'.db == s.db;
    }
  }

  lemma JobTtls(s: World, a: Action)
    requires Core(s) && Ttls(s) && Enabled(s, a)
    requires a.ReadCallTtl? || a.Invoke? || a.Return? || a.ReadResTtl? || a.SendRes?
    ensures Ttls(Apply(s, a))
  {
    var s' := Apply(s, a);
    JobKeys(s, a);
    MovedOn(s, s', a.i, s'.jobs[a.i].stage);
    TtlsKept(s, s', {s.jobs[a.i].p.msg}, {});
  }

  lemma PopWaiting(s: World, p: Popped<Key, Payload>, st: Stage, x: Payload)
    requires p.Item? && Items(s.db, p.key) != [] && p.item == Items(s.db, p.key)[0]
    requires (p.key == CallList(p.item.uri) && st == CallPopped)
          || (p.key == ResList(p.item.conn) && st == ResPopped(p.item.conn))
    ensures Waiting(PopTo(s, p, st), x) ==> Waiting(s, x)
    ensures ResWaiting(PopTo(s, p, st), x) ==> ResWaiting(s, x)
  {
    var s' := PopTo(s, p, st);
    forall k | x in Items(s'.db, k) ensures x in Items(s.db, k) {}
    forall j | j in s'.jobs ensures j in s.jobs || j == Job(p.item, st) {}
  }

  lemma PopTtls(s: World, p: Popped<Key, Payload>, st: Stage)
    requires Homed(s) && Ttls(s) && p.Item? && Items(s.db, p.key) != [] && p.item == Items(s.db, p.key)[0]
    requires (p.key.CallList? && st == CallPopped) || (p.key.ResList? && st == ResPopped(p.key.conn))
    ensures Ttls(PopTo(s, p, st))
  {
    var s' := PopTo(s, p, st);
    if p.key.CallList? {
      assert p.item == CallItems(s, p.key.uri)[0];
    } else {
      assert p.item == ResItems(s, p.key.conn)[0];
    }
    forall x ensures (Waiting(s', x) ==> Waiting(s, x)) && (ResWaiting(s', x) ==> ResWaiting(s, x)) {
      PopWaiting(s, p, st, x);
    }
    TtlsKept(s, s', {}, {});
  }

  lemma ReceiveTtls(s: World, a: Action)
    requires Core(s) && Ttls(s) && a.Receive? && Enabled(s, a)
    ensures Ttls(Apply(s, a))
  {
    var s', p, r := Apply(s, a), Payload(a.conn, a.msg, a.uri, a.args), ReplyTo(s, a);
    ReceiveOffers(s, a);
    ReceiveKeys(s, a);
    OfferedNoneNew(s, s', p, r, a.cap);
    TtlsKept(s, s', {a.msg}, {p});
  }

  lemma OfferedNoneNew(s: World, s': World, p: Payload, r: Reply, cap: int)
    requires Homed(s) && Offered(s, s', p, r, cap) && p.msg !in s.calls
    requires !ResWaiting(s', p) && (Waiting(s', p) ==> CallKeyOk(s', p))
    ensures NoneNew(s, s', {p.msg}, {p})
  {
    forall x | Waiting(s', x) && x != p ensures Waiting(s, x) && x.msg != p.msg {
      OfferedWaiting(s, s', p, r, cap, x);
    }
    forall x | ResWaiting(s', x) ensures ResWaiting(s, x) && x.msg != p.msg {
      OfferedResWaiting(s, s', p, r, cap, x);
    }
  }

  lemma ReceiveKeysKept(s: World, a: Action)
    requires Typed(s) && a.Receive? && Enabled(s, a)
    ensures var s' := ReceiveCall(s, a);
      && KeysKept(s, s', {a.msg})
      && (ReplyTo(s, a).Length? ==> CallKeyOk(s', Payload(a.conn, a.msg, a.uri, a.args)))
  {
    if !a.fault {
      RegisterLists(s.db, Millis(s), CallTimeout(a.uri, a.msg), CallList(a.uri), ExpiryMillis(a.timeout),
                    Payload(a.conn, a.msg, a.uri, a.args), a.cap);
    }
  }

  /** The message of a call that was just received waits for nothing but that call, if it was taken. */
  lemma NewWaiting(s: World, s': World, p: Payload, r: Reply, cap: int)
    requires Homed(s) && Offered(s, s', p, r, cap) && p.msg !in s.calls
    ensures (Waiting(s', p) ==> r.Length?) && !ResWaiting(s', p)
  {
    assert ResItems(s', p.conn) == ResItems(s, p.conn);
    assert !r.Length? && p in CallItems(s', p.uri) ==> p in CallItems(s, p.uri);
  }

  lemma ReceiveKeys(s: World, a: Action)
    requires Core(s) && a.Receive? && Enabled(s, a)
    ensures var s', p := ReceiveCall(s, a), Payload(a.conn, a.msg, a.uri, a.args);
      KeysKept(s, s', {a.msg}) && (Waiting(s', p) ==> CallKeyOk(s', p)) && !ResWaiting(s', p)
  {
    ReceiveKeysKept(s, a);
    ReceiveOffers(s, a);
    NewWaiting(s, ReceiveCall(s, a), Payload(a.conn, a.msg, a.uri, a.args), ReplyTo(s, a), a.cap);
  }

  lemma OfferedWaiting(s: World, s': World, p: Payload, r: Reply, cap: int, x: Payload)
    requires Homed(s) && Offered(s, s', p, r, cap) && p.msg !in s.calls && Waiting(s', x) && x != p
    ensures Waiting(s, x) && x.msg != p.msg
  {
    if x in CallItems(s', x.uri) {
      assert x in CallItems(s, x.uri);
      var i :| 0 <= i < |CallItems(s, x.uri)| && CallItems(s, x.uri)[i] == x;
      assert Known(s, x, 0);
    } else {
      var j :| 0 <= j < |s.jobs| && s.jobs[j] == Job(x, CallPopped);
      assert Known(s, x, 0);
    }
  }

  lemma OfferedResWaiting(s: World, s': World, p: Payload, r: Reply, cap: int, x: Payload)
    requires Homed(s) && Offered(s, s', p, r, cap) && p.msg !in s.calls && ResWaiting(s', x)
    ensures ResWaiting(s, x) && x.msg != p.msg
  {
    if x in ResItems(s', x.conn) {
      var i :| 0 <= i < |ResItems(s, x.conn)| && ResItems(s, x.conn)[i] == x;
      assert Known(s, x, 2);
    } else {
      var j :| 0 <= j < |s.jobs| && s.jobs[j] == Job(x, ResPopped(x.conn));
      assert Known(s, x, 2);
    }
  }

  lemma StoreTtls(s: World, a: Action)
    requires Core(s) && Ttls(s) && a.StoreResult? && Enabled(s, a)
    ensures Ttls(Apply(s, a))
  {
    var s', rp := RegisterResult(s, a), ResultOf(s, a);
    ActorKnown(s, a);
    StoreReturns(s, a);
    StoreKeys(s, a);
    SoleJob(s, a.i);
    StoreNoneNew(s, s', a.i, rp, ReplyToResult(s, a), a.cap);
    TtlsKept(s, s', {rp.msg}, {rp});
  }

  lemma StoreNoneNew(s: World, s': World, i: nat, rp: Payload, r: Reply, cap: int)
    requires Returned(s, s', i, rp, r, cap) && NoCall(s, rp.msg) && NoRes(s, rp.msg)
    requires rp.msg == s.jobs[i].p.msg && StageRank(s.jobs[i].stage) == 1
    requires forall j :: 0 <= j < |s.jobs| && j != i ==> s.jobs[j].p.msg != rp.msg
    requires !Waiting(s', rp) && (ResWaiting(s', rp) ==> ResKeyOk(s', rp))
    ensures NoneNew(s, s', {rp.msg}, {rp})
  {
    forall x | Waiting(s', x) && x != rp ensures Waiting(s, x) && x.msg != rp.msg {
      ReturnedWaiting(s, s', i, rp, r, cap, x);
    }
    forall x | ResWaiting(s', x) && x != rp ensures ResWaiting(s, x) && x.msg != rp.msg {
      ReturnedResWaiting(s, s', i, rp, r, cap, x);
    }
  }

  lemma StoreKeysKept(s: World, a: Action)
    requires Typed(s) && a.StoreResult? && Enabled(s, a)
    ensures var s', p := RegisterResult(s, a), s.jobs[a.i].p;
      && KeysKept(s, s', {p.msg})
      && (ReplyToResult(s, a).Length? ==> ResKeyOk(s', ResultOf(s, a)))
  {
    var p := s.jobs[a.i].p;
    if !a.fault {
      RegisterLists(s.db, Millis(s), ResTimeout(p.conn, p.msg), ResList(p.conn),
                    ExpiryMillis(s.jobs[a.i].stage.remain), ResultOf(s, a), a.cap);
    }
  }

  lemma StoreKeys(s: World, a: Action)
    requires Core(s) && a.StoreResult? && Enabled(s, a) && Known(s, s.jobs[a.i].p, 1)
    ensures var s', rp := RegisterResult(s, a), ResultOf(s, a);
      && KeysKept(s, s', {rp.msg})
      && !Waiting(s', rp)
      && (ResWaiting(s', rp) ==> ResKeyOk(s', rp))
  {
    StoreReturns(s, a);
    StoreKeysKept(s, a);
    SoleJob(s, a.i);
    StoreNotWaiting(s, RegisterResult(s, a), a.i, ResultOf(s, a), ReplyToResult(s, a), a.cap);
  }

  lemma StoreNotWaiting(s: World, s': World, i: nat, rp: Payload, r: Reply, cap: int)
    requires Returned(s, s', i, rp, r, cap) && NoCall(s, rp.msg) && NoRes(s, rp.msg)
    requires rp.msg == s.jobs[i].p.msg && StageRank(s.jobs[i].stage) == 1
    requires forall j :: 0 <= j < |s.jobs| && j != i ==> s.jobs[j].p.msg != rp.msg
    ensures !Waiting(s', rp) && (ResWaiting(s', rp) ==> r.Length?)
  {
    assert CallItems(s', rp.uri) == CallItems(s, rp.uri);
    forall j | j in s'.jobs ensures j.p.msg == rp.msg ==> StageRank(j.stage) == 1 {}
  }

  lemma ReturnedWaiting(s: World, s': World, i: nat, rp: Payload, r: Reply, cap: int, x: Payload)
    requires Returned(s, s', i, rp, r, cap) && NoCall(s, rp.msg)
    requires rp.msg == s.jobs[i].p.msg && StageRank(s.jobs[i].stage) == 1
    requires forall j :: 0 <= j < |s.jobs| && j != i ==> s.jobs[j].p.msg != rp.msg
    requires Waiting(s', x)
    ensures Waiting(s, x) && x.msg != rp.msg
  {
    if x in CallItems(s', x.uri) {
      assert x in CallItems(s, x.uri);
    } else {
      assert Job(x, CallPopped) in s.jobs;
      var j :| 0 <= j < |s.jobs| && s.jobs[j] == Job(x, CallPopped);
      assert j != i;
    }
  }

  lemma ReturnedResWaiting(s: World, s': World, i: nat, rp: Payload, r: Reply, cap: int, x: Payload)
    requires Returned(s, s', i, rp, r, cap) && NoRes(s, rp.msg)
    requires rp.msg == s.jobs[i].p.msg && StageRank(s.jobs[i].stage) == 1
    requires forall j :: 0 <= j < |s.jobs| && j != i ==> s.jobs[j].p.msg != rp.msg
    requires ResWaiting(s', x) && x != rp
    ensures ResWaiting(s, x) && x.msg != rp.msg
  {
    if x in ResItems(s', x.conn) {
      assert x in ResItems(s, x.conn);
    } else {
      assert Job(x, ResPopped(x.conn)) in s.jobs;
      var j :| 0 <= j < |s.jobs| && s.jobs[j] == Job(x, ResPopped(x.conn));
      assert j != i;
    }
  }

  lemma StepTtls(s: World, a: Action)
    requires Core(s) && Ttls(s) && Enabled(s, a)
    ensures Ttls(Apply(s, a))
  {
    match a
    case Tick(_) => PlainTtls(s, a);
    case Expire(_) => PlainTtls(s, a);
    case Reply(_) => PlainTtls(s, a);
    case Receive(_, _, _, _, _, _, _) => ReceiveTtls(s, a);
    case PopCall(uris) => PopTtls(s, Peek(s.db, Millis(s), CallKeys(uris)), CallPopped);
    case PopResult(conn) => PopTtls(s, Peek(s.db, Millis(s), [ResList(conn)]), ResPopped(conn));
    case StoreResult(_, _, _, _) => StoreTtls(s, a);
    case _ => JobTtls(s, a);
  }
}
