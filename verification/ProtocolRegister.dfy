/** Registering a call or a result keeps every call in its one place. */
module ProtocolRegister {
  import opened Keys
  import opened RedisStore
  import opened Timing
  import opened Protocol
  import opened ProtocolPlaces
  import opened ProtocolSteps

  /** What the reply r says became of the queue q. */
  function After(q: seq<Payload>, item: Payload, r: Reply, cap: int): seq<Payload> {
    match r
    case Length(_) => q + [item]
    case CapacityExceeded => if 0 < cap <= |q| then q[..cap] else q
    case _ => q
  }

  lemma RegisterLists(d: Space<Key, Payload>, ms: int, k1: Key, k2: Key, px: int, item: Payload, cap: int)
    requires k1.CallTimeout? || k1.ResTimeout?
    requires k2.CallList? || k2.ResList?
    requires forall k :: k in d ==> (d[k].Queue? <==> k.CallList? || k.ResList?)
    ensures var (d', r) := Register(d, ms, k1, k2, px, item, cap);
      && r != WrongType
      && (px > 0 ==> r != InvalidExpire && k1 in d' && d'[k1] == Expiring(ms + px))
      && (forall k :: k in d' ==> (d'[k].Queue? <==> k.CallList? || k.ResList?))
      && (forall k :: k != k1 && k != k2 ==> (k in d' <==> k in d) && (k in d ==> d'[k] == d[k]))
      && (r.CapacityExceeded? ==> 0 < cap <= |Items(d, k2)|)
      && (forall k :: Items(d', k) == if k == k2 then After(Items(d, k2), item, r, cap) else Items(d, k))
  {
    var (d', r) := Register(d, ms, k1, k2, px, item, cap);
    forall k ensures Items(d', k) == if k == k2 then After(Items(d, k2), item, r, cap) else Items(d, k) {
    }
  }

  /** What stays in a queue and what is trimmed off it is what was there, and the new item if it was taken. */
  lemma CountAfter(q: seq<Payload>, item: Payload, r: Reply, cap: int, lost: seq<Payload>, m: Uuid)
    requires r.CapacityExceeded? ==> 0 < cap <= |q|
    ensures Count(After(q, item, r, cap), m) + Count(lost + TrimmedOff(q, r, cap), m)
         == Count(q, m) + Count(lost, m) + if r.Length? && item.msg == m then 1 else 0
  {
    CountAppend(lost, TrimmedOff(q, r, cap), m);
    match r
    case Length(_) => CountAppend(q, [item], m);
    case CapacityExceeded => CountSplit(q, cap, m);
    case _ =>
  }

  lemma LostKnown(lost: seq<Payload>, q: seq<Payload>, r: Reply, cap: int, known: set<Uuid>)
    requires forall i :: 0 <= i < |lost| ==> lost[i].msg in known
    requires forall i :: 0 <= i < |q| ==> q[i].msg in known
    ensures var all := lost + TrimmedOff(q, r, cap); forall i :: 0 <= i < |all| ==> all[i].msg in known
  {
    var t := TrimmedOff(q, r, cap);
    assert forall i :: 0 <= i < |t| ==> t[i] == q[cap + i];
  }

  // ------------------------------------------------------------------ a call

  /** The call p was offered to its list, with reply r; nothing else changed in the lists. */
  ghost predicate Offered(s: World, s': World, p: Payload, r: Reply, cap: int) {
    && Typed(s')
    && (r.CapacityExceeded? ==> 0 < cap <= |CallItems(s, p.uri)|)
    && (forall u: string ::
          CallItems(s', u) == if u == p.uri then After(CallItems(s, u), p, r, cap) else CallItems(s, u))
    && (forall c: Uuid :: ResItems(s', c) == ResItems(s, c))
    && s'.lost == s.lost + TrimmedOff(CallItems(s, p.uri), r, cap)
    && s'.jobs == s.jobs
    && p.msg in s'.calls && s'.calls == s.calls[p.msg := s'.calls[p.msg]]
    && (r.Length? <==> s'.calls[p.msg].accepted)
    && (r.Length? ==> Known(s', p, 0))
  }

  function ReplyTo(s: World, a: Action): Reply
    requires a.Receive?
  {
    if a.fault then InvalidExpire
    else Register(s.db, Millis(s), CallTimeout(a.uri, a.msg), CallList(a.uri), ExpiryMillis(a.timeout),
                  Payload(a.conn, a.msg, a.uri, a.args), a.cap).1
  }

  lemma ReceiveOffers(s: World, a: Action)
    requires a.Receive? && Typed(s)
    ensures Offered(s, ReceiveCall(s, a), Payload(a.conn, a.msg, a.uri, a.args), ReplyTo(s, a), a.cap)
  {
    if !a.fault {
      RegisterLists(s.db, Millis(s), CallTimeout(a.uri, a.msg), CallList(a.uri), ExpiryMillis(a.timeout),
                    Payload(a.conn, a.msg, a.uri, a.args), a.cap);
    }
  }

  lemma OfferHomed(s: World, s': World, p: Payload, r: Reply, cap: int)
    requires Homed(s) && Offered(s, s', p, r, cap) && p.msg !in s.calls
    ensures Homed(s')
  {
    forall u: string, i | 0 <= i < |CallItems(s', u)|
      ensures Known(s', CallItems(s', u)[i], 0) && CallItems(s', u)[i].uri == u
    {
      if i < |CallItems(s, u)| {
        assert CallItems(s', u)[i] == CallItems(s, u)[i];
      } else {
        assert CallItems(s', u)[i] == p;
      }
    }
    forall c: Uuid, i | 0 <= i < |ResItems(s', c)|
      ensures Known(s', ResItems(s', c)[i], 2) && ResItems(s', c)[i].conn == c
    {
      assert ResItems(s', c)[i] == ResItems(s, c)[i];
    }
  }

  lemma UnheardQueues(s: World, m: Uuid, u: string, c: Uuid)
    requires Homed(s) && m !in s.calls
    ensures Count(CallItems(s, u), m) == Count(ResItems(s, c), m) == 0
  {
    CountedAt(CallItems(s, u), m);
    CountedAt(ResItems(s, c), m);
  }

  lemma UnheardJobs(s: World, m: Uuid)
    requires Homed(s) && m !in s.calls
    requires forall i :: 0 <= i < |s.lost| ==> s.lost[i].msg in s.calls
    ensures JobCount(s.jobs, m) == Count(s.lost, m) == 0
  {
    JobCountedAt(s.jobs, m);
    CountedAt(s.lost, m);
  }

  /** What is trimmed off the list of another URI is not m. */
  lemma TrimmedElsewhere(s: World, m: Uuid, u: string, r: Reply, cap: int)
    requires Homed(s) && m in s.calls && s.calls[m].uri != u
    ensures Count(TrimmedOff(CallItems(s, u), r, cap), m) == 0
  {
    var q := CallItems(s, u);
    var t := TrimmedOff(q, r, cap);
    assert forall i :: 0 <= i < |t| ==> t[i] == q[cap + i];
    CountedAt(t, m);
  }

  lemma NewPlaces(s: World, s': World, p: Payload, r: Reply, cap: int)
    requires Core(s) && Offered(s, s', p, r, cap) && p.msg !in s.calls
    requires s'.calls[p.msg].uri == p.uri && s'.calls[p.msg].conn == p.conn
    ensures Places(s', p.msg) == if r.Length? then 1 else 0
  {
    CountAfter(CallItems(s, p.uri), p, r, cap, s.lost, p.msg);
    UnheardQueues(s, p.msg, p.uri, p.conn);
    UnheardJobs(s, p.msg);
  }

  lemma OldPlaces(s: World, s': World, p: Payload, r: Reply, cap: int, m: Uuid)
    requires Homed(s) && Offered(s, s', p, r, cap) && m != p.msg && m in s.calls
    ensures Places(s', m) == Places(s, m)
  {
    CountAfter(CallItems(s, p.uri), p, r, cap, s.lost, m);
    assert ResItems(s', s.calls[m].conn) == ResItems(s, s.calls[m].conn);
    if s.calls[m].uri != p.uri {
      TrimmedElsewhere(s, m, p.uri, r, cap);
      CountAppend(s.lost, TrimmedOff(CallItems(s, p.uri), r, cap), m);
    }
  }

  lemma OfferConserved(s: World, s': World, p: Payload, r: Reply, cap: int)
    requires Core(s) && Offered(s, s', p, r, cap) && p.msg !in s.calls
    requires s'.calls[p.msg].uri == p.uri && s'.calls[p.msg].conn == p.conn
    ensures Conserved(s')
  {
    forall m | m in s'.calls ensures Places(s', m) == if s'.calls[m].accepted then 1 else 0 {
      if m == p.msg { NewPlaces(s, s', p, r, cap); } else { OldPlaces(s, s', p, r, cap, m); }
    }
    LostKnown(s.lost, CallItems(s, p.uri), r, cap, s.calls.Keys);
  }

  lemma OfferCore(s: World, s': World, p: Payload, r: Reply, cap: int)
    requires Core(s) && Offered(s, s', p, r, cap) && p.msg !in s.calls
    requires s'.calls[p.msg].uri == p.uri && s'.calls[p.msg].conn == p.conn
    ensures Core(s')
  {
    OfferHomed(s, s', p, r, cap);
    OfferConserved(s, s', p, r, cap);
  }

  lemma ReceiveCore(s: World, a: Action)
    requires a.Receive? && Core(s) && Enabled(s, a)
    ensures Core(Apply(s, a))
  {
    ReceiveOffers(s, a);
    OfferCore(s, ReceiveCall(s, a), Payload(a.conn, a.msg, a.uri, a.args), ReplyTo(s, a), a.cap);
  }

  // ---------------------------------------------------------------- a result

  /** The result rp of job i was offered to its list, with reply r; nothing else changed in the lists. */
  ghost predicate Returned(s: World, s': World, i: nat, rp: Payload, r: Reply, cap: int) {
    && i < |s.jobs| && Typed(s')
    && (r.CapacityExceeded? ==> 0 < cap <= |ResItems(s, rp.conn)|)
    && (forall u: string :: CallItems(s', u) == CallItems(s, u))
    && (forall c: Uuid ::
          ResItems(s', c) == if c == rp.conn then After(ResItems(s, c), rp, r, cap) else ResItems(s, c))
    && s'.lost == s.lost + TrimmedOff(ResItems(s, rp.conn), r, cap)
    && SameButFor(s, s', rp.msg)
    && (if r.Length? then Known(s', rp, 2) && s'.jobs == s.jobs[..i] + s.jobs[i + 1..]
        else s'.calls == s.calls && s'.jobs == Staged(s, i, ResultFailed))
  }

  function ReplyToResult(s: World, a: Action): Reply
    requires a.StoreResult? && Enabled(s, a)
  {
    var p := s.jobs[a.i].p;
    if a.fault then InvalidExpire
    else Register(s.db, Millis(s), ResTimeout(p.conn, p.msg), ResList(p.conn), ExpiryMillis(s.jobs[a.i].stage.remain),
                  ResultOf(s, a), a.cap).1
  }

  function ResultOf(s: World, a: Action): Payload
    requires a.StoreResult? && Enabled(s, a)
  {
    var p := s.jobs[a.i].p;
    Payload(p.conn, p.msg, p.uri, a.args)
  }

  lemma StoreReturns(s: World, a: Action)
    requires a.StoreResult? && Enabled(s, a) && Typed(s) && Known(s, s.jobs[a.i].p, 1)
    ensures Returned(s, RegisterResult(s, a), a.i, ResultOf(s, a), ReplyToResult(s, a), a.cap)
  {
    var p := s.jobs[a.i].p;
    if !a.fault {
      RegisterLists(s.db, Millis(s), ResTimeout(p.conn, p.msg), ResList(p.conn),
                    ExpiryMillis(s.jobs[a.i].stage.remain), ResultOf(s, a), a.cap);
    }
  }

  lemma ReturnedListsHomed(s: World, s': World, i: nat, rp: Payload, r: Reply, cap: int)
    requires Homed(s) && Returned(s, s', i, rp, r, cap) && NoCall(s, rp.msg) && NoRes(s, rp.msg)
    ensures forall u: string, k :: 0 <= k < |CallItems(s', u)| ==>
              Known(s', CallItems(s', u)[k], 0) && CallItems(s', u)[k].uri == u
    ensures forall c: Uuid, k :: 0 <= k < |ResItems(s', c)| ==>
              Known(s', ResItems(s', c)[k], 2) && ResItems(s', c)[k].conn == c
  {
    forall u: string, k | 0 <= k < |CallItems(s', u)|
      ensures Known(s', CallItems(s', u)[k], 0) && CallItems(s', u)[k].uri == u
    {
      assert CallItems(s', u)[k] == CallItems(s, u)[k];
    }
    forall c: Uuid, k | 0 <= k < |ResItems(s', c)|
      ensures Known(s', ResItems(s', c)[k], 2) && ResItems(s', c)[k].conn == c
    {
      if k < |ResItems(s, c)| {
        assert ResItems(s', c)[k] == ResItems(s, c)[k];
      } else {
        assert ResItems(s', c)[k] == rp;
      }
    }
  }

  /** The job stands for its call, as far along as its stage says. */
  predicate JobHomed(s: World, j: Job) { Known(s, j.p, StageRank(j.stage)) && OnOwnConn(j) }

  lemma JobStaysHomed(s: World, s': World, m: Uuid, j: Job)
    requires SameButFor(s, s', m) && j.p.msg != m && JobHomed(s, j)
    ensures JobHomed(s', j)
  {
  }

  ghost predicate JobsHomed(s: World) { forall k :: 0 <= k < |s.jobs| ==> JobHomed(s, s.jobs[k]) }

  /** Job i is done with. */
  lemma RemovedJobHomed(s: World, s': World, i: nat, m: Uuid)
    requires JobsHomed(s) && SameButFor(s, s', m) && i < |s.jobs| && s'.jobs == s.jobs[..i] + s.jobs[i + 1..]
    requires forall j :: 0 <= j < |s.jobs| && j != i ==> s.jobs[j].p.msg != m
    ensures JobsHomed(s')
  {
    forall j | 0 <= j < |s'.jobs| ensures JobHomed(s', s'.jobs[j]) {
      var k := if j < i then j else j + 1;
      assert s'.jobs[j] == s.jobs[k];
      JobStaysHomed(s, s', m, s.jobs[k]);
    }
  }

  /** Job i has failed to store its result. */
  lemma FailedJobHomed(s: World, s': World, i: nat)
    requires JobsHomed(s) && s'.calls == s.calls && i < |s.jobs| && s'.jobs == Staged(s, i, ResultFailed)
    requires StageRank(s.jobs[i].stage) == 1
    ensures JobsHomed(s')
  {
    assert JobHomed(s, s.jobs[i]);
    forall j | 0 <= j < |s'.jobs| ensures JobHomed(s', s'.jobs[j]) {
      if j != i { assert s'.jobs[j] == s.jobs[j]; }
    }
  }

  lemma ReturnedJobsHomed(s: World, s': World, i: nat, rp: Payload, r: Reply, cap: int)
    requires JobsHomed(s) && Returned(s, s', i, rp, r, cap) && StageRank(s.jobs[i].stage) == 1
    requires forall j :: 0 <= j < |s.jobs| && j != i ==> s.jobs[j].p.msg != rp.msg
    ensures JobsHomed(s')
  {
    if r.Length? { RemovedJobHomed(s, s', i, rp.msg); } else { FailedJobHomed(s, s', i); }
  }

  lemma ResTrimmedElsewhere(s: World, m: Uuid, c: Uuid, r: Reply, cap: int)
    requires Homed(s) && m in s.calls && s.calls[m].conn != c
    ensures Count(TrimmedOff(ResItems(s, c), r, cap), m) == 0
  {
    var q := ResItems(s, c);
    var t := TrimmedOff(q, r, cap);
    assert forall i :: 0 <= i < |t| ==> t[i] == q[cap + i];
    CountedAt(t, m);
  }

  lemma ReturnedJobCount(s: World, s': World, i: nat, rp: Payload, r: Reply, cap: int, m: Uuid)
    requires Returned(s, s', i, rp, r, cap) && rp.msg == s.jobs[i].p.msg
    ensures JobCount(s.jobs, m) == JobCount(s'.jobs, m) + if r.Length? && rp.msg == m then 1 else 0
  {
    if r.Length? { JobAt(s.jobs, i, m); } else { JobStaged(s, i, ResultFailed, m); }
  }

  lemma ReturnedPlaces(s: World, s': World, i: nat, rp: Payload, r: Reply, cap: int, m: Uuid)
    requires Homed(s) && Returned(s, s', i, rp, r, cap) && m in s.calls
    requires rp.msg == s.jobs[i].p.msg && rp.msg in s.calls && s.calls[rp.msg].conn == rp.conn
    ensures Places(s', m) == Places(s, m)
  {
    CountAfter(ResItems(s, rp.conn), rp, r, cap, s.lost, m);
    ReturnedJobCount(s, s', i, rp, r, cap, m);
    if s.calls[m].conn != rp.conn {
      ResTrimmedElsewhere(s, m, rp.conn, r, cap);
      CountAppend(s.lost, TrimmedOff(ResItems(s, rp.conn), r, cap), m);
    }
  }

  lemma ResultsKnown(s: World, c: Uuid)
    requires Homed(s)
    ensures forall k :: 0 <= k < |ResItems(s, c)| ==> ResItems(s, c)[k].msg in s.calls
  {
  }

  lemma ReturnedLost(s: World, s': World, q: seq<Payload>, r: Reply, cap: int)
    requires forall k :: 0 <= k < |s.lost| ==> s.lost[k].msg in s.calls
    requires forall k :: 0 <= k < |q| ==> q[k].msg in s.calls
    requires s.calls.Keys <= s'.calls.Keys && s'.lost == s.lost + TrimmedOff(q, r, cap)
    ensures forall k :: 0 <= k < |s'.lost| ==> s'.lost[k].msg in s'.calls
  {
    LostKnown(s.lost, q, r, cap, s.calls.Keys);
  }

  lemma ReturnedConserved(s: World, s': World, i: nat, rp: Payload, r: Reply, cap: int)
    requires Homed(s) && Conserved(s) && Returned(s, s', i, rp, r, cap)
    requires rp.msg == s.jobs[i].p.msg && rp.conn == s.jobs[i].p.conn
    ensures Conserved(s')
  {
    ResultsKnown(s, rp.conn);
    ReturnedLost(s, s', ResItems(s, rp.conn), r, cap);
    assert Known(s, s.jobs[i].p, StageRank(s.jobs[i].stage));
    forall m | m in s'.calls ensures Places(s', m) == if s'.calls[m].accepted then 1 else 0 {
      ReturnedPlaced(s, s', i, rp, r, cap, m);
    }
  }

  lemma ReturnedPlaced(s: World, s': World, i: nat, rp: Payload, r: Reply, cap: int, m: Uuid)
    requires Homed(s) && Returned(s, s', i, rp, r, cap) && m in s.calls && m in s'.calls
    requires rp.msg == s.jobs[i].p.msg && rp.msg in s.calls && s.calls[rp.msg].conn == rp.conn
    requires Places(s, m) == if s.calls[m].accepted then 1 else 0
    ensures Places(s', m) == if s'.calls[m].accepted then 1 else 0
  {
    ReturnedPlaces(s, s', i, rp, r, cap, m);
  }

  lemma ReturnedCore(s: World, s': World, i: nat, rp: Payload, r: Reply, cap: int)
    requires Core(s) && Returned(s, s', i, rp, r, cap) && StageRank(s.jobs[i].stage) == 1
    requires rp.msg == s.jobs[i].p.msg && rp.conn == s.jobs[i].p.conn
    ensures Core(s')
  {
    SoleJob(s, i);
    ReturnedListsHomed(s, s', i, rp, r, cap);
    ReturnedJobsHomed(s, s', i, rp, r, cap);
    ReturnedConserved(s, s', i, rp, r, cap);
  }

  lemma StoreCore(s: World, a: Action)
    requires a.StoreResult? && Core(s) && Enabled(s, a)
    ensures Core(Apply(s, a))
  {
    assert Known(s, s.jobs[a.i].p, 1);
    StoreReturns(s, a);
    ReturnedCore(s, RegisterResult(s, a), a.i, ResultOf(s, a), ReplyToResult(s, a), a.cap);
  }

  /** Every action keeps every accepted call in exactly one place. */
  lemma StepCore(s: World, a: Action)
    requires Core(s) && Enabled(s, a)
    ensures Core(Apply(s, a))
  {
    match a
    case Tick(dt) => TickCore(s, dt);
    case Expire(key) => ExpireCore(s, key);
    case Receive(_, _, _, _, _, _, _) => ReceiveCore(s, a);
    case Reply(conn) => ReplyCore(s, conn);
    case PopCall(uris) => PopCallCore(s, uris);
    case ReadCallTtl(i, fault) => ReadCallCore(s, i, fault);
    case Invoke(i) => InvokeCore(s, i);
    case Return(i) => ReturnCore(s, i);
    case StoreResult(_, _, _, _) => StoreCore(s, a);
    case PopResult(conn) => PopResultCore(s, conn);
    case ReadResTtl(i, fault) => ReadResCore(s, i, fault);
    case SendRes(i) => SendCore(s, i);
  }
}
