/**
 What the actions do, told from their own arguments, the lists and the clock alone, and
 where the times that the history of a call holds come from.
 */
module ProtocolActions {
  import opened Wrappers
  import opened Keys
  import opened RedisStore
  import opened Timing
  import opened Protocol
  import opened ProtocolPlaces
  import opened ProtocolRegister
  import opened ProtocolLog
  import opened ProtocolTheorems

  // -------------------------------------------------------------- registrations

  /** A list with this capacity has no room for one more. */
  predicate Full(items: seq<Payload>, cap: int) { 0 < cap <= |items| }

  /** A registration that reaches the list either adds its item, or keeps the oldest ones up to the capacity. */
  function Offer(items: seq<Payload>, item: Payload, cap: int): seq<Payload> {
    if Full(items, cap) then items[..cap] else items + [item]
  }

  lemma ReplyExactly(d: Space<Key, Payload>, ms: int, k1: Key, k2: Key, px: int, item: Payload, cap: int)
    requires k1 != k2 && (k2 in d ==> d[k2].Queue?)
    ensures var r := Register(d, ms, k1, k2, px, item, cap).1;
      && (r.Length? <==> px > 0 && !Full(Items(d, k2), cap))
      && (r.CapacityExceeded? <==> px > 0 && Full(Items(d, k2), cap))
  {
  }

  /**
   A CALL that is received is recorded and logged as it is. It is accepted if and only if the
   broker can be reached, redis takes its timeout and its list has room; its payload is then
   the last of its list. No other list changes.
   */
  lemma ReceiveEffect(ws: seq<World>, acts: seq<Action>, n: nat)
    requires Run(ws, acts) && n < |acts| && acts[n].Receive?
    ensures var s, s', a := ws[n], ws[n + 1], acts[n];
      var p := Payload(a.conn, a.msg, a.uri, a.args);
      var reaches := !a.fault && a.timeout > -MS;
      && s'.log == s.log + [Received(a.conn, a.msg, a.uri, a.args)]
      && a.msg in s'.calls
      && s'.calls[a.msg].conn == a.conn && s'.calls[a.msg].uri == a.uri && s'.calls[a.msg].args == a.args
      && (s'.calls[a.msg].accepted <==> reaches && !Full(CallItems(s, a.uri), a.cap))
      && CallItems(s', a.uri) == (if reaches then Offer(CallItems(s, a.uri), p, a.cap) else CallItems(s, a.uri))
      && (forall u: string :: u != a.uri ==> CallItems(s', u) == CallItems(s, u))
      && (forall c: Uuid :: ResItems(s', c) == ResItems(s, c))
  {
    RunCore(ws, acts, n);
    var s, a := ws[n], acts[n];
    ReceiveOffers(s, a);
    ExpiryPositive(a.timeout);
    ReplyExactly(s.db, Millis(s), CallTimeout(a.uri, a.msg), CallList(a.uri), ExpiryMillis(a.timeout),
                 Payload(a.conn, a.msg, a.uri, a.args), a.cap);
  }

  lemma RunCore(ws: seq<World>, acts: seq<Action>, n: nat)
    requires Run(ws, acts) && n < |ws|
    ensures Core(ws[n])
  {
    RunInv(ws, acts, n);
  }

  /** What a CALL says, and what becomes of it at once, is never changed. */
  predicate SameCall(c: Call, c': Call) {
    && c'.conn == c.conn && c'.uri == c.uri && c'.args == c.args
    && c'.accepted == c.accepted && c'.deadline == c.deadline && c'.receivedAt == c.receivedAt
  }

  predicate Keeps(s: World, s': World, m: Uuid) {
    m in s.calls ==> m in s'.calls && SameCall(s.calls[m], s'.calls[m])
  }

  lemma StepKeeps(s: World, a: Action, m: Uuid)
    requires Enabled(s, a)
    ensures Keeps(s, Apply(s, a), m)
  {
  }

  lemma {:induction false} KeepsOver(ws: seq<World>, i: nat, j: nat, m: Uuid)
    requires i <= j < |ws| && forall k :: 0 <= k < |ws| - 1 ==> Keeps(ws[k], ws[k + 1], m)
    ensures Keeps(ws[i], ws[j], m)
    decreases j
  {
    if i < j {
      KeepsOver(ws, i, j - 1, m);
      assert Keeps(ws[j - 1], ws[j - 1 + 1], m);
    }
  }

  lemma CallStays(ws: seq<World>, acts: seq<Action>, i: nat, j: nat, m: Uuid)
    requires Run(ws, acts) && i <= j < |ws| && m in ws[i].calls
    ensures m in ws[j].calls && SameCall(ws[i].calls[m], ws[j].calls[m])
  {
    forall k | 0 <= k < |acts| ensures Keeps(ws[k], ws[k + 1], m) { StepKeeps(ws[k], acts[k], m); }
    KeepsOver(ws, i, j, m);
  }

  /**
   The deadline of a call, in every later state: the millisecond of its receipt plus its own
   timeout, rounded down to the millisecond, or plus a minute if it has less than one.
   */
  lemma DeadlineGranted(ws: seq<World>, acts: seq<Action>, n: nat, k: nat)
    requires Run(ws, acts) && n < k < |ws| && acts[n].Receive?
    ensures acts[n].msg in ws[k].calls
    ensures var deadline, timeout := ws[k].calls[acts[n].msg].deadline, acts[n].timeout;
      && (-MS < timeout < MS ==> deadline == ws[n].now / MS + 60_000)
      && (timeout >= MS ==> deadline == ws[n].now / MS + timeout / MS)
  {
    assert ws[n + 1] == ReceiveCall(ws[n], acts[n]);
    ExpiryGranted(acts[n].timeout);
    CallStays(ws, acts, n + 1, k, acts[n].msg);
  }

  lemma RunRemain(ws: seq<World>, acts: seq<Action>, n: nat, i: nat)
    requires Run(ws, acts) && n < |ws| && i < |ws[n].jobs| && ws[n].jobs[i].stage.Storing?
    ensures ws[n].jobs[i].stage.remain > 0
  {
    RunInv(ws, acts, n);
    var s := ws[n];
    assert StageTimed(s.calls[s.jobs[i].p.msg].deadline, s.jobs[i].stage, s.now);
  }

  /**
   A result is stored if and only if the broker can be reached and the list of the connection
   has room. It then leaves its callee, is the last of that list with what the thunk returned,
   for the connection, message and URI of its call, and is recorded and logged as that.
   Otherwise its callee gives it up.
   */
  lemma StoreEffect(ws: seq<World>, acts: seq<Action>, n: nat)
    requires Run(ws, acts) && n < |acts| && acts[n].StoreResult?
    ensures var s, s', a := ws[n], ws[n + 1], acts[n];
      var p, st := s.jobs[a.i].p, s.jobs[a.i].stage;
      var rp := Payload(p.conn, p.msg, p.uri, a.args);
      && ResItems(s', p.conn) == (if a.fault then ResItems(s, p.conn) else Offer(ResItems(s, p.conn), rp, a.cap))
      && (forall c: Uuid :: c != p.conn ==> ResItems(s', c) == ResItems(s, c))
      && (forall u: string :: CallItems(s', u) == CallItems(s, u))
      && if !a.fault && !Full(ResItems(s, p.conn), a.cap) then
           && s'.log == s.log + [Stored(p.msg, a.args)]
           && s'.jobs == s.jobs[..a.i] + s.jobs[a.i + 1..]
           && p.msg in s'.calls && s'.calls[p.msg].stored.Some?
           && var r := s'.calls[p.msg].stored.value;
              r.args == a.args && r.readAt == st.readAt && r.start == st.start && r.end == st.end && r.time == s.now
         else
           s'.log == s.log && s'.calls == s.calls && s'.jobs == s.jobs[a.i := Job(p, ResultFailed)]
  {
    RunCore(ws, acts, n);
    RunRemain(ws, acts, n, acts[n].i);
    ActorKnown(ws[n], acts[n]);
    StoreReturns(ws[n], acts[n]);
    StoreReply(ws[n], acts[n]);
    assert ws[n + 1] == RegisterResult(ws[n], acts[n]);
  }

  lemma StoreReply(s: World, a: Action)
    requires a.StoreResult? && Enabled(s, a) && Typed(s) && s.jobs[a.i].stage.remain > 0
    ensures var items, r := ResItems(s, s.jobs[a.i].p.conn), ReplyToResult(s, a);
      && (r.Length? <==> !a.fault && !Full(items, a.cap))
      && (r.CapacityExceeded? <==> !a.fault && Full(items, a.cap))
  {
    var p, st := s.jobs[a.i].p, s.jobs[a.i].stage;
    ExpiryPositive(st.remain);
    ReplyExactly(s.db, Millis(s), ResTimeout(p.conn, p.msg), ResList(p.conn), ExpiryMillis(st.remain),
                 Payload(p.conn, p.msg, p.uri, a.args), a.cap);
  }

  // ---------------------------------------------------------------------- pops

  /**
   A callee that pops gets the oldest call of the first of its lists that holds one, and takes
   it off that list; no other list changes.
   */
  lemma PopEffect(ws: seq<World>, acts: seq<Action>, n: nat) returns (q: nat)
    requires Run(ws, acts) && n < |acts| && acts[n].PopCall?
    ensures var s, s', uris := ws[n], ws[n + 1], acts[n].uris;
      && q < |uris| && CallItems(s, uris[q]) != []
      && (forall j :: 0 <= j < q ==> CallItems(s, uris[j]) == [])
      && s'.jobs == s.jobs + [Job(CallItems(s, uris[q])[0], CallPopped)]
      && CallItems(s', uris[q]) == CallItems(s, uris[q])[1..]
      && (forall u: string :: u != uris[q] ==> CallItems(s', u) == CallItems(s, u))
      && (forall c: Uuid :: ResItems(s', c) == ResItems(s, c))
  {
    q := Pops(ws[n], acts[n].uris);
    assert acts[n] == PopCall(acts[n].uris);
  }

  lemma Pops(s: World, uris: seq<string>) returns (q: nat)
    requires Enabled(s, PopCall(uris))
    ensures var s' := Apply(s, PopCall(uris));
      && q < |uris| && CallItems(s, uris[q]) != []
      && (forall j :: 0 <= j < q ==> CallItems(s, uris[j]) == [])
      && s'.jobs == s.jobs + [Job(CallItems(s, uris[q])[0], CallPopped)]
      && CallItems(s', uris[q]) == CallItems(s, uris[q])[1..]
      && (forall u: string :: u != uris[q] ==> CallItems(s', u) == CallItems(s, u))
      && (forall c: Uuid :: ResItems(s', c) == ResItems(s, c))
  {
    q := PeekFirst(s.db, Millis(s), CallKeys(uris));
    assert forall j :: 0 <= j < |uris| ==> CallItems(s, uris[j]) == Items(s.db, CallKeys(uris)[j]);
    DequeueItems(s.db, CallList(uris[q]));
  }

  lemma DequeueItems(d: Space<Key, Payload>, k: Key)
    requires Items(d, k) != []
    ensures forall k' :: Items(Dequeue(d, k), k') == if k' == k then Items(d, k)[1..] else Items(d, k')
  {
  }

  /** A connection that pops gets the oldest result of its own list. */
  lemma PopResultEffect(ws: seq<World>, acts: seq<Action>, n: nat)
    requires Run(ws, acts) && n < |acts| && acts[n].PopResult?
    ensures var s, s', conn := ws[n], ws[n + 1], acts[n].conn;
      && ResItems(s, conn) != []
      && s'.jobs == s.jobs + [Job(ResItems(s, conn)[0], ResPopped(conn))]
      && ResItems(s', conn) == ResItems(s, conn)[1..]
      && (forall c: Uuid :: c != conn ==> ResItems(s', c) == ResItems(s, c))
      && (forall u: string :: CallItems(s', u) == CallItems(s, u))
  {
    var s, conn := ws[n], acts[n].conn;
    var q := PeekFirst(s.db, Millis(s), [ResList(conn)]);
    DequeueItems(s.db, ResList(conn));
  }

  /** A broker error when the time to live is read drops the call or the result, and nothing else happens. */
  lemma FaultDrops(ws: seq<World>, acts: seq<Action>, n: nat)
    requires Run(ws, acts) && n < |acts| && (acts[n].ReadCallTtl? || acts[n].ReadResTtl?) && acts[n].fault
    ensures var s, i := ws[n], acts[n].i;
      ws[n + 1] == s.(jobs := s.jobs[i := Job(s.jobs[i].p, if acts[n].ReadCallTtl? then CallDropped else ResDropped)])
  {
  }

  // --------------------------------------------------------------------- thunks

  /**
   The end of a thunk: its result goes on to be stored if and only if the thunk took less time
   than its call had left when its time to live was read, and with exactly the difference left;
   otherwise the call is given up.
   */
  lemma ThunkEnds(ws: seq<World>, acts: seq<Action>, n: nat)
    requires Run(ws, acts) && n < |acts| && acts[n].Return?
    ensures var s, i := ws[n], acts[n].i;
      var p, st := s.jobs[i].p, s.jobs[i].stage;
      && p.msg in s.calls && st.Running? && 0 <= st.readAt <= st.start <= s.now
      && var left := (s.calls[p.msg].deadline - st.readAt / MS) * MS - (s.now - st.start);
         ws[n + 1].jobs
         == s.jobs[i := Job(p, if left > 0 then Storing(left, st.readAt, st.start, s.now) else CalleeExpired)]
  {
    RunLease(ws, acts, n, acts[n].i);
    assert acts[n] == Return(acts[n].i) && ws[n + 1] == EndThunk(ws[n], acts[n].i);
  }

  lemma RunLease(ws: seq<World>, acts: seq<Action>, n: nat, i: nat)
    requires Run(ws, acts) && n < |ws| && i < |ws[n].jobs| && ws[n].jobs[i].stage.Running?
    ensures var s, p, st := ws[n], ws[n].jobs[i].p, ws[n].jobs[i].stage;
      p.msg in s.calls && 0 <= st.readAt <= st.start <= s.now && st.ttl == Lease(s.calls[p.msg].deadline, st.readAt)
  {
    RunInv(ws, acts, n);
    var s := ws[n];
    assert StageTimed(s.calls[s.jobs[i].p.msg].deadline, s.jobs[i].stage, s.now);
  }

  /** The start of a thunk: from now on, for the call that was read, with its URI and arguments. */
  lemma ThunkStarts(ws: seq<World>, acts: seq<Action>, n: nat)
    requires Run(ws, acts) && n < |acts| && acts[n].Invoke?
    ensures var s, i := ws[n], acts[n].i;
      var p, st := s.jobs[i].p, s.jobs[i].stage;
      && st.CallReady?
      && ws[n + 1].jobs == s.jobs[i := Job(p, Running(st.ttl, st.readAt, s.now))]
      && ws[n + 1].log == s.log + [Invoked(p.msg, p.uri, p.args)]
  {
  }

  // ------------------------------------------------------------- where times are from

  /** The action of state s by which job j came to be at its stage. */
  predicate Made(s: World, a: Action, j: Job) {
    match j.stage
    case CallReady(ttl, readAt) =>
      a.ReadCallTtl? && !a.fault && a.i < |s.jobs| && s.jobs[a.i] == Job(j.p, CallPopped) && s.now == readAt
    case Running(ttl, readAt, start) =>
      a.Invoke? && a.i < |s.jobs| && s.jobs[a.i] == Job(j.p, CallReady(ttl, readAt)) && s.now == start
    case Storing(remain, readAt, start, end) =>
      && a.Return? && a.i < |s.jobs| && s.now == end
      && s.jobs[a.i] == Job(j.p, Running(remain + (end - start), readAt, start))
    case ResReady(on, checkedAt) =>
      a.ReadResTtl? && !a.fault && a.i < |s.jobs| && s.jobs[a.i] == Job(j.p, ResPopped(on)) && s.now == checkedAt
    case Sent(on, checkedAt) => a.SendRes? && a.i < |s.jobs| && s.jobs[a.i] == Job(j.p, ResReady(on, checkedAt))
    case _ => true
  }

  lemma NewJob(s: World, a: Action, j: Job)
    requires Enabled(s, a) && j in Apply(s, a).jobs && j !in s.jobs
    ensures Made(s, a, j)
  {
    var s' := Apply(s, a);
    var k :| 0 <= k < |s'.jobs| && s'.jobs[k] == j;
    if a.StoreResult? {
      assert s'.jobs == s.jobs[..a.i] + s.jobs[a.i + 1..] || s'.jobs == Staged(s, a.i, ResultFailed);
    }
  }

  /** Every time in a job is that of a step: of the read of its time to live, the start or the end of its thunk. */
  lemma {:induction false} JobMade(ws: seq<World>, acts: seq<Action>, n: nat, j: Job) returns (k: nat)
    requires Run(ws, acts) && n < |ws| && j in ws[n].jobs
    ensures k < n && j !in ws[k].jobs && j in ws[k + 1].jobs && Made(ws[k], acts[k], j)
    decreases n
  {
    if j in ws[n - 1].jobs {
      k := JobMade(ws, acts, n - 1, j);
    } else {
      k := n - 1;
      NewJob(ws[k], acts[k], j);
    }
  }
}
