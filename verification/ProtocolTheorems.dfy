/** What holds over every run of the protocol. */
module ProtocolTheorems {
  import opened Keys
  import opened RedisStore
  import opened Timing
  import opened Protocol
  import opened ProtocolPlaces
  import opened ProtocolRegister
  import opened ProtocolLog
  import opened ProtocolTime

  // -------------------------------------------------- times of the callee side

  /** The time to live of a call with this deadline, read at this time. */
  function Lease(deadline: int, readAt: int): int { (deadline - readAt / MS) * MS }

  predicate StageTimed(deadline: int, st: Stage, now: int) {
    match st
    case CallReady(ttl, readAt) =>
      0 <= readAt <= now && ttl == Lease(deadline, readAt) && ttl > 0
    case Running(ttl, readAt, start) =>
      0 <= readAt <= start <= now && ttl == Lease(deadline, readAt) && ttl > 0
    case Storing(remain, readAt, start, end) =>
      0 <= readAt <= start <= end <= now && remain == Lease(deadline, readAt) - (end - start) && remain > 0
    case _ => true
  }

  predicate ResultTimed(deadline: int, r: StoredResult, now: int) {
    var remain := Lease(deadline, r.readAt) - (r.end - r.start);
    && 0 <= r.readAt <= r.start <= r.end <= r.time <= now
    && remain > 0
    && r.deadline == r.time / MS + ExpiryMillis(remain)
  }

  ghost predicate Timed(s: World) {
    && (forall i :: 0 <= i < |s.jobs| ==>
          s.jobs[i].p.msg in s.calls && StageTimed(s.calls[s.jobs[i].p.msg].deadline, s.jobs[i].stage, s.now))
    && (forall m :: m in s.calls && s.calls[m].stored.Some? ==>
          ResultTimed(s.calls[m].deadline, s.calls[m].stored.value, s.now))
  }

  /** Time goes on, deadlines stay, and only job i and the result of its message are new. */
  ghost predicate TimesKept(s: World, s': World) {
    && s.now <= s'.now
    && (forall m :: m in s.calls ==> m in s'.calls && s'.calls[m].deadline == s.calls[m].deadline)
    && (forall m :: m in s'.calls && s'.calls[m].stored.Some? ==>
          || (m in s.calls && s'.calls[m].stored == s.calls[m].stored)
          || ResultTimed(s'.calls[m].deadline, s'.calls[m].stored.value, s'.now))
    && (forall i :: 0 <= i < |s'.jobs| ==>
          || s'.jobs[i] in s.jobs
          || (s'.jobs[i].p.msg in s'.calls
              && StageTimed(s'.calls[s'.jobs[i].p.msg].deadline, s'.jobs[i].stage, s'.now)))
  }

  lemma TimedKept(s: World, s': World)
    requires Timed(s) && TimesKept(s, s')
    ensures Timed(s')
  {
    forall i | 0 <= i < |s'.jobs|
      ensures s'.jobs[i].p.msg in s'.calls && StageTimed(s'.calls[s'.jobs[i].p.msg].deadline, s'.jobs[i].stage, s'.now)
    {
      if s'.jobs[i] in s.jobs {
        var j :| 0 <= j < |s.jobs| && s.jobs[j] == s'.jobs[i];
        assert StageTimed(s.calls[s.jobs[j].p.msg].deadline, s.jobs[j].stage, s.now);
      }
    }
    forall m | m in s'.calls && s'.calls[m].stored.Some?
      ensures ResultTimed(s'.calls[m].deadline, s'.calls[m].stored.value, s'.now)
    {
    }
  }

  /** The time to live that sendCall reads is what is left until the call's own deadline. */
  lemma PttlOfCall(s: World, i: nat)
    requires Ttls(s) && i < |s.jobs| && s.jobs[i].stage.CallPopped?
    ensures var p := s.jobs[i].p;
      && p.msg in s.calls
      && var pttl, left := Pttl(s.db, Millis(s), CallTimeout(p.uri, p.msg)), s.calls[p.msg].deadline - Millis(s);
         (pttl > 0 <==> left > 0) && (pttl > 0 ==> pttl == left)
  {
    var p := s.jobs[i].p;
    assert s.jobs[i] == Job(p, CallPopped);
    assert Waiting(s, p);
    assert CallKeyOk(s, p);
  }

  lemma PttlOfResult(s: World, i: nat)
    requires Ttls(s) && i < |s.jobs| && s.jobs[i].stage.ResPopped? && OnOwnConn(s.jobs[i])
    ensures var p := s.jobs[i].p;
      && p.msg in s.calls && s.calls[p.msg].stored.Some?
      && (Pttl(s.db, Millis(s), ResTimeout(p.conn, p.msg)) > 0 <==> Millis(s) < s.calls[p.msg].stored.value.deadline)
  {
    var p := s.jobs[i].p;
    assert s.jobs[i] == Job(p, ResPopped(p.conn));
    assert ResWaiting(s, p);
    assert ResKeyOk(s, p);
  }

  lemma StagedIn(s: World, i: nat, st: Stage, j: nat)
    requires i < |s.jobs| && j < |s.jobs| && j != i
    ensures Staged(s, i, st)[j] in s.jobs
  {
    assert Staged(s, i, st)[j] == s.jobs[j];
  }

  /** An action that only moves job i to another stage, on time. */
  lemma MovedTimed(s: World, s': World, i: nat)
    requires Timed(s) && i < |s.jobs| && s'.now == s.now && s'.calls.Keys == s.calls.Keys
    requires forall m :: m in s.calls ==>
      s'.calls[m].deadline == s.calls[m].deadline && s'.calls[m].stored == s.calls[m].stored
    requires |s'.jobs| == |s.jobs| && s'.jobs == Staged(s, i, s'.jobs[i].stage)
    requires s.jobs[i].p.msg in s.calls && StageTimed(s.calls[s.jobs[i].p.msg].deadline, s'.jobs[i].stage, s.now)
    ensures Timed(s')
  {
    forall j | 0 <= j < |s.jobs| && j != i ensures s'.jobs[j] in s.jobs { StagedIn(s, i, s'.jobs[i].stage, j); }
    TimedKept(s, s');
  }

  lemma ReadTimed(s: World, a: Action)
    requires Timed(s) && Ttls(s) && Enabled(s, a) && a.ReadCallTtl?
    ensures Timed(Apply(s, a))
  {
    PttlOfCall(s, a.i);
    MovedTimed(s, Apply(s, a), a.i);
  }

  lemma ThunkTimed(s: World, a: Action)
    requires Timed(s) && Enabled(s, a) && (a.Return? || a.Invoke?)
    ensures Timed(Apply(s, a))
  {
    assert StageTimed(s.calls[s.jobs[a.i].p.msg].deadline, s.jobs[a.i].stage, s.now);
    MovedTimed(s, Apply(s, a), a.i);
  }

  lemma StoredTimed(s: World, a: Action)
    requires Timed(s) && Enabled(s, a) && a.StoreResult? && ReplyToResult(s, a).Length?
    ensures Timed(RegisterResult(s, a))
  {
    var s', p := RegisterResult(s, a), s.jobs[a.i].p;
    assert StageTimed(s.calls[p.msg].deadline, s.jobs[a.i].stage, s.now);
    forall j | 0 <= j < |s'.jobs| ensures s'.jobs[j] in s.jobs {
      assert s'.jobs[j] == if j < a.i then s.jobs[j] else s.jobs[j + 1];
    }
    TimedKept(s, s');
  }

  lemma StoreTimed(s: World, a: Action)
    requires Timed(s) && Enabled(s, a) && a.StoreResult?
    ensures Timed(RegisterResult(s, a))
  {
    if ReplyToResult(s, a).Length? {
      StoredTimed(s, a);
    } else {
      MovedTimed(s, RegisterResult(s, a), a.i);
    }
  }

  lemma PopTimed(s: World, a: Action)
    requires Homed(s) && Timed(s) && Enabled(s, a) && (a.PopCall? || a.PopResult?)
    ensures Timed(Apply(s, a))
  {
    var s' := Apply(s, a);
    PoppedKnown(s, a);
    forall j | 0 <= j < |s.jobs| ensures s'.jobs[j] in s.jobs { assert s'.jobs[j] == s.jobs[j]; }
    TimedKept(s, s');
  }

  lemma OtherTimed(s: World, a: Action)
    requires Timed(s) && Enabled(s, a)
    requires a.Tick? || a.Expire? || a.Receive? || a.Reply? || a.ReadResTtl? || a.SendRes?
    ensures Timed(Apply(s, a))
  {
    var s' := Apply(s, a);
    if a.ReadResTtl? || a.SendRes? {
      forall j | 0 <= j < |s.jobs| && j != a.i ensures s'.jobs[j] in s.jobs {
        StagedIn(s, a.i, s'.jobs[a.i].stage, j);
      }
    } else {
      assert s'.jobs == s.jobs;
    }
    TimedKept(s, s');
  }

  lemma PoppedKnown(s: World, a: Action)
    requires Homed(s) && Enabled(s, a) && (a.PopCall? || a.PopResult?)
    ensures var s' := Apply(s, a);
      |s'.jobs| == |s.jobs| + 1 && s'.jobs[|s.jobs|].p.msg in s.calls
      && (s'.jobs[|s.jobs|].stage.CallPopped? || s'.jobs[|s.jobs|].stage.ResPopped?)
  {
    if a.PopCall? {
      var p := Peek(s.db, Millis(s), CallKeys(a.uris));
      assert p.item == CallItems(s, p.key.uri)[0];
    } else {
      var p := Peek(s.db, Millis(s), [ResList(a.conn)]);
      assert p.item == ResItems(s, a.conn)[0];
    }
  }

  lemma StepTimed(s: World, a: Action)
    requires Homed(s) && Ttls(s) && Timed(s) && Enabled(s, a)
    ensures Timed(Apply(s, a))
  {
    if a.ReadCallTtl? {
      ReadTimed(s, a);
    } else if a.Return? || a.Invoke? {
      ThunkTimed(s, a);
    } else if a.StoreResult? {
      StoreTimed(s, a);
    } else if a.PopCall? || a.PopResult? {
      PopTimed(s, a);
    } else {
      OtherTimed(s, a);
    }
  }

  // ---------------------------------------------------------------- every run

  ghost predicate Inv(s: World) { Core(s) && Logged(s) && Answering(s) && Ttls(s) && Timed(s) }

  lemma InitInv()
    ensures Inv(Init())
  {
  }

  lemma StepInv(s: World, a: Action)
    requires Inv(s) && Enabled(s, a)
    ensures Inv(Apply(s, a))
  {
    StepCore(s, a);
    StepLogged(s, a);
    StepAnswering(s, a);
    StepTtls(s, a);
    StepTimed(s, a);
  }

  lemma {:induction false} RunInv(ws: seq<World>, acts: seq<Action>, n: nat)
    requires Run(ws, acts) && n < |ws|
    ensures Inv(ws[n])
    decreases n
  {
    if n == 0 {
      InitInv();
    } else {
      RunInv(ws, acts, n - 1);
      StepInv(ws[n - 1], acts[n - 1]);
    }
  }

  /**
   Conservation: in every state of every run a CALL that was accepted is in exactly one
   place (a list, a job at one stage, or trimmed), and one that was refused is in none.
   */
  lemma Conservation(ws: seq<World>, acts: seq<Action>, n: nat, m: Uuid)
    requires Run(ws, acts) && n < |ws| && m in ws[n].calls
    ensures Places(ws[n], m) == if ws[n].calls[m].accepted then 1 else 0
  {
    RunInv(ws, acts, n);
  }

  /**
   Routing: every RES sent on a connection answers a CALL received earlier on that same
   connection, with its message UUID and URI; the callee was invoked in between with the
   arguments of that CALL, and the RES carries what the callee then stored.
   */
  lemma Routing(ws: seq<World>, acts: seq<Action>, n: nat, j: nat) returns (args: string, r: nat, v: nat, t: nat)
    requires Run(ws, acts) && n < |ws| && j < |ws[n].log| && ws[n].log[j].ResSent?
    ensures var log, e := ws[n].log, ws[n].log[j];
      && r < v < t < j
      && log[r] == Received(e.conn, e.msg, e.uri, args)
      && log[v] == Invoked(e.msg, e.uri, args)
      && log[t] == Stored(e.msg, e.args)
  {
    RunLogged(ws, acts, n);
    args, r, v, t := Traced(ws[n], j);
  }

  lemma RunLogged(ws: seq<World>, acts: seq<Action>, n: nat)
    requires Run(ws, acts) && n < |ws|
    ensures Logged(ws[n])
  {
    RunInv(ws, acts, n);
  }

  lemma Traced(s: World, j: nat) returns (args: string, r: nat, v: nat, t: nat)
    requires Logged(s) && j < |s.log| && s.log[j].ResSent?
    ensures var log, e := s.log, s.log[j];
      && r < v < t < j
      && log[r] == Received(e.conn, e.msg, e.uri, args)
      && log[v] == Invoked(e.msg, e.uri, args)
      && log[t] == Stored(e.msg, e.args)
  {
    var m := s.log[j].msg;
    assert Accounted(s, j) && Told(s, m);
    var c := s.calls[m];
    args, r, v, t := c.args, c.receivedAt, c.invokedAt.value, c.stored.value.at;
  }

  /** Events of one kind; an ACK and a NACK are both replies. */
  function Kind(e: Event): nat {
    match e
    case Received(_, _, _, _) => 0
    case Acked(_, _) => 1
    case Nacked(_, _) => 1
    case Invoked(_, _, _) => 2
    case Stored(_, _) => 3
    case ResSent(_, _, _, _) => 4
  }

  /** At most once: a CALL is answered, invoked, stored and sent a RES at most once each. */
  lemma AtMostOnce(ws: seq<World>, acts: seq<Action>, n: nat, i: nat, j: nat)
    requires Run(ws, acts) && n < |ws| && i < |ws[n].log| && j < |ws[n].log|
    requires ws[n].log[i].msg == ws[n].log[j].msg && Kind(ws[n].log[i]) == Kind(ws[n].log[j])
    ensures i == j
  {
    RunLogged(ws, acts, n);
    assert Accounted(ws[n], i) && Accounted(ws[n], j);
  }

  /** A refused CALL is never invoked and never gets a RES, in any order of events. */
  lemma RefusedGetsNothing(ws: seq<World>, acts: seq<Action>, n: nat, i: nat, j: nat)
    requires Run(ws, acts) && n < |ws| && i < |ws[n].log| && j < |ws[n].log|
    requires ws[n].log[i].Nacked? && ws[n].log[j].msg == ws[n].log[i].msg
    ensures Kind(ws[n].log[j]) <= 1
  {
    RunLogged(ws, acts, n);
    var s := ws[n];
    assert Accounted(s, i) && Accounted(s, j) && Told(s, s.log[i].msg);
  }

  /**
   One reply: a CALL has been answered exactly when its connection's receive loop is done
   with it, on its own connection; the answer is ACK exactly if its payload was enqueued.
   */
  lemma OneReply(ws: seq<World>, acts: seq<Action>, n: nat, m: Uuid)
    requires Run(ws, acts) && n < |ws| && m in ws[n].calls
    ensures var s, c := ws[n], ws[n].calls[m];
      && (c.repliedAt.None? <==> c.conn in s.unreplied && s.unreplied[c.conn] == m)
      && (c.repliedAt.Some? ==>
            && c.repliedAt.value < |s.log|
            && s.log[c.repliedAt.value] == if Places(s, m) == 1 then Acked(c.conn, m) else Nacked(c.conn, m))
  {
    RunInv(ws, acts, n);
    assert Told(ws[n], m);
  }

  lemma RunTtls(ws: seq<World>, acts: seq<Action>, n: nat)
    requires Run(ws, acts) && n < |ws|
    ensures Ttls(ws[n])
  {
    RunInv(ws, acts, n);
  }

  lemma CheckedCall(s: World, i: nat)
    requires Ttls(s) && Enabled(s, ReadCallTtl(i, false))
    ensures var p := s.jobs[i].p;
      && p.msg in s.calls
      && var left := s.calls[p.msg].deadline - Millis(s);
         CheckCall(s, i, false).jobs[i] == Job(p, if left > 0 then CallReady(left * MS, s.now) else CallDropped)
  {
    PttlOfCall(s, i);
  }

  /**
   TTL: without a broker error a popped call goes on to the callee exactly when its PTTL
   is read before its deadline, and with exactly the time that is left.
   */
  lemma DeliveredInTime(ws: seq<World>, acts: seq<Action>, n: nat)
    requires Run(ws, acts) && n < |acts| && acts[n].ReadCallTtl? && !acts[n].fault
    ensures var i := acts[n].i;
      var p := ws[n].jobs[i].p;
      && p.msg in ws[n].calls
      && var left := ws[n].calls[p.msg].deadline - Millis(ws[n]);
         ws[n + 1].jobs[i] == Job(p, if left > 0 then CallReady(left * MS, ws[n].now) else CallDropped)
  {
    RunTtls(ws, acts, n);
    assert acts[n] == ReadCallTtl(acts[n].i, false) && ws[n + 1] == CheckCall(ws[n], acts[n].i, false);
    CheckedCall(ws[n], acts[n].i);
  }

  /** The same for a result and its connection. */
  lemma ResultInTime(ws: seq<World>, acts: seq<Action>, n: nat)
    requires Run(ws, acts) && n < |acts| && acts[n].ReadResTtl? && !acts[n].fault
    ensures var i := acts[n].i;
      var p := ws[n].jobs[i].p;
      && p.msg in ws[n].calls && ws[n].calls[p.msg].stored.Some?
      && ws[n + 1].jobs[i] == Job(p, if Millis(ws[n]) < ws[n].calls[p.msg].stored.value.deadline
                                     then ResReady(p.conn, ws[n].now) else ResDropped)
  {
    RunInv(ws, acts, n);
    var s, i := ws[n], acts[n].i;
    assert OnOwnConn(s.jobs[i]);
    PttlOfResult(s, i);
  }

  // -------------------------------------------------------------------- drift

  /** What is left of the lease when the thunk has ended. */
  function Remain(d: int, r: StoredResult): int { Lease(d, r.readAt) - (r.end - r.start) }

  /** The deadline of the call, put off by the wait before the thunk and by the wait before the result script. */
  function PutOff(d: int, r: StoredResult): int { d * MS + (r.start - r.readAt) + (r.time - r.end) }

  lemma Parts(x: int)
    ensures x == x / MS * MS + x % MS && 0 <= x % MS < MS
  {
  }

  lemma SameParts(x: int, k: int)
    ensures (k * MS + x) % MS == x % MS
  {
  }

  lemma DriftArithmetic(d: int, r: StoredResult)
    requires Remain(d, r) >= MS && r.deadline == r.time / MS + ExpiryMillis(Remain(d, r))
    ensures r.deadline * MS == PutOff(d, r) + r.readAt % MS - r.time % MS - (r.start - r.end) % MS
  {
    Parts(Remain(d, r));
    Parts(r.readAt);
    Parts(r.time);
    SameParts(r.start - r.end, d - r.readAt / MS);
    assert ExpiryMillis(Remain(d, r)) == Remain(d, r) / MS;
  }

  lemma DefaultArithmetic(d: int, r: StoredResult)
    requires 0 < Remain(d, r) < MS && r.deadline == r.time / MS + 60_000
    ensures r.deadline * MS > PutOff(d, r)
  {
    Parts(r.readAt);
    Parts(r.time);
  }

  lemma RunTimed(ws: seq<World>, acts: seq<Action>, n: nat, m: Uuid)
    requires Run(ws, acts) && n < |ws| && m in ws[n].calls && ws[n].calls[m].stored.Some?
    ensures ResultTimed(ws[n].calls[m].deadline, ws[n].calls[m].stored.value, ws[n].now)
  {
    RunInv(ws, acts, n);
  }

  /**
   Drift, exactly: when the callee finishes with at least a millisecond left, the result
   expires at the put-off deadline of the call, plus the part of a millisecond that redis
   had not counted when the call was read, less the parts that it had counted when the
   result was stored and that the broker rounds off; with less left, it gets the default
   timeout in full. All of it stays within three milliseconds.
   */
  lemma DeadlineDrift(ws: seq<World>, acts: seq<Action>, n: nat, m: Uuid)
    requires Run(ws, acts) && n < |ws| && m in ws[n].calls && ws[n].calls[m].stored.Some?
    ensures var d, r := ws[n].calls[m].deadline, ws[n].calls[m].stored.value;
      && 0 < Remain(d, r)
      && 0 <= r.readAt <= r.start <= r.end <= r.time
      && (Remain(d, r) >= MS ==>
            && r.deadline * MS == PutOff(d, r) + r.readAt % MS - r.time % MS - (r.start - r.end) % MS
            && PutOff(d, r) - 2 * MS < r.deadline * MS < PutOff(d, r) + MS)
      && (Remain(d, r) < MS ==> r.deadline == r.time / MS + 60_000)
  {
    RunTimed(ws, acts, n, m);
    var d, r := ws[n].calls[m].deadline, ws[n].calls[m].stored.value;
    ExpiryPositive(Remain(d, r));
    if Remain(d, r) >= MS {
      DriftArithmetic(d, r);
      Parts(r.readAt);
      Parts(r.time);
      Parts(r.start - r.end);
    }
  }

  /** Exactly when a result expires no later than the deadline of its call put off by the two waits. */
  lemma NoLaterThanPutOff(ws: seq<World>, acts: seq<Action>, n: nat, m: Uuid)
    requires Run(ws, acts) && n < |ws| && m in ws[n].calls && ws[n].calls[m].stored.Some?
    ensures var d, r := ws[n].calls[m].deadline, ws[n].calls[m].stored.value;
      r.deadline * MS <= PutOff(d, r)
      <==> Remain(d, r) >= MS && r.readAt % MS <= r.time % MS + (r.start - r.end) % MS
  {
    DeadlineDrift(ws, acts, n, m);
    var d, r := ws[n].calls[m].deadline, ws[n].calls[m].stored.value;
    if Remain(d, r) < MS { DefaultArithmetic(d, r); }
  }

  lemma Extended(ws: seq<World>, acts: seq<Action>, a: Action) returns (ws': seq<World>, acts': seq<Action>)
    requires Run(ws, acts) && Enabled(ws[|acts|], a)
    ensures Run(ws', acts') && acts' == acts + [a] && ws' == ws + [Apply(ws[|acts|], a)]
  {
    ws', acts' := ws + [Apply(ws[|acts|], a)], acts + [a];
  }

  /** No CALL but m is received. */
  predicate OnlyReceives(acts: seq<Action>, m: Uuid) {
    forall i :: 0 <= i < |acts| && acts[i].Receive? ==> acts[i].msg == m
  }

  /** A call with ten milliseconds, waiting in its list a nanosecond before the first of them is over. */
  lemma RoundedCall(c: Uuid, m: Uuid) returns (ws: seq<World>, acts: seq<Action>)
    ensures Run(ws, acts) && OnlyReceives(acts, m)
    ensures var s := ws[|acts|];
      && s.now == MS - 1 && s.jobs == [] && m in s.calls && s.calls[m].deadline == 10
      && s.db == map[CallTimeout("", m) := Expiring(10), CallList("") := Queue([Payload(c, m, "", "")])]
  {
    var p := Payload(c, m, "", "");
    assert ExpiryMillis(10 * MS) == 10 && [] + [p] == [p];
    ws, acts := [Init()], [];
    ws, acts := Extended(ws, acts, Receive(c, m, "", "", 10 * MS, 0, false));
    ws, acts := Extended(ws, acts, Tick(MS - 1));
  }

  /** That call at the callee, which still has all ten milliseconds: redis has not counted the first. */
  lemma RoundedRead(c: Uuid, m: Uuid) returns (ws: seq<World>, acts: seq<Action>)
    ensures Run(ws, acts) && OnlyReceives(acts, m)
    ensures var s := ws[|acts|];
      && s.now == MS - 1 && m in s.calls && s.calls[m].deadline == 10 && s.db == map[]
      && s.jobs == [Job(Payload(c, m, "", ""), CallReady(10 * MS, MS - 1))]
  {
    ws, acts := RoundedCall(c, m);
    assert CallKeys([""])[0] == CallList("");
    ws, acts := Extended(ws, acts, PopCall([""]));
    ws, acts := Extended(ws, acts, ReadCallTtl(0, false));
  }

  /** The rounding is real: in this run a result outlives the put-off deadline by a millisecond less a nanosecond. */
  lemma DriftRounds(c: Uuid, m: Uuid) returns (ws: seq<World>, acts: seq<Action>)
    ensures Run(ws, acts)
    ensures var s := ws[|acts|];
      && m in s.calls && s.calls[m].stored.Some?
      && var d, r := s.calls[m].deadline, s.calls[m].stored.value;
         r.deadline * MS == PutOff(d, r) + MS - 1
  {
    assert ExpiryMillis(10 * MS) == 10;
    ws, acts := RoundedRead(c, m);
    ws, acts := Extended(ws, acts, Invoke(0));
    ws, acts := Extended(ws, acts, Return(0));
    ws, acts := Extended(ws, acts, Tick(1));
    ws, acts := Extended(ws, acts, StoreResult(0, "", 0, false));
  }

  // ----------------------------------------------------------------- capacity

  /** Every registration of calls uses one capacity, and every registration of results one. */
  predicate FixedCaps(a: Action, callCap: int, resCap: int) {
    (a.Receive? ==> a.cap == callCap) && (a.StoreResult? ==> a.cap == resCap)
  }

  ghost predicate WithinCaps(s: World, callCap: int, resCap: int) {
    && (callCap > 0 ==> forall u: string :: |CallItems(s, u)| <= callCap)
    && (resCap > 0 ==> forall c: Uuid :: |ResItems(s, c)| <= resCap)
    && s.lost == []
  }

  lemma ReceiveWithinCaps(s: World, a: Action, callCap: int, resCap: int)
    requires Typed(s) && WithinCaps(s, callCap, resCap) && a.Receive? && a.cap == callCap
    ensures WithinCaps(ReceiveCall(s, a), callCap, resCap)
  {
    ReceiveOffers(s, a);
    if !a.fault {
      AfterWithin(s.db, Millis(s), CallTimeout(a.uri, a.msg), CallList(a.uri), ExpiryMillis(a.timeout),
                  Payload(a.conn, a.msg, a.uri, a.args), a.cap);
    }
  }

  lemma StoreWithinCaps(s: World, a: Action, callCap: int, resCap: int)
    requires Homed(s) && Typed(s) && WithinCaps(s, callCap, resCap)
    requires a.StoreResult? && Enabled(s, a) && a.cap == resCap
    ensures WithinCaps(RegisterResult(s, a), callCap, resCap)
  {
    ActorKnown(s, a);
    StoreReturns(s, a);
    var p := s.jobs[a.i].p;
    if !a.fault {
      AfterWithin(s.db, Millis(s), ResTimeout(p.conn, p.msg), ResList(p.conn),
                  ExpiryMillis(s.jobs[a.i].stage.remain), ResultOf(s, a), a.cap);
    }
  }

  lemma StepWithinCaps(s: World, a: Action, callCap: int, resCap: int)
    requires Homed(s) && Typed(s) && WithinCaps(s, callCap, resCap) && Enabled(s, a) && FixedCaps(a, callCap, resCap)
    ensures WithinCaps(Apply(s, a), callCap, resCap)
  {
    if a.Receive? {
      ReceiveWithinCaps(s, a, callCap, resCap);
    } else if a.StoreResult? {
      StoreWithinCaps(s, a, callCap, resCap);
    } else {
      ShorterLists(s, a);
    }
  }

  lemma AfterWithin(d: Space<Key, Payload>, ms: int, k1: Key, k2: Key, px: int, item: Payload, cap: int)
    requires k1 != k2 && (cap > 0 ==> |Items(d, k2)| <= cap)
    ensures var r := Register(d, ms, k1, k2, px, item, cap).1;
      && (cap > 0 ==> |After(Items(d, k2), item, r, cap)| <= cap)
      && TrimmedOff(Items(d, k2), r, cap) == []
  {
  }

  lemma ShorterLists(s: World, a: Action)
    requires Typed(s) && Enabled(s, a) && !a.Receive? && !a.StoreResult?
    ensures var s' := Apply(s, a);
      && (forall u: string :: |CallItems(s', u)| <= |CallItems(s, u)|)
      && (forall c: Uuid :: |ResItems(s', c)| <= |ResItems(s, c)|)
      && s'.lost == s.lost
  {
    forall k: Key | k.CallList? || k.ResList? ensures |Items(Apply(s, a).db, k)| <= |Items(s.db, k)| {}
  }

  /** With one capacity for each kind of list, no list outgrows it and no accepted call is ever trimmed. */
  lemma {:induction false} NothingTrimmed(ws: seq<World>, acts: seq<Action>, n: nat, callCap: int, resCap: int)
    requires Run(ws, acts) && n < |ws|
    requires forall i :: 0 <= i < |acts| ==> FixedCaps(acts[i], callCap, resCap)
    ensures WithinCaps(ws[n], callCap, resCap)
    decreases n
  {
    if n > 0 {
      NothingTrimmed(ws, acts, n - 1, callCap, resCap);
      RunInv(ws, acts, n - 1);
      StepWithinCaps(ws[n - 1], acts[n - 1], callCap, resCap);
    }
  }

  /** Exactly which registrations of calls trim accepted calls: those that find a list longer than their capacity. */
  lemma CallTrims(s: World, a: Action)
    requires Typed(s) && a.Receive? && Enabled(s, a)
    ensures ReceiveCall(s, a).lost != s.lost
       <==> !a.fault && a.timeout > -MS && 0 < a.cap < |CallItems(s, a.uri)|
  {
    ExpiryPositive(a.timeout);
    var q := CallItems(s, a.uri);
    if 0 < a.cap < |q| { assert |s.lost + q[a.cap..]| > |s.lost|; }
  }

  /** The same for results. */
  lemma ResultTrims(s: World, a: Action)
    requires Typed(s) && a.StoreResult? && Enabled(s, a)
    ensures var p, st := s.jobs[a.i].p, s.jobs[a.i].stage;
      RegisterResult(s, a).lost != s.lost <==> !a.fault && st.remain > -MS && 0 < a.cap < |ResItems(s, p.conn)|
  {
    ExpiryPositive(s.jobs[a.i].stage.remain);
    var q := ResItems(s, s.jobs[a.i].p.conn);
    if 0 < a.cap < |q| { assert |s.lost + q[a.cap..]| > |s.lost|; }
  }

  /** Two accepted calls in one list, by a broker without a capacity. */
  lemma TwoAccepted(c: seq<Uuid>, m: seq<Uuid>) returns (ws: seq<World>, acts: seq<Action>)
    requires |c| == |m| == 3 && c[0] != c[1] && m[0] != m[1]
    ensures Run(ws, acts)
    ensures var s := ws[|acts|];
      && s.calls.Keys == {m[0], m[1]} && s.calls[m[1]].accepted && s.unreplied.Keys == {c[0], c[1]} && s.lost == []
      && CallItems(s, "") == [Payload(c[0], m[0], "", ""), Payload(c[1], m[1], "", "")]
  {
    ExpiryPositive(0);
    ws, acts := [Init()], [];
    ws, acts := Extended(ws, acts, Receive(c[0], m[0], "", "", 0, 0, false));
    ws, acts := Extended(ws, acts, Receive(c[1], m[1], "", "", 0, 0, false));
  }

  /** With brokers of different capacities it does happen: the third call trims the second, which was accepted. */
  lemma MixedCapsTrim(c: seq<Uuid>, m: seq<Uuid>) returns (ws: seq<World>, acts: seq<Action>)
    requires |c| == |m| == 3 && c[0] != c[1] && m[0] != m[1]
    requires c[2] !in c[..2] && m[2] !in m[..2]
    ensures Run(ws, acts)
    ensures var s := ws[|acts|];
      m[1] in s.calls && s.calls[m[1]].accepted && s.lost == [Payload(c[1], m[1], "", "")]
  {
    ExpiryPositive(0);
    ws, acts := TwoAccepted(c, m);
    assert c[..2] == [c[0], c[1]] && m[..2] == [m[0], m[1]];
    ws, acts := Extended(ws, acts, Receive(c[2], m[2], "", "", 0, 1, false));
  }
}
