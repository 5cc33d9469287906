/** When a RES is sent: before the deadline of its result, but not always before that of its call. */
module ProtocolResults {
  import opened Wrappers
  import opened Keys
  import opened RedisStore
  import opened Timing
  import opened Protocol
  import opened ProtocolPlaces
  import opened ProtocolRegister
  import opened ProtocolLog
  import opened ProtocolTime
  import opened ProtocolTheorems

  /** At time t, after it was stored and no later than now, the result of m had not expired. */
  predicate InTime(s: World, m: Uuid, t: int) {
    && m in s.calls && s.calls[m].stored.Some?
    && s.calls[m].stored.value.time <= t <= s.now
    && t / MS < s.calls[m].stored.value.deadline
  }

  predicate CallChecked(s: World, m: Uuid)
    requires m in s.calls
  {
    var c := s.calls[m];
    (c.sentAt.Some? <==> c.checkedAt.Some?) && (c.checkedAt.Some? ==> InTime(s, m, c.checkedAt.value))
  }

  predicate JobChecked(s: World, j: Job) { j.stage.ResReady? ==> InTime(s, j.p.msg, j.stage.checkedAt) }

  ghost predicate Checked(s: World) {
    && (forall m :: m in s.calls ==> CallChecked(s, m))
    && (forall i :: 0 <= i < |s.jobs| ==> JobChecked(s, s.jobs[i]))
  }

  /** Time goes on, and the result of m, if it has one, stays. */
  predicate ResultStays(s: World, s': World, m: Uuid) {
    && s.now <= s'.now
    && m in s.calls && m in s'.calls
    && (s.calls[m].stored.Some? ==> s'.calls[m].stored == s.calls[m].stored)
  }

  lemma CheckedKept(s: World, s': World)
    requires Checked(s)
    requires forall m :: m in s.calls ==> ResultStays(s, s', m)
    requires forall m :: m in s'.calls ==>
      || (m in s.calls && s'.calls[m].sentAt == s.calls[m].sentAt && s'.calls[m].checkedAt == s.calls[m].checkedAt)
      || CallChecked(s', m)
    requires forall j :: 0 <= j < |s'.jobs| ==> s'.jobs[j] in s.jobs || JobChecked(s', s'.jobs[j])
    ensures Checked(s')
  {
    forall m | m in s'.calls ensures CallChecked(s', m) {
      if m in s.calls { assert CallChecked(s, m) && ResultStays(s, s', m); }
    }
    forall j | 0 <= j < |s'.jobs| ensures JobChecked(s', s'.jobs[j]) {
      if s'.jobs[j] in s.jobs {
        var i :| 0 <= i < |s.jobs| && s.jobs[i] == s'.jobs[j];
        assert JobChecked(s, s.jobs[i]);
      }
    }
  }

  /** The other jobs of an action that moves job i. */
  lemma OthersStay(s: World, i: nat, st: Stage)
    requires i < |s.jobs|
    ensures forall j :: 0 <= j < |s.jobs| && j != i ==> Staged(s, i, st)[j] in s.jobs
  {
    forall j | 0 <= j < |s.jobs| && j != i ensures Staged(s, i, st)[j] in s.jobs { StagedIn(s, i, st, j); }
  }

  lemma CheckChecked(s: World, i: nat, fault: bool)
    requires Homed(s) && Ttls(s) && Timed(s) && Checked(s) && Enabled(s, ReadResTtl(i, fault))
    ensures Checked(CheckResult(s, i, fault))
  {
    var s' := CheckResult(s, i, fault);
    assert OnOwnConn(s.jobs[i]);
    PttlOfResult(s, i);
    OthersStay(s, i, s'.jobs[i].stage);
    var m := s.jobs[i].p.msg;
    assert ResultTimed(s.calls[m].deadline, s.calls[m].stored.value, s.now);
    CheckedKept(s, s');
  }

  lemma EmitChecked(s: World, i: nat)
    requires Homed(s) && Checked(s) && Enabled(s, SendRes(i))
    ensures Checked(EmitRes(s, i))
  {
    var s', m := EmitRes(s, i), s.jobs[i].p.msg;
    assert JobChecked(s, s.jobs[i]);
    assert CallChecked(s', m);
    OthersStay(s, i, s'.jobs[i].stage);
    CheckedKept(s, s');
  }

  lemma StoreChecked(s: World, a: Action)
    requires Homed(s) && Checked(s) && a.StoreResult? && Enabled(s, a)
    ensures Checked(RegisterResult(s, a))
  {
    var s' := RegisterResult(s, a);
    ActorKnown(s, a);
    if ReplyToResult(s, a).Length? {
      forall j | 0 <= j < |s'.jobs| ensures s'.jobs[j] in s.jobs {
        assert s'.jobs[j] == if j < a.i then s.jobs[j] else s.jobs[j + 1];
      }
    } else {
      OthersStay(s, a.i, ResultFailed);
    }
    CheckedKept(s, s');
  }

  lemma MoveChecked(s: World, a: Action)
    requires Checked(s) && Enabled(s, a) && (a.ReadCallTtl? || a.Invoke? || a.Return?)
    ensures Checked(Apply(s, a))
  {
    var s' := Apply(s, a);
    OthersStay(s, a.i, s'.jobs[a.i].stage);
    CheckedKept(s, s');
  }

  lemma PopChecked(s: World, a: Action)
    requires Checked(s) && Enabled(s, a) && (a.PopCall? || a.PopResult?)
    ensures Checked(Apply(s, a))
  {
    var s' := Apply(s, a);
    forall j | 0 <= j < |s.jobs| ensures s'.jobs[j] in s.jobs { assert s'.jobs[j] == s.jobs[j]; }
    CheckedKept(s, s');
  }

  lemma OtherChecked(s: World, a: Action)
    requires Checked(s) && Enabled(s, a) && (a.Tick? || a.Expire? || a.Receive? || a.Reply?)
    ensures Checked(Apply(s, a))
  {
    var s' := Apply(s, a);
    assert s'.jobs == s.jobs;
    CheckedKept(s, s');
  }

  lemma StepChecked(s: World, a: Action)
    requires Homed(s) && Ttls(s) && Timed(s) && Checked(s) && Enabled(s, a)
    ensures Checked(Apply(s, a))
  {
    if a.ReadResTtl? {
      CheckChecked(s, a.i, a.fault);
    } else if a.SendRes? {
      EmitChecked(s, a.i);
    } else if a.StoreResult? {
      StoreChecked(s, a);
    } else if a.PopCall? || a.PopResult? {
      PopChecked(s, a);
    } else if a.ReadCallTtl? || a.Invoke? || a.Return? {
      MoveChecked(s, a);
    } else {
      OtherChecked(s, a);
    }
  }

  lemma {:induction false} RunChecked(ws: seq<World>, acts: seq<Action>, n: nat)
    requires Run(ws, acts) && n < |ws|
    ensures Checked(ws[n])
    decreases n
  {
    if n > 0 {
      RunChecked(ws, acts, n - 1);
      RunInv(ws, acts, n - 1);
      StepChecked(ws[n - 1], acts[n - 1]);
    }
  }

  /** Every RES that is sent had its time to live read after its result was stored and before that expired. */
  lemma ResSentInTime(ws: seq<World>, acts: seq<Action>, n: nat, j: nat)
    requires Run(ws, acts) && n < |ws| && j < |ws[n].log| && ws[n].log[j].ResSent?
    ensures var s, m := ws[n], ws[n].log[j].msg;
      && m in s.calls && s.calls[m].sentAt == Some(j) && s.calls[m].stored.Some? && s.calls[m].checkedAt.Some?
      && s.calls[m].stored.value.time <= s.calls[m].checkedAt.value <= s.now
      && s.calls[m].checkedAt.value / MS < s.calls[m].stored.value.deadline
  {
    RunLogged(ws, acts, n);
    assert Accounted(ws[n], j);
    RunChecked(ws, acts, n);
  }

  /**
   A result that is not sent back before the timeout of its call is documented to be dropped.
   A result is dropped from its own deadline on, so for this one that is so, whenever its time
   to live is read, if and only if the two waits that are not charged to the call are made up
   for by the rounding, and the default timeout was not used.
   */
  lemma ExpiresWithCall(ws: seq<World>, acts: seq<Action>, n: nat, m: Uuid)
    requires Run(ws, acts) && n < |ws| && m in ws[n].calls && ws[n].calls[m].stored.Some?
    ensures var d, r := ws[n].calls[m].deadline, ws[n].calls[m].stored.value;
      r.deadline <= d
      <==> && Remain(d, r) >= MS
           && (r.start - r.readAt) + (r.time - r.end) + r.readAt % MS <= r.time % MS + (r.start - r.end) % MS
  {
    DeadlineDrift(ws, acts, n, m);
    var d, r := ws[n].calls[m].deadline, ws[n].calls[m].stored.value;
    if Remain(d, r) < MS { DefaultArithmetic(d, r); }
  }

  /** A call read with ten milliseconds left, whose thunk starts twenty milliseconds later and takes no time. */
  lemma LateStart(c: Uuid, m: Uuid) returns (ws: seq<World>, acts: seq<Action>)
    ensures Run(ws, acts) && OnlyReceives(acts, m)
    ensures var s := ws[|acts|];
      && s.now == 21 * MS - 1 && s.db == map[] && m in s.calls && s.calls[m].deadline == 10
      && s.jobs == [Job(Payload(c, m, "", ""), Storing(10 * MS, MS - 1, 21 * MS - 1, 21 * MS - 1))]
  {
    ws, acts := RoundedRead(c, m);
    ws, acts := Extended(ws, acts, Tick(20 * MS));
    ws, acts := Extended(ws, acts, Invoke(0));
    ws, acts := Extended(ws, acts, Return(0));
  }

  lemma LateStored(c: Uuid, m: Uuid) returns (ws: seq<World>, acts: seq<Action>)
    ensures Run(ws, acts) && OnlyReceives(acts, m)
    ensures var s := ws[|acts|];
      && s.now == 21 * MS - 1 && s.jobs == [] && m in s.calls && s.calls[m].deadline == 10
      && s.db == map[ResTimeout(c, m) := Expiring(30), ResList(c) := Queue([Payload(c, m, "", "")])]
  {
    var p := Payload(c, m, "", "");
    assert ExpiryMillis(10 * MS) == 10 && [] + [p] == [p];
    ws, acts := LateStart(c, m);
    ws, acts := Extended(ws, acts, StoreResult(0, "", 0, false));
  }

  /** It does happen: this RES is sent ten milliseconds after the deadline of its call. */
  lemma LateRes(c: Uuid, m: Uuid) returns (ws: seq<World>, acts: seq<Action>)
    ensures Run(ws, acts) && |acts| > 0 && OnlyReceives(acts, m)
    ensures var s, s' := ws[|acts| - 1], ws[|acts|];
      && s'.log == s.log + [ResSent(c, m, "", "")]
      && m in s.calls && Millis(s) == s.calls[m].deadline + 10
  {
    ws, acts := LateStored(c, m);
    ws, acts := Extended(ws, acts, PopResult(c));
    ws, acts := Extended(ws, acts, ReadResTtl(0, false));
    ws, acts := Extended(ws, acts, SendRes(0));
  }
}
