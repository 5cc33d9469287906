/** Every accepted call is in exactly one place, and every payload names the call it belongs to. */
module ProtocolPlaces {
  import opened Keys
  import opened Protocol

  /** How far a call has come: 0 queued, 1 invoked, 2 result stored, 3 RES sent. */
  function Rank(c: Call): nat {
    if c.sentAt.Some? then 3 else if c.stored.Some? then 2 else if c.invokedAt.Some? then 1 else 0
  }

  function StageRank(st: Stage): nat {
    match st
    case CallPopped => 0
    case CallDropped => 0
    case CallReady(_, _) => 0
    case Running(_, _, _) => 1
    case CalleeExpired => 1
    case Storing(_, _, _, _) => 1
    case ResultFailed => 1
    case ResPopped(_) => 2
    case ResDropped => 2
    case ResReady(_, _) => 2
    case Sent(_, _) => 3
  }

  /** The payload p stands for an accepted call that has come as far as `rank`, unaltered. */
  predicate Known(s: World, p: Payload, rank: nat) {
    && p.msg in s.calls
    && var c := s.calls[p.msg];
    && c.accepted && c.conn == p.conn && c.uri == p.uri && Rank(c) == rank
    && (rank <= 1 ==> p.args == c.args)
    && (rank >= 2 ==> c.stored.Some? && p.args == c.stored.value.args)
  }

  predicate OnOwnConn(j: Job) {
    j.stage.ResPopped? || j.stage.ResReady? || j.stage.Sent? ==> j.stage.on == j.p.conn
  }

  ghost predicate Homed(s: World) {
    && (forall u: string, i :: 0 <= i < |CallItems(s, u)| ==>
          Known(s, CallItems(s, u)[i], 0) && CallItems(s, u)[i].uri == u)
    && (forall c: Uuid, i :: 0 <= i < |ResItems(s, c)| ==>
          Known(s, ResItems(s, c)[i], 2) && ResItems(s, c)[i].conn == c)
    && (forall i :: 0 <= i < |s.jobs| ==> Known(s, s.jobs[i].p, StageRank(s.jobs[i].stage)) && OnOwnConn(s.jobs[i]))
  }

  function Count(ps: seq<Payload>, m: Uuid): nat {
    if ps == [] then 0 else (if ps[0].msg == m then 1 else 0) + Count(ps[1..], m)
  }

  function JobCount(js: seq<Job>, m: Uuid): nat {
    if js == [] then 0 else (if js[0].p.msg == m then 1 else 0) + JobCount(js[1..], m)
  }

  /** In how many places the message is. */
  function Places(s: World, m: Uuid): nat
    requires m in s.calls
  {
    Count(CallItems(s, s.calls[m].uri), m) + Count(ResItems(s, s.calls[m].conn), m)
    + JobCount(s.jobs, m) + Count(s.lost, m)
  }

  ghost predicate Conserved(s: World) {
    && (forall i :: 0 <= i < |s.lost| ==> s.lost[i].msg in s.calls)
    && (forall m :: m in s.calls ==> Places(s, m) == if s.calls[m].accepted then 1 else 0)
  }

  ghost predicate Typed(s: World) {
    forall k :: k in s.db ==> (s.db[k].Queue? <==> k.CallList? || k.ResList?)
  }

  ghost predicate Core(s: World) { Homed(s) && Conserved(s) && Typed(s) }

  // ----------------------------------------------------------------- counting

  lemma {:induction false} CountAppend(a: seq<Payload>, b: seq<Payload>, m: Uuid)
    ensures Count(a + b, m) == Count(a, m) + Count(b, m)
  {
    if a == [] {
      assert a + b == b;
    } else {
      assert (a + b)[1..] == a[1..] + b;
      CountAppend(a[1..], b, m);
    }
  }

  lemma CountSplit(q: seq<Payload>, n: nat, m: Uuid)
    requires n <= |q|
    ensures Count(q, m) == Count(q[..n], m) + Count(q[n..], m)
  {
    CountAppend(q[..n], q[n..], m);
    assert q == q[..n] + q[n..];
  }

  lemma {:induction false} JobAppend(a: seq<Job>, b: seq<Job>, m: Uuid)
    ensures JobCount(a + b, m) == JobCount(a, m) + JobCount(b, m)
  {
    if a == [] {
      assert a + b == b;
    } else {
      assert (a + b)[1..] == a[1..] + b;
      JobAppend(a[1..], b, m);
    }
  }

  lemma JobAt(js: seq<Job>, i: nat, m: Uuid)
    requires i < |js|
    ensures JobCount(js, m) == JobCount(js[..i] + js[i + 1..], m) + if js[i].p.msg == m then 1 else 0
  {
    assert js == js[..i] + ([js[i]] + js[i + 1..]);
    JobAppend(js[..i], [js[i]] + js[i + 1..], m);
    JobAppend(js[..i], js[i + 1..], m);
    JobAppend([js[i]], js[i + 1..], m);
  }

  lemma JobStaged(s: World, i: nat, st: Stage, m: Uuid)
    requires i < |s.jobs|
    ensures JobCount(Staged(s, i, st), m) == JobCount(s.jobs, m)
  {
    var js := Staged(s, i, st);
    JobAt(s.jobs, i, m);
    JobAt(js, i, m);
    assert js[..i] == s.jobs[..i] && js[i + 1..] == s.jobs[i + 1..];
  }

  /** The one index at which a counted-once message is, or none. */
  lemma {:induction false} CountedAt(q: seq<Payload>, m: Uuid)
    ensures Count(q, m) == 0 <==> forall i :: 0 <= i < |q| ==> q[i].msg != m
    ensures Count(q, m) <= 1 ==> forall i, j :: 0 <= i < j < |q| ==> !(q[i].msg == m && q[j].msg == m)
  {
    if q != [] {
      CountedAt(q[1..], m);
      assert forall i :: 0 < i < |q| ==> q[i] == q[1..][i - 1];
    }
  }

  lemma {:induction false} JobCountedAt(q: seq<Job>, m: Uuid)
    ensures JobCount(q, m) == 0 <==> forall i :: 0 <= i < |q| ==> q[i].p.msg != m
    ensures JobCount(q, m) <= 1 ==> forall i, j :: 0 <= i < j < |q| ==> !(q[i].p.msg == m && q[j].p.msg == m)
  {
    if q != [] {
      JobCountedAt(q[1..], m);
      assert forall i :: 0 < i < |q| ==> q[i] == q[1..][i - 1];
    }
  }

  // ---------------------------------------------------------- the one place

  /** No payload in any list, and no trimmed one, is for m. */
  ghost predicate NotQueued(s: World, m: Uuid) {
    && NoCall(s, m)
    && NoRes(s, m)
    && NotLost(s, m)
  }

  ghost predicate NotLost(s: World, m: Uuid) {
    forall k :: 0 <= k < |s.lost| ==> s.lost[k].msg != m
  }

  ghost predicate NoCall(s: World, m: Uuid) {
    forall u: string, k :: 0 <= k < |CallItems(s, u)| ==> CallItems(s, u)[k].msg != m
  }

  ghost predicate NoRes(s: World, m: Uuid) {
    forall c: Uuid, k :: 0 <= k < |ResItems(s, c)| ==> ResItems(s, c)[k].msg != m
  }

  ghost predicate NoJob(s: World, m: Uuid) {
    forall j :: 0 <= j < |s.jobs| ==> s.jobs[j].p.msg != m
  }

  lemma NotCounted(s: World, m: Uuid)
    requires Homed(s) && m in s.calls
    ensures Count(CallItems(s, s.calls[m].uri), m) == 0 ==> NoCall(s, m)
    ensures Count(ResItems(s, s.calls[m].conn), m) == 0 ==> NoRes(s, m)
    ensures JobCount(s.jobs, m) == 0 ==> NoJob(s, m)
    ensures Count(s.lost, m) == 0 ==> NotLost(s, m)
  {
    JobCountedAt(s.jobs, m);
    CountedAt(s.lost, m);
    CountedAt(CallItems(s, s.calls[m].uri), m);
    CountedAt(ResItems(s, s.calls[m].conn), m);
  }

  /** A message held by a job is nowhere else. */
  lemma SoleJob(s: World, i: nat)
    requires Core(s) && i < |s.jobs|
    ensures NotQueued(s, s.jobs[i].p.msg)
    ensures forall j :: 0 <= j < |s.jobs| && j != i ==> s.jobs[j].p.msg != s.jobs[i].p.msg
  {
    var m := s.jobs[i].p.msg;
    assert Known(s, s.jobs[i].p, StageRank(s.jobs[i].stage));
    assert Places(s, m) == 1;
    JobCountedAt(s.jobs, m);
    NotCounted(s, m);
  }

  /** A message in a call list is nowhere else. */
  lemma SoleCall(s: World, u: string, i: nat)
    requires Core(s) && i < |CallItems(s, u)|
    ensures var m := CallItems(s, u)[i].msg;
      && NoJob(s, m) && NoRes(s, m) && NotLost(s, m)
      && (forall v: string, k :: 0 <= k < |CallItems(s, v)| && (v != u || k != i) ==> CallItems(s, v)[k].msg != m)
  {
    var q := CallItems(s, u);
    var m := q[i].msg;
    assert Known(s, q[i], 0) && q[i].uri == u;
    assert Places(s, m) == 1;
    CountedAt(q, m);
    NotCounted(s, m);
  }

  /** A message in a result list is nowhere else. */
  lemma SoleRes(s: World, c: Uuid, i: nat)
    requires Core(s) && i < |ResItems(s, c)|
    ensures var m := ResItems(s, c)[i].msg;
      && NoJob(s, m) && NoCall(s, m) && NotLost(s, m)
      && (forall d: Uuid, k :: 0 <= k < |ResItems(s, d)| && (d != c || k != i) ==> ResItems(s, d)[k].msg != m)
  {
    var q := ResItems(s, c);
    var m := q[i].msg;
    assert Known(s, q[i], 2) && q[i].conn == c;
    assert Places(s, m) == 1;
    CountedAt(q, m);
    NotCounted(s, m);
  }
}
