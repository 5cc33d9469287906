/** The log and the history of each call agree, over every action. */
module ProtocolLog {
  import opened Wrappers
  import opened Keys
  import opened Protocol
  import opened ProtocolPlaces
  import opened ProtocolRegister

  /** The events of the call m are in the log where its history says, in causal order. */
  predicate Told(s: World, m: Uuid)
    requires m in s.calls
  {
    var c := s.calls[m];
    && c.receivedAt < |s.log| && s.log[c.receivedAt] == Received(c.conn, m, c.uri, c.args)
    && (c.repliedAt.Some? ==>
          && c.receivedAt < c.repliedAt.value < |s.log|
          && s.log[c.repliedAt.value] == if c.accepted then Acked(c.conn, m) else Nacked(c.conn, m))
    && (c.invokedAt.Some? ==>
          && c.accepted && c.receivedAt < c.invokedAt.value < |s.log|
          && s.log[c.invokedAt.value] == Invoked(m, c.uri, c.args))
    && (c.stored.Some? ==>
          && c.invokedAt.Some? && c.invokedAt.value < c.stored.value.at < |s.log|
          && s.log[c.stored.value.at] == Stored(m, c.stored.value.args))
    && (c.sentAt.Some? ==>
          && c.stored.Some? && c.stored.value.at < c.sentAt.value < |s.log|
          && s.log[c.sentAt.value] == ResSent(c.conn, m, c.uri, c.stored.value.args))
  }

  /** The event at j is the one of its kind in the history of its call. */
  predicate Accounted(s: World, j: nat)
    requires j < |s.log|
  {
    var e := s.log[j];
    && e.msg in s.calls
    && var c := s.calls[e.msg];
    match e
    case Received(_, _, _, _) => c.receivedAt == j
    case Acked(_, _) => c.repliedAt == Some(j)
    case Nacked(_, _) => c.repliedAt == Some(j)
    case Invoked(_, _, _) => c.invokedAt == Some(j)
    case Stored(_, _) => c.stored.Some? && c.stored.value.at == j
    case ResSent(_, _, _, _) => c.sentAt == Some(j)
  }

  ghost predicate Logged(s: World) {
    && (forall m :: m in s.calls ==> Told(s, m))
    && (forall j :: 0 <= j < |s.log| ==> Accounted(s, j))
  }

  /** A call is unanswered exactly while its connection's receive loop is busy with it. */
  ghost predicate Answering(s: World) {
    && (forall c :: c in s.unreplied ==>
          s.unreplied[c] in s.calls && s.calls[s.unreplied[c]].conn == c && s.calls[s.unreplied[c]].repliedAt.None?)
    && (forall m :: m in s.calls && s.calls[m].repliedAt.None? ==>
          s.calls[m].conn in s.unreplied && s.unreplied[s.calls[m].conn] == m)
  }

  /** History is only ever added to. */
  predicate Extends(c: Call, c': Call) {
    && c'.receivedAt == c.receivedAt
    && (c.repliedAt.Some? ==> c'.repliedAt == c.repliedAt)
    && (c.invokedAt.Some? ==> c'.invokedAt == c.invokedAt)
    && (c.stored.Some? ==> c'.stored == c.stored)
    && (c.sentAt.Some? ==> c'.sentAt == c.sentAt)
  }

  /** One event about m is added to the log and to the history of m. */
  lemma LogGrows(s: World, s': World, m: Uuid, e: Event)
    requires Logged(s) && s'.log == s.log + [e] && e.msg == m
    requires m in s'.calls && s'.calls == s.calls[m := s'.calls[m]]
    requires m in s.calls ==> Extends(s.calls[m], s'.calls[m])
    requires Told(s', m) && Accounted(s', |s.log|)
    ensures Logged(s')
  {
    forall n | n in s'.calls ensures Told(s', n) {
      if n != m { ToldStill(s, s', n); }
    }
    forall j | 0 <= j < |s'.log| ensures Accounted(s', j) {
      if j < |s.log| { AccountedStill(s, s', j); }
    }
  }

  lemma ToldStill(s: World, s': World, n: Uuid)
    requires s.log <= s'.log && n in s.calls && n in s'.calls && s'.calls[n] == s.calls[n] && Told(s, n)
    ensures Told(s', n)
  {
  }

  lemma AccountedStill(s: World, s': World, j: nat)
    requires s.log <= s'.log && j < |s.log| && Accounted(s, j)
    requires s.log[j].msg in s'.calls && Extends(s.calls[s.log[j].msg], s'.calls[s.log[j].msg])
    ensures Accounted(s', j)
  {
  }

  lemma ReceiveLogged(s: World, a: Action)
    requires Logged(s) && a.Receive? && Enabled(s, a)
    ensures Logged(ReceiveCall(s, a))
  {
    LogGrows(s, ReceiveCall(s, a), a.msg, Received(a.conn, a.msg, a.uri, a.args));
  }

  lemma ReplyLogged(s: World, conn: Uuid)
    requires Logged(s) && Answering(s) && Enabled(s, Reply(conn))
    ensures Logged(SendReply(s, conn))
  {
    var m := s.unreplied[conn];
    var s' := SendReply(s, conn);
    assert Told(s, m);
    LogGrows(s, s', m, s'.log[|s.log|]);
  }

  lemma InvokeLogged(s: World, i: nat)
    requires Logged(s) && Enabled(s, Invoke(i)) && Known(s, s.jobs[i].p, 0)
    ensures Logged(StartThunk(s, i))
  {
    var p := s.jobs[i].p;
    assert Told(s, p.msg);
    LogGrows(s, StartThunk(s, i), p.msg, Invoked(p.msg, p.uri, p.args));
  }

  lemma StoreLogged(s: World, a: Action)
    requires Logged(s) && a.StoreResult? && Enabled(s, a) && Known(s, s.jobs[a.i].p, 1)
    ensures Logged(RegisterResult(s, a))
  {
    var p, s' := s.jobs[a.i].p, RegisterResult(s, a);
    if ReplyToResult(s, a).Length? {
      assert Told(s, p.msg);
      LogGrows(s, s', p.msg, Stored(p.msg, a.args));
    } else {
      assert s'.log == s.log && s'.calls == s.calls;
      SameLogged(s, s');
    }
  }

  lemma SendLogged(s: World, i: nat)
    requires Logged(s) && Enabled(s, SendRes(i)) && Known(s, s.jobs[i].p, 2) && OnOwnConn(s.jobs[i])
    ensures Logged(EmitRes(s, i))
  {
    var p := s.jobs[i].p;
    assert Told(s, p.msg);
    LogGrows(s, EmitRes(s, i), p.msg, ResSent(p.conn, p.msg, p.uri, p.args));
  }

  lemma SameLogged(s: World, s': World)
    requires Logged(s) && s'.log == s.log && s'.calls == s.calls
    ensures Logged(s')
  {
    forall m | m in s'.calls ensures Told(s', m) { assert Told(s, m); }
    forall j | 0 <= j < |s'.log| ensures Accounted(s', j) { assert Accounted(s, j); }
  }

  /** These actions make no history. */
  predicate Quiet(a: Action) {
    a.Tick? || a.Expire? || a.PopCall? || a.ReadCallTtl? || a.Return? || a.PopResult? || a.ReadResTtl?
  }

  lemma QuietStep(s: World, a: Action)
    requires Enabled(s, a) && Quiet(a)
    ensures var s' := Apply(s, a); s'.log == s.log && s'.calls == s.calls && s'.unreplied == s.unreplied
  {
  }

  /** The payload of a job that acts is known, as far along as the action needs. */
  lemma ActorKnown(s: World, a: Action)
    requires Homed(s) && Enabled(s, a)
    ensures a.Invoke? ==> Known(s, s.jobs[a.i].p, 0)
    ensures a.StoreResult? ==> Known(s, s.jobs[a.i].p, 1)
    ensures a.SendRes? ==> Known(s, s.jobs[a.i].p, 2) && OnOwnConn(s.jobs[a.i])
  {
  }

  lemma StepLogged(s: World, a: Action)
    requires Homed(s) && Logged(s) && Answering(s) && Enabled(s, a)
    ensures Logged(Apply(s, a))
  {
    ActorKnown(s, a);
    if Quiet(a) {
      QuietStep(s, a);
      SameLogged(s, Apply(s, a));
    } else {
      match a
      case Receive(_, _, _, _, _, _, _) => ReceiveLogged(s, a);
      case Reply(conn) => ReplyLogged(s, conn);
      case Invoke(i) => InvokeLogged(s, i);
      case StoreResult(_, _, _, _) => StoreLogged(s, a);
      case SendRes(i) => SendLogged(s, i);
    }
  }

  lemma StepAnswering(s: World, a: Action)
    requires Answering(s) && Enabled(s, a)
    ensures Answering(Apply(s, a))
  {
    if a.Receive? {
      ReceiveAnswering(s, a);
    } else if a.Reply? {
      ReplyAnswering(s, a.conn);
    } else {
      if Quiet(a) { QuietStep(s, a); }
      SameAnswering(s, Apply(s, a));
    }
  }

  lemma ReplyAnswering(s: World, conn: Uuid)
    requires Answering(s) && Enabled(s, Reply(conn))
    ensures Answering(SendReply(s, conn))
  {
  }

  lemma ReceiveAnswering(s: World, a: Action)
    requires Answering(s) && a.Receive? && Enabled(s, a)
    ensures Answering(ReceiveCall(s, a))
  {
  }

  lemma SameAnswering(s: World, s': World)
    requires Answering(s) && s'.unreplied == s.unreplied && s'.calls.Keys == s.calls.Keys
    requires forall m :: m in s.calls ==>
      s'.calls[m].conn == s.calls[m].conn && s'.calls[m].repliedAt == s.calls[m].repliedAt
    ensures Answering(s')
  {
  }
}
