/**
 ProcessMsg with the default handler: each request of a client is handed to the broker and
 answered with one ACK or NACK, while other goroutines send results and events.
 */
module Handler {
  import opened Wrappers
  import opened Keys
  import opened Message

  /** The counters that saveMsgMetrics keeps: Msgs, MsgsRead, MsgsWrite and one for each standard type. */
  datatype Counters = Counters(all: nat, read: nat, written: nat, byType: map<Type, nat>)

  function Of(c: Counters, t: Type): nat { if t in c.byType then c.byType[t] else 0 }

  function Counted(c: Counters, m: Msg): Counters {
    var t := TypeOf(m);
    Counters(c.all + 1,
             c.read + (if IsRead(t) then 1 else 0),
             c.written + (if IsWrite(t) then 1 else 0),
             if IsStd(t) then c.byType[t := Of(c, t) + 1] else c.byType)
  }

  /** The answer to a request: `err` is what the broker said, and id the fresh UUID of the answer. */
  function ReplyTo(m: Msg, err: Option<string>, id: Uuid): Msg {
    if err.Some? then NewNack(m, id, 500, err.value) else NewAck(m, id)
  }

  /**
   How writeMsg goes: the error that it returns, and whether the frame, if there is one, is
   flushed when the writer is closed. It discards the error of that Close.
   */
  datatype Outcome = Outcome(err: Option<string>, flushed: bool)

  /** A message given to doWrite, and how that went. */
  datatype Attempt = Attempt(m: Msg, err: Option<string>, flushed: bool)

  /** The message is on the network. */
  predicate Written(a: Attempt) { a.err.None? && a.flushed }

  /** A websocket connection with a frame that could not be flushed refuses every writer after that. */
  predicate Broken(out: seq<Attempt>) { exists i :: 0 <= i < |out| && !out[i].flushed }

  /** The server: its counters, per connection what was to go out on it, and the CloseErr of those that are closed. */
  datatype Server = Server(counters: Counters, out: map<Uuid, seq<Attempt>>, closed: map<Uuid, string>)

  function NewServer(): Server { Server(Counters(0, 0, 0, map[]), map[], map[]) }

  function Out(s: Server, conn: Uuid): seq<Attempt> { if conn in s.out then s.out[conn] else [] }

  /** Conn.Close: only the first one has an effect. */
  function Shut(closed: map<Uuid, string>, conn: Uuid, e: string): map<Uuid, string> {
    if conn in closed then closed else closed[conn := e]
  }

  /** ProcessMsg of a response: it is counted and written, and an error of writeMsg closes the connection. */
  function Sent(s: Server, conn: Uuid, m: Msg, o: Outcome): Server {
    Server(Counted(s.counters, m),
           s.out[conn := Out(s, conn) + [Attempt(m, o.err, o.flushed)]],
           if o.err.Some? then Shut(s.closed, conn, o.err.value) else s.closed)
  }

  /** An attempt to write the answer to m: ACK if the broker took it, or else NACK 500 with what the broker said. */
  predicate Reported(a: Attempt, m: Msg, err: Option<string>, id: Uuid, o: Outcome) {
    && a.m.id == id && a.err == o.err && a.flushed == o.flushed
    && (if err.None? then a.m.Ack? else a.m.Nack? && a.m.code == 500 && a.m.text == err.value)
    && OriginOf(a.m).msg == m.id && OriginOf(a.m).kind == TypeOf(m)
  }

  class Handling {
    var counters: Counters
    var out: map<Uuid, seq<Attempt>>
    var closed: map<Uuid, string>

    ghost function View(): Server
      reads this
    {
      Server(counters, out, closed)
    }

    constructor ()
      ensures View() == NewServer()
    {
      counters, out, closed := Counters(0, 0, 0, map[]), map[], map[];
    }

    method Count(m: Msg)
      modifies this`counters
      ensures counters == Counted(old(counters), m)
    {
      var t := TypeOf(m);
      counters := counters.(all := counters.all + 1);
      if IsRead(t) { counters := counters.(read := counters.read + 1); }
      if IsWrite(t) { counters := counters.(written := counters.written + 1); }
      if IsStd(t) { counters := counters.(byType := counters.byType[t := Of(counters, t) + 1]); }
    }

    method DoWrite(conn: Uuid, m: Msg, o: Outcome)
      modifies this`out, this`closed
      ensures View() == Sent(old(View()), conn, m, o).(counters := old(counters))
    {
      out := out[conn := (if conn in out then out[conn] else []) + [Attempt(m, o.err, o.flushed)]];
      if o.err.Some? && conn !in closed { closed := closed[conn := o.err.value]; }
    }

    /**
     ProcessMsg, given what the broker says, the fresh UUID of an answer and the outcome of the
     write. A request is a Take and then a Finish of the machine, a result or event a Push.
     */
    method ProcessMsg(conn: Uuid, m: Msg, err: Option<string>, id: Uuid, o: Outcome, ghost st: State)
      requires st.s == View() && (IsRead(TypeOf(m)) ==> conn !in st.busy)
      requires Broken(Out(View(), conn)) ==> o.err.Some?
      modifies this
      ensures IsRead(TypeOf(m)) ==> View() == Apply(Apply(st, Take(conn, m)), Finish(conn, err, id, o)).s
      ensures m.Res? || m.Evnt? ==> View() == Apply(st, Push(conn, m, o)).s
      ensures !IsRead(TypeOf(m)) ==> View() == Sent(old(View()), conn, m, o)
      ensures conn in out && |out[conn]| == |Out(old(View()), conn)| + 1
      ensures IsRead(TypeOf(m)) ==> Reported(out[conn][|out[conn]| - 1], m, err, id, o)
      decreases if IsRead(TypeOf(m)) then 2 else 0
    {
      if IsRead(TypeOf(m)) { ProcessedSteps(st, conn, m, err, id, o); }
      Count(m);
      match m {
        case Call(_, _, _, _) => Answer(conn, m, err, id, o, st);
        case Pub(_, _, _) => Answer(conn, m, err, id, o, st);
        case Sub(_, _, _) => Answer(conn, m, err, id, o, st);
        case Unsb(_, _, _) => Answer(conn, m, err, id, o, st);
        case _ => DoWrite(conn, m, o);
      }
    }

    method Answer(conn: Uuid, m: Msg, err: Option<string>, id: Uuid, o: Outcome, ghost st: State)
      requires IsRead(TypeOf(m)) && (Broken(Out(View(), conn)) ==> o.err.Some?)
      modifies this
      ensures View() == Sent(old(View()), conn, ReplyTo(m, err, id), o)
      decreases 1
    {
      if err.Some? {
        ProcessMsg(conn, NewNack(m, id, 500, err.value), None, id, o, st.(s := View()));
        return;
      }
      ProcessMsg(conn, NewAck(m, id), None, id, o, st.(s := View()));
    }
  }

  /** ProcessMsg of a request: it is counted, and its answer goes through ProcessMsg in turn. */
  function Processed(s: Server, conn: Uuid, m: Msg, err: Option<string>, id: Uuid, o: Outcome): Server {
    Sent(s.(counters := Counted(s.counters, m)), conn, ReplyTo(m, err, id), o)
  }

  lemma ProcessedSteps(st: State, conn: Uuid, m: Msg, err: Option<string>, id: Uuid, o: Outcome)
    requires IsRead(TypeOf(m)) && conn !in st.busy && (Broken(Out(st.s, conn)) ==> o.err.Some?)
    ensures var s', out := Processed(st.s, conn, m, err, id, o), Out(st.s, conn);
      && s' == Apply(Apply(st, Take(conn, m)), Finish(conn, err, id, o)).s
      && conn in s'.out && |s'.out[conn]| == |out| + 1
      && Reported(s'.out[conn][|out|], m, err, id, o)
  {
    ReplyAnswers(m, err, id);
  }

  // ------------------------------------------------------------ interleavings

  /** A request that a receive loop has read, and how the broker took it once that is known. */
  datatype Taken = Taken(m: Msg, ok: Option<bool>)

  datatype State = State(
    s: Server,
    taken: map<Uuid, seq<Taken>>,    // per connection, the requests its receive loop has read, in order
    busy: set<Uuid>)                 // connections whose last request is not answered yet

  datatype Action =
    | Take(conn: Uuid, m: Msg)
    | Finish(conn: Uuid, err: Option<string>, id: Uuid, o: Outcome)
    | Push(conn: Uuid, m: Msg, o: Outcome)       // RES by the results loop, EVNT by the pub-sub loop
    | CloseConn(conn: Uuid, e: string)           // by anything but doWrite

  function Init(): State { State(NewServer(), map[], {}) }

  function TakenOn(st: State, conn: Uuid): seq<Taken> { if conn in st.taken then st.taken[conn] else [] }

  predicate Enabled(st: State, a: Action) {
    match a
    case Take(conn, m) => conn !in st.busy && IsRead(TypeOf(m))
    case Finish(conn, _, _, o) =>
      conn in st.busy && TakenOn(st, conn) != [] && (Broken(Out(st.s, conn)) ==> o.err.Some?)
    case Push(conn, m, o) => (m.Res? || m.Evnt?) && (Broken(Out(st.s, conn)) ==> o.err.Some?)
    case CloseConn(_, _) => true
  }

  function Apply(st: State, a: Action): State
    requires Enabled(st, a)
  {
    match a
    case Take(conn, m) =>
      State(st.s.(counters := Counted(st.s.counters, m)),
            st.taken[conn := TakenOn(st, conn) + [Taken(m, None)]],
            st.busy + {conn})
    case Finish(conn, err, id, o) =>
      var ts := TakenOn(st, conn);
      var last := |ts| - 1;
      State(Sent(st.s, conn, ReplyTo(ts[last].m, err, id), o),
            st.taken[conn := ts[last := ts[last].(ok := Some(err.None?))]],
            st.busy - {conn})
    case Push(conn, m, o) => st.(s := Sent(st.s, conn, m, o))
    case CloseConn(conn, e) => st.(s := st.s.(closed := Shut(st.s.closed, conn, e)))
  }

  predicate IsReply(m: Msg) { m.Ack? || m.Nack? }

  /** The answers on a connection, written or not. */
  function Replies(out: seq<Attempt>): seq<Attempt> {
    if out == [] then []
    else Replies(out[..|out| - 1]) + if IsReply(out[|out| - 1].m) then [out[|out| - 1]] else []
  }

  lemma RepliesAppend(out: seq<Attempt>, a: Attempt)
    ensures Replies(out + [a]) == Replies(out) + if IsReply(a.m) then [a] else []
  {
    assert (out + [a])[..|out|] == out;
  }

  lemma {:induction false} RepliesOf(out: seq<Attempt>, k: nat) returns (i: nat)
    requires k < |Replies(out)|
    ensures i < |out| && out[i] == Replies(out)[k] && (i == |out| - 1 ==> k == |Replies(out)| - 1)
  {
    i := |out| - 1;
    if k < |Replies(out[..i])| { i := RepliesOf(out[..i], k); }
  }

  predicate Answers(reply: Msg, t: Taken) {
    && t.ok.Some?
    && (if t.ok.value then reply.Ack? else reply.Nack?)
    && OriginOf(reply) == OriginOf(t.m)
    && OriginOf(reply).msg == t.m.id && OriginOf(reply).kind == TypeOf(t.m)
  }

  /** The answers are, in order, those to the requests read on the connection, but for the last one while it is busy. */
  ghost predicate InStep(st: State, conn: Uuid) {
    var ts, rs := TakenOn(st, conn), Replies(Out(st.s, conn));
    && |ts| == |rs| + (if conn in st.busy then 1 else 0)
    && (forall i :: 0 <= i < |rs| ==> Answers(rs[i].m, ts[i]))
    && (forall i :: 0 <= i < |ts| ==> IsRead(TypeOf(ts[i].m)))
  }

  ghost predicate Balanced(st: State) {
    st.s.counters.read == Of(st.s.counters, ACK) + Of(st.s.counters, NACK) + |st.busy|
  }

  lemma ReplyAnswers(m: Msg, err: Option<string>, id: Uuid)
    requires IsRead(TypeOf(m))
    ensures Answers(ReplyTo(m, err, id), Taken(m, Some(err.None?)))
  {
  }

  lemma TakeInStep(st: State, conn: Uuid, m: Msg)
    requires InStep(st, conn) && Enabled(st, Take(conn, m))
    ensures InStep(Apply(st, Take(conn, m)), conn)
  {
  }

  lemma FinishInStep(st: State, a: Action)
    requires a.Finish? && InStep(st, a.conn) && Enabled(st, a)
    ensures InStep(Apply(st, a), a.conn)
  {
    var ts := TakenOn(st, a.conn);
    var m := ts[|ts| - 1].m;
    RepliesAppend(Out(st.s, a.conn), Attempt(ReplyTo(m, a.err, a.id), a.o.err, a.o.flushed));
    ReplyAnswers(m, a.err, a.id);
  }

  lemma PushInStep(st: State, a: Action)
    requires a.Push? && InStep(st, a.conn) && Enabled(st, a)
    ensures InStep(Apply(st, a), a.conn)
  {
    RepliesAppend(Out(st.s, a.conn), Attempt(a.m, a.o.err, a.o.flushed));
  }

  lemma StepInStep(st: State, a: Action, conn: Uuid)
    requires InStep(st, conn) && Enabled(st, a)
    ensures InStep(Apply(st, a), conn)
  {
    if a.conn == conn {
      match a
      case Take(_, m) => TakeInStep(st, conn, m);
      case Finish(_, _, _, _) => FinishInStep(st, a);
      case Push(_, _, _) => PushInStep(st, a);
      case CloseConn(_, _) =>
    } else {
      OtherConn(st, a, conn);
    }
  }

  lemma OtherConn(st: State, a: Action, conn: Uuid)
    requires Enabled(st, a) && a.conn != conn
    ensures var st' := Apply(st, a);
      && TakenOn(st', conn) == TakenOn(st, conn) && Out(st'.s, conn) == Out(st.s, conn)
      && (conn in st'.busy <==> conn in st.busy)
      && CloseErr(st'.s, conn) == CloseErr(st.s, conn)
  {
  }

  lemma CountedBy(c: Counters, m: Msg)
    ensures Counted(c, m).read == c.read + if IsRead(TypeOf(m)) then 1 else 0
    ensures var c' := Counted(c, m);
      Of(c', ACK) + Of(c', NACK) == Of(c, ACK) + Of(c, NACK) + if IsReply(m) then 1 else 0
  {
  }

  lemma FinishBalanced(st: State, a: Action)
    requires a.Finish? && Balanced(st) && Enabled(st, a)
    ensures Balanced(Apply(st, a))
  {
    var ts := TakenOn(st, a.conn);
    var reply := ReplyTo(ts[|ts| - 1].m, a.err, a.id);
    CountedBy(st.s.counters, reply);
    assert IsReply(reply) && !IsRead(TypeOf(reply));
    assert |st.busy - {a.conn}| == |st.busy| - 1;
  }

  lemma StepBalanced(st: State, a: Action)
    requires Balanced(st) && Enabled(st, a)
    ensures Balanced(Apply(st, a))
  {
    match a
    case Take(_, m) => CountedBy(st.s.counters, m);
    case Finish(_, _, _, _) => FinishBalanced(st, a);
    case Push(_, m, _) => CountedBy(st.s.counters, m);
    case CloseConn(_, _) =>
  }

  ghost predicate Run(ws: seq<State>, acts: seq<Action>) {
    && |ws| == |acts| + 1
    && ws[0] == Init()
    && forall i :: 0 <= i < |acts| ==> Enabled(ws[i], acts[i]) && ws[i + 1] == Apply(ws[i], acts[i])
  }

  lemma {:induction false} RunInStep(ws: seq<State>, acts: seq<Action>, n: nat, conn: Uuid)
    requires Run(ws, acts) && n < |ws|
    ensures InStep(ws[n], conn)
    decreases n
  {
    if n > 0 {
      RunInStep(ws, acts, n - 1, conn);
      StepInStep(ws[n - 1], acts[n - 1], conn);
    }
  }

  // ------------------------------------------------------------ failed writes

  function CloseErr(s: Server, conn: Uuid): Option<string> {
    if conn in s.closed then Some(s.closed[conn]) else None
  }

  /** The first error that writeMsg returned, if any. */
  function FirstFailure(out: seq<Attempt>): Option<string> {
    if out == [] then None
    else
      var before := FirstFailure(out[..|out| - 1]);
      if before.Some? then before else out[|out| - 1].err
  }

  lemma FailureAppend(out: seq<Attempt>, a: Attempt)
    ensures FirstFailure(out + [a]) == if FirstFailure(out).Some? then FirstFailure(out) else a.err
  {
    assert (out + [a])[..|out|] == out;
  }

  lemma {:induction false} NoFailure(out: seq<Attempt>)
    ensures FirstFailure(out).None? <==> forall i :: 0 <= i < |out| ==> out[i].err.None?
  {
    if out != [] {
      NoFailure(out[..|out| - 1]);
      assert forall i :: 0 <= i < |out| - 1 ==> out[..|out| - 1][i] == out[i];
    }
  }

  predicate ClosedElsewhere(acts: seq<Action>, n: nat, conn: Uuid)
    requires n <= |acts|
  {
    exists i :: 0 <= i < n && acts[i].CloseConn? && acts[i].conn == conn
  }

  /** The first error to close a connection stays. */
  lemma StepCloseErr(st: State, a: Action, conn: Uuid)
    requires Enabled(st, a)
    ensures var st' := Apply(st, a);
      && (CloseErr(st.s, conn).Some? ==> CloseErr(st'.s, conn) == CloseErr(st.s, conn))
      && (FirstFailure(Out(st'.s, conn)).Some? ==> FirstFailure(Out(st.s, conn)).Some? || CloseErr(st'.s, conn).Some?)
      && (CloseErr(st.s, conn) == FirstFailure(Out(st.s, conn)) && !(a.CloseConn? && a.conn == conn) ==>
            CloseErr(st'.s, conn) == FirstFailure(Out(st'.s, conn)))
  {
    if a.conn != conn {
      OtherConn(st, a, conn);
    } else if a.Finish? {
      var ts := TakenOn(st, conn);
      FailureAppend(Out(st.s, conn), Attempt(ReplyTo(ts[|ts| - 1].m, a.err, a.id), a.o.err, a.o.flushed));
    } else if a.Push? {
      FailureAppend(Out(st.s, conn), Attempt(a.m, a.o.err, a.o.flushed));
    }
  }

  lemma {:induction false} RunCloseErr(ws: seq<State>, acts: seq<Action>, n: nat, conn: Uuid)
    requires Run(ws, acts) && n < |ws|
    ensures FirstFailure(Out(ws[n].s, conn)).Some? ==> CloseErr(ws[n].s, conn).Some?
    ensures !ClosedElsewhere(acts, n, conn) ==> CloseErr(ws[n].s, conn) == FirstFailure(Out(ws[n].s, conn))
    decreases n
  {
    if n > 0 {
      RunCloseErr(ws, acts, n - 1, conn);
      StepCloseErr(ws[n - 1], acts[n - 1], conn);
    }
  }

  /** After a frame that could not be flushed, every attempt has an error. */
  ghost predicate Refusing(out: seq<Attempt>) {
    forall i, j :: 0 <= i < j < |out| && !out[i].flushed ==> out[j].err.Some?
  }

  lemma StepRefusing(st: State, a: Action, conn: Uuid)
    requires Enabled(st, a) && Refusing(Out(st.s, conn))
    ensures Refusing(Out(Apply(st, a).s, conn))
  {
    if a.conn != conn { OtherConn(st, a, conn); }
  }

  lemma {:induction false} RunRefusing(ws: seq<State>, acts: seq<Action>, n: nat, conn: Uuid)
    requires Run(ws, acts) && n < |ws|
    ensures Refusing(Out(ws[n].s, conn))
    decreases n
  {
    if n > 0 {
      RunRefusing(ws, acts, n - 1, conn);
      StepRefusing(ws[n - 1], acts[n - 1], conn);
    }
  }

  predicate SomeFailed(out: seq<Attempt>) { exists i :: 0 <= i < |out| && !Written(out[i]) }

  /**
   On an open connection only the last attempt can have failed, and then for the flush alone,
   whose error is discarded.
   */
  lemma OpenOnlyLastFailed(ws: seq<State>, acts: seq<Action>, n: nat, conn: Uuid, i: nat)
    requires Run(ws, acts) && n < |ws| && CloseErr(ws[n].s, conn).None? && i < |Out(ws[n].s, conn)|
    ensures var out := Out(ws[n].s, conn);
      Written(out[i]) || (i == |out| - 1 && out[i].err.None? && !out[i].flushed)
  {
    var out := Out(ws[n].s, conn);
    RunCloseErr(ws, acts, n, conn);
    NoFailure(out);
    RunRefusing(ws, acts, n, conn);
    if i < |out| - 1 { assert out[i + 1].err.None?; }
  }

  /**
   ProcessMsg is documented to close the connection if a write fails. A connection with a
   failed write that nothing else closes is closed if and only if its last attempt has an
   error or an earlier one failed, and then with the first error that writeMsg returned. So
   it stays open exactly while the one failure is a flush of the last message.
   */
  lemma FailedWriteCloses(ws: seq<State>, acts: seq<Action>, n: nat, conn: Uuid)
    requires Run(ws, acts) && n < |ws| && !ClosedElsewhere(acts, n, conn)
    ensures var out := Out(ws[n].s, conn);
      && CloseErr(ws[n].s, conn) == FirstFailure(out)
      && (SomeFailed(out) ==>
            (CloseErr(ws[n].s, conn).Some? <==> out[|out| - 1].err.Some? || SomeFailed(out[..|out| - 1])))
  {
    var out := Out(ws[n].s, conn);
    RunCloseErr(ws, acts, n, conn);
    NoFailure(out);
    if SomeFailed(out) {
      var last := |out| - 1;
      RunRefusing(ws, acts, n, conn);
      if SomeFailed(out[..last]) {
        var i :| 0 <= i < last && !Written(out[..last][i]);
        assert out[i].err.Some? || out[i + 1].err.Some?;
      }
      forall i | 0 <= i < last && out[i].err.Some? ensures SomeFailed(out[..last]) {
        assert !Written(out[..last][i]);
      }
    }
  }

  /** An error that writeMsg returns always leaves its connection closed, whatever else closes it. */
  lemma ErrorCloses(ws: seq<State>, acts: seq<Action>, n: nat, conn: Uuid, i: nat)
    requires Run(ws, acts) && n < |ws| && i < |Out(ws[n].s, conn)| && Out(ws[n].s, conn)[i].err.Some?
    ensures CloseErr(ws[n].s, conn).Some?
  {
    RunCloseErr(ws, acts, n, conn);
    NoFailure(Out(ws[n].s, conn));
  }

  /** It does happen: this request is taken by the broker, and its ACK lost on a connection that stays open. */
  lemma LostAck(conn: Uuid, m: Msg, id: Uuid) returns (ws: seq<State>, acts: seq<Action>)
    requires IsRead(TypeOf(m))
    ensures Run(ws, acts)
    ensures var st := ws[|acts|];
      && TakenOn(st, conn) == [Taken(m, Some(true))] && conn !in st.busy
      && Out(st.s, conn) == [Attempt(NewAck(m, id), None, false)]
      && CloseErr(st.s, conn).None?
  {
    acts := [Take(conn, m), Finish(conn, None, id, Outcome(None, false))];
    var taken := Apply(Init(), acts[0]);
    assert TakenOn(taken, conn) == [Taken(m, None)];
    ws := [Init(), taken, Apply(taken, acts[1])];
  }

  /**
   One acknowledgement for each request: on every connection, whatever the other loops
   send in between and whatever writes fail, the k-th ACK or NACK names the UUID and type of
   the k-th request read, and is an ACK exactly if the broker took it; none is missing but
   that of the request being processed; and on an open connection all have been written, but
   perhaps the last one if it was the last message and could not be flushed.
   */
  lemma OneAcknowledgement(ws: seq<State>, acts: seq<Action>, n: nat, conn: Uuid, k: nat)
    requires Run(ws, acts) && n < |ws| && k < |TakenOn(ws[n], conn)|
    ensures var ts, out := TakenOn(ws[n], conn), Out(ws[n].s, conn);
      var rs := Replies(out);
      if k < |rs| then
        && Answers(rs[k].m, ts[k])
        && (CloseErr(ws[n].s, conn).None? ==>
              Written(rs[k]) || (k == |rs| - 1 && rs[k] == out[|out| - 1] && rs[k].err.None? && !rs[k].flushed))
      else conn in ws[n].busy && k == |ts| - 1
  {
    RunInStep(ws, acts, n, conn);
    var out := Out(ws[n].s, conn);
    if k < |Replies(out)| {
      var i := RepliesOf(out, k);
      if CloseErr(ws[n].s, conn).None? { OpenOnlyLastFailed(ws, acts, n, conn, i); }
    }
  }

  /** The end of a request: it is recorded as taken, and answered with an ACK, exactly if the broker had no error. */
  lemma FinishExactly(ws: seq<State>, acts: seq<Action>, n: nat)
    requires Run(ws, acts) && n < |acts| && acts[n].Finish?
    ensures var a, ts, ts' := acts[n], TakenOn(ws[n], acts[n].conn), TakenOn(ws[n + 1], acts[n].conn);
      var out' := Out(ws[n + 1].s, a.conn);
      && |ts'| == |ts| > 0 && ts'[|ts| - 1] == Taken(ts[|ts| - 1].m, Some(a.err.None?))
      && |out'| == |Out(ws[n].s, a.conn)| + 1 && Reported(out'[|out'| - 1], ts[|ts| - 1].m, a.err, a.id, a.o)
  {
    RunInStep(ws, acts, n, acts[n].conn);
    var ts := TakenOn(ws[n], acts[n].conn);
    ReplyAnswers(ts[|ts| - 1].m, acts[n].err, acts[n].id);
  }

  /** The messages that went through ProcessMsg, in order: requests, answers, results and events. */
  ghost function History(ws: seq<State>, acts: seq<Action>, n: nat): seq<Msg>
    requires Run(ws, acts) && n < |ws|
  {
    if n == 0 then []
    else
      var before, s, a := History(ws, acts, n - 1), ws[n], acts[n - 1];
      match a
      case Take(_, m) => before + [m]
      case Finish(conn, _, _, _) => before + [Out(s.s, conn)[|Out(s.s, conn)| - 1].m]
      case Push(_, m, _) => before + [m]
      case CloseConn(_, _) => before
  }

  function Tally(ms: seq<Msg>, t: Type): nat {
    if ms == [] then 0 else Tally(ms[..|ms| - 1], t) + if TypeOf(ms[|ms| - 1]) == t then 1 else 0
  }

  function TallyRead(ms: seq<Msg>): nat {
    if ms == [] then 0 else TallyRead(ms[..|ms| - 1]) + if IsRead(TypeOf(ms[|ms| - 1])) then 1 else 0
  }

  lemma CountedExactly(c: Counters, ms: seq<Msg>, m: Msg, t: Type)
    requires c.all == |ms| && c.read == TallyRead(ms) && c.written == |ms| - TallyRead(ms) && Of(c, t) == Tally(ms, t)
    ensures var c', ms' := Counted(c, m), ms + [m];
      c'.all == |ms'| && c'.read == TallyRead(ms') && c'.written == |ms'| - TallyRead(ms') && Of(c', t) == Tally(ms', t)
  {
    assert (ms + [m])[..|ms|] == ms;
  }

  /** The counters, exactly: all messages, those read, those written, and those of each type. */
  lemma {:induction false} CountersExactly(ws: seq<State>, acts: seq<Action>, n: nat, t: Type)
    requires Run(ws, acts) && n < |ws|
    ensures var c, ms := ws[n].s.counters, History(ws, acts, n);
      c.all == |ms| && c.read == TallyRead(ms) && c.written == |ms| - TallyRead(ms) && Of(c, t) == Tally(ms, t)
    decreases n
  {
    if n > 0 {
      CountersExactly(ws, acts, n - 1, t);
      var c, ms, a := ws[n - 1].s.counters, History(ws, acts, n - 1), acts[n - 1];
      match a
      case Take(_, m) => CountedExactly(c, ms, m, t);
      case Finish(conn, err, id, _) =>
        var ts := TakenOn(ws[n - 1], conn);
        CountedExactly(c, ms, ReplyTo(ts[|ts| - 1].m, err, id), t);
      case Push(_, m, _) => CountedExactly(c, ms, m, t);
      case CloseConn(_, _) =>
    }
  }

  /** The counters: at any time the requests read are the ACKs, the NACKs and the requests being processed. */
  lemma {:induction false} CountersBalance(ws: seq<State>, acts: seq<Action>, n: nat)
    requires Run(ws, acts) && n < |ws|
    ensures Balanced(ws[n])
    decreases n
  {
    if n > 0 {
      CountersBalance(ws, acts, n - 1);
      StepBalanced(ws[n - 1], acts[n - 1]);
    }
  }
}
