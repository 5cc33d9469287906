/**
 A client and its server together: the client reads, in order, what the server sent on its
 connection, and the server only receives calls on it that the client wrote. So what the
 client takes for granted of the server is proved, and what it is given can be traced back.
 */
module Session {
  import opened Wrappers
  import opened Keys
  import C = Client
  import P = Protocol
  import T = ProtocolTheorems
  import R = ProtocolResults

  /** The server with its broker and callees, one client, and how much of the log the client has read or lost. */
  datatype State = State(server: P.World, client: C.State, cursor: nat)

  datatype Action =
    | Server(sa: P.Action)
    | Client(ca: C.Action)
    | Fetch(lost: bool)       // the next event of the log reaches the client, if it is for it and is not lost

  function Init(): State { State(P.Init(), C.Init(), 0) }

  /** What the client gets to read of an event. */
  function Seen(e: P.Event, conn: Uuid): Option<C.Message> {
    match e
    case Acked(c, m) => if c == conn then Some(C.Ack(m)) else None
    case Nacked(c, m) => if c == conn then Some(C.Nack(m, true)) else None
    case ResSent(c, m, _, _) => if c == conn then Some(C.Res(m)) else None
    case _ => None
  }

  /** Messages that have nothing to do with calls: events, and replies to other requests. */
  predicate Foreign(m: C.Message, isCall: Uuid -> bool) {
    m.Evnt? || (m.Ack? && !isCall(m.msg)) || (m.Nack? && !m.forCall)
  }

  predicate Enabled(s: State, a: Action, conn: Uuid, isCall: Uuid -> bool) {
    match a
    case Server(sa) =>
      && P.Enabled(s.server, sa)
      && (sa.Receive? && sa.conn == conn ==> isCall(sa.msg) && C.Wrote(sa.msg) in s.client.log)
    case Client(ca) => C.Enabled(s.client, ca) && (ca.Read? ==> Foreign(ca.m, isCall))
    case Fetch(lost) => s.cursor < |s.server.log| && (lost || s.client.reader.Reading?)
  }

  function Apply(s: State, a: Action, conn: Uuid, isCall: Uuid -> bool): State
    requires Enabled(s, a, conn, isCall)
  {
    match a
    case Server(sa) => s.(server := P.Apply(s.server, sa))
    case Client(ca) => s.(client := C.Apply(s.client, ca))
    case Fetch(lost) =>
      var m := Seen(s.server.log[s.cursor], conn);
      if lost || m.None? then s.(cursor := s.cursor + 1)
      else s.(cursor := s.cursor + 1, client := C.Apply(s.client, C.Read(m.value)))
  }

  ghost predicate Run(ws: seq<State>, acts: seq<Action>, conn: Uuid, isCall: Uuid -> bool) {
    && |ws| == |acts| + 1
    && ws[0] == Init()
    && forall i :: 0 <= i < |acts| ==>
         Enabled(ws[i], acts[i], conn, isCall) && ws[i + 1] == Apply(ws[i], acts[i], conn, isCall)
  }

  // ------------------------------------------------------------- the two sides

  /** The server's side of a session is a run of the protocol. */
  lemma {:induction false} ServerSide(ws: seq<State>, acts: seq<Action>, conn: Uuid, isCall: Uuid -> bool, n: nat)
    returns (ss: seq<P.World>, sas: seq<P.Action>)
    requires Run(ws, acts, conn, isCall) && n < |ws|
    ensures P.Run(ss, sas) && ss[|sas|] == ws[n].server
    decreases n
  {
    if n == 0 {
      ss, sas := [P.Init()], [];
    } else {
      ss, sas := ServerSide(ws, acts, conn, isCall, n - 1);
      var a := acts[n - 1];
      if a.Server? { ss, sas := T.Extended(ss, sas, a.sa); }
    }
  }

  /** The client's side of a session is a run of the client. */
  lemma {:induction false} ClientSide(ws: seq<State>, acts: seq<Action>, conn: Uuid, isCall: Uuid -> bool, n: nat)
    returns (cs: seq<C.State>, cas: seq<C.Action>)
    requires Run(ws, acts, conn, isCall) && n < |ws|
    ensures C.Run(cs, cas) && cs[|cas|] == ws[n].client
    decreases n
  {
    if n == 0 {
      cs, cas := [C.Init()], [];
    } else {
      cs, cas := ClientSide(ws, acts, conn, isCall, n - 1);
      var s, a := ws[n - 1], acts[n - 1];
      if a.Client? {
        cs, cas := C.Extended(cs, cas, a.ca);
      } else if a.Fetch? && !a.lost && Seen(s.server.log[s.cursor], conn).Some? {
        cs, cas := C.Extended(cs, cas, C.Read(Seen(s.server.log[s.cursor], conn).value));
      }
    }
  }

  // ------------------------------------------------------- where a read is from

  /** Among the first n events of the log is one that the client reads as m. */
  predicate SentBefore(log: seq<P.Event>, n: nat, conn: Uuid, m: C.Message)
    requires n <= |log|
  {
    exists k :: 0 <= k < n && Seen(log[k], conn) == Some(m)
  }

  lemma SentAt(log: seq<P.Event>, n: nat, conn: Uuid, m: C.Message) returns (k: nat)
    requires n <= |log| && SentBefore(log, n, conn, m)
    ensures k < n
    ensures m.Ack? ==> log[k] == P.Acked(conn, m.msg)
    ensures m.Nack? ==> log[k] == P.Nacked(conn, m.msg)
    ensures m.Res? ==> log[k].ResSent? && log[k].conn == conn && log[k].msg == m.msg
  {
    k :| 0 <= k < n && Seen(log[k], conn) == Some(m);
  }

  /** Every reply to a call that the client read was sent, and every call received was written. */
  ghost predicate Sourced(s: State, conn: Uuid, isCall: Uuid -> bool, u: Uuid) {
    && s.cursor <= |s.server.log|
    && (C.GotRes(u) in s.client.log ==> SentBefore(s.server.log, s.cursor, conn, C.Res(u)))
    && (C.GotNack(u) in s.client.log ==> SentBefore(s.server.log, s.cursor, conn, C.Nack(u, true)))
    && (C.GotAck(u) in s.client.log && isCall(u) ==> SentBefore(s.server.log, s.cursor, conn, C.Ack(u)))
    && (forall k :: 0 <= k < |s.server.log| && ReceivedOn(s.server.log[k], conn, u) ==> C.Wrote(u) in s.client.log)
  }

  predicate ReceivedOn(e: P.Event, conn: Uuid, u: Uuid) { e.Received? && e.conn == conn && e.msg == u }

  lemma LogExtends(s: P.World, a: P.Action)
    requires P.Enabled(s, a)
    ensures s.log <= P.Apply(s, a).log
    ensures forall k :: |s.log| <= k < |P.Apply(s, a).log| && P.Apply(s, a).log[k].Received? ==>
      a.Receive? && P.Apply(s, a).log[k] == P.Received(a.conn, a.msg, a.uri, a.args)
  {
  }

  lemma ServerSourced(s: State, a: Action, conn: Uuid, isCall: Uuid -> bool, u: Uuid)
    requires Sourced(s, conn, isCall, u) && a.Server? && Enabled(s, a, conn, isCall)
    ensures Sourced(Apply(s, a, conn, isCall), conn, isCall, u)
  {
    var s' := Apply(s, a, conn, isCall);
    LogExtends(s.server, a.sa);
    forall m | SentBefore(s.server.log, s.cursor, conn, m) ensures SentBefore(s'.server.log, s.cursor, conn, m) {
      var k :| 0 <= k < s.cursor && Seen(s.server.log[k], conn) == Some(m);
      assert s'.server.log[k] == s.server.log[k];
    }
    forall k | 0 <= k < |s'.server.log| && ReceivedOn(s'.server.log[k], conn, u) ensures C.Wrote(u) in s'.client.log {
      if k < |s.server.log| { assert s'.server.log[k] == s.server.log[k]; }
    }
  }

  lemma ClientSourced(s: State, a: Action, conn: Uuid, isCall: Uuid -> bool, u: Uuid)
    requires Sourced(s, conn, isCall, u) && a.Client? && Enabled(s, a, conn, isCall)
    ensures Sourced(Apply(s, a, conn, isCall), conn, isCall, u)
  {
    ReadEvents(s.client, a.ca, u);
  }

  /** What is new in the log of the client. */
  lemma ReadEvents(s: C.State, a: C.Action, u: Uuid)
    requires C.Enabled(s, a)
    ensures var log := C.Apply(s, a).log;
      && (C.GotRes(u) in log <==> C.GotRes(u) in s.log || a == C.Read(C.Res(u)))
      && (C.GotNack(u) in log <==> C.GotNack(u) in s.log || a == C.Read(C.Nack(u, true)))
      && (C.GotAck(u) in log <==> C.GotAck(u) in s.log || a == C.Read(C.Ack(u)))
      && (C.Wrote(u) in s.log ==> C.Wrote(u) in log)
  {
  }

  lemma FetchSourced(s: State, a: Action, conn: Uuid, isCall: Uuid -> bool, u: Uuid)
    requires Sourced(s, conn, isCall, u) && a.Fetch? && Enabled(s, a, conn, isCall)
    ensures Sourced(Apply(s, a, conn, isCall), conn, isCall, u)
  {
    var log, n := s.server.log, s.cursor;
    forall m | SentBefore(log, n, conn, m) || Seen(log[n], conn) == Some(m) ensures SentBefore(log, n + 1, conn, m) {
      if SentBefore(log, n, conn, m) { var k :| 0 <= k < n && Seen(log[k], conn) == Some(m); }
    }
    var m := Seen(log[n], conn);
    if !a.lost && m.Some? { ReadEvents(s.client, C.Read(m.value), u); }
  }

  lemma {:induction false} RunSourced(
      ws: seq<State>, acts: seq<Action>, conn: Uuid, isCall: Uuid -> bool, n: nat, u: Uuid)
    requires Run(ws, acts, conn, isCall) && n < |ws|
    ensures Sourced(ws[n], conn, isCall, u)
    decreases n
  {
    if n > 0 {
      RunSourced(ws, acts, conn, isCall, n - 1, u);
      var s, a := ws[n - 1], acts[n - 1];
      match a
      case Server(_) => ServerSourced(s, a, conn, isCall, u);
      case Client(_) => ClientSourced(s, a, conn, isCall, u);
      case Fetch(_) => FetchSourced(s, a, conn, isCall, u);
    }
  }

  // -------------------------------------------------------------- the theorems

  /** The client never reads both an ACK and a NACK for a call. */
  lemma AnsweredOnce(ws: seq<State>, acts: seq<Action>, conn: Uuid, isCall: Uuid -> bool, n: nat, u: Uuid)
    requires Run(ws, acts, conn, isCall) && n < |ws| && isCall(u)
    ensures C.AnsweredOnce(ws[n].client.log, u)
  {
    RunSourced(ws, acts, conn, isCall, n, u);
    var ss, sas := ServerSide(ws, acts, conn, isCall, n);
    var log := ws[n].server.log;
    if !C.AnsweredOnce(ws[n].client.log, u) {
      var i := SentAt(log, ws[n].cursor, conn, C.Ack(u));
      var j := SentAt(log, ws[n].cursor, conn, C.Nack(u, true));
      T.AtMostOnce(ss, sas, |sas|, i, j);
    }
  }

  /** A call refused by the server gives the client no RES, in any order of events. */
  lemma RefusedGetsNoRes(ws: seq<State>, acts: seq<Action>, conn: Uuid, isCall: Uuid -> bool, n: nat, u: Uuid)
    requires Run(ws, acts, conn, isCall) && n < |ws| && C.GotNack(u) in ws[n].client.log
    ensures C.GotRes(u) !in ws[n].client.log
  {
    RunSourced(ws, acts, conn, isCall, n, u);
    var ss, sas := ServerSide(ws, acts, conn, isCall, n);
    var log := ws[n].server.log;
    if C.GotRes(u) in ws[n].client.log {
      var i := SentAt(log, ws[n].cursor, conn, C.Nack(u, true));
      var j := SentAt(log, ws[n].cursor, conn, C.Res(u));
      T.RefusedGetsNothing(ss, sas, |sas|, i, j);
    }
  }

  /**
   What the client promises, with nothing assumed of the server: an ACKed call that is over
   hands over exactly one of RES and EXP, or neither if its timer goroutine quit at the stop
   signal and no RES came after addPending.
   */
  lemma CallOutcome(ws: seq<State>, acts: seq<Action>, conn: Uuid, isCall: Uuid -> bool, n: nat, u: Uuid, a: nat)
    requires Run(ws, acts, conn, isCall) && n < |ws| && isCall(u)
    requires var c := ws[n].client;
      C.GotAck(u) in c.log && C.Opens(c.log, u, a) && u in c.requests && c.requests[u].Over?
    ensures var c := ws[n].client;
      C.ResCount(c.t.handed, u) + C.ExpCount(c.t.handed, u)
      == if C.Quit(u) !in c.log || C.ResAfter(c.log, u, a) then 1 else 0
  {
    AnsweredOnce(ws, acts, conn, isCall, n, u);
    var cs, cas := ClientSide(ws, acts, conn, isCall, n);
    C.AckedOutcomeExact(cs, cas, |cas|, u, a);
  }

  /**
   From end to end: a RES that the client hands over is for a call that it wrote, that the
   server received on its connection, that was invoked exactly once, with the URI and the
   arguments of the call, and whose one stored result was then sent on that connection.
   */
  lemma HandedResTraced(ws: seq<State>, acts: seq<Action>, conn: Uuid, isCall: Uuid -> bool, n: nat, u: Uuid)
    returns (uri: string, args: string, res: string, r: nat, v: nat, t: nat, j: nat)
    requires Run(ws, acts, conn, isCall) && n < |ws| && C.Res(u) in ws[n].client.t.handed
    ensures C.Wrote(u) in ws[n].client.log
    ensures var log := ws[n].server.log;
      && r < v < t < j < |log|
      && log[r] == P.Received(conn, u, uri, args)
      && log[v] == P.Invoked(u, uri, args)
      && log[t] == P.Stored(u, res)
      && log[j] == P.ResSent(conn, u, uri, res)
      && (forall w :: 0 <= w < |log| && log[w].Invoked? && log[w].msg == u ==> w == v)
  {
    var cs, cas := ClientSide(ws, acts, conn, isCall, n);
    C.ResRead(cs, cas, |cas|, u);
    RunSourced(ws, acts, conn, isCall, n, u);
    var ss, sas := ServerSide(ws, acts, conn, isCall, n);
    var log := ws[n].server.log;
    j := SentAt(log, ws[n].cursor, conn, C.Res(u));
    args, r, v, t := T.Routing(ss, sas, |sas|, j);
    uri, res := log[j].uri, log[j].args;
    assert ReceivedOn(log[r], conn, u);
    forall w | 0 <= w < |log| && log[w].Invoked? && log[w].msg == u ensures w == v {
      T.AtMostOnce(ss, sas, |sas|, w, v);
    }
  }

  // ----------------------------------------------------------- a session exists

  lemma Extended(ws: seq<State>, acts: seq<Action>, conn: Uuid, isCall: Uuid -> bool, a: Action)
    returns (ws': seq<State>, acts': seq<Action>)
    requires Run(ws, acts, conn, isCall) && Enabled(ws[|acts|], a, conn, isCall)
    ensures Run(ws', acts', conn, isCall) && ws'[|acts'|] == Apply(ws[|acts|], a, conn, isCall)
  {
    ws', acts' := ws + [Apply(ws[|acts|], a, conn, isCall)], acts + [a];
  }

  /** The server can go through any run of its own that receives no call but m, once the client has written m. */
  lemma {:induction false} Served(
      ws: seq<State>, acts: seq<Action>, conn: Uuid, isCall: Uuid -> bool,
      ss: seq<P.World>, sas: seq<P.Action>, n: nat, m: Uuid)
    returns (ws': seq<State>, acts': seq<Action>)
    requires Run(ws, acts, conn, isCall) && ws[|acts|].server == P.Init()
    requires isCall(m) && C.Wrote(m) in ws[|acts|].client.log
    requires P.Run(ss, sas) && n < |ss| && T.OnlyReceives(sas, m)
    ensures Run(ws', acts', conn, isCall) && ws'[|acts'|] == ws[|acts|].(server := ss[n])
    decreases n
  {
    if n == 0 {
      ws', acts' := ws, acts;
    } else {
      ws', acts' := Served(ws, acts, conn, isCall, ss, sas, n - 1, m);
      ws', acts' := Extended(ws', acts', conn, isCall, Server(sas[n - 1]));
    }
  }

  /** Events can be lost up to any point. */
  lemma {:induction false} Skipped(ws: seq<State>, acts: seq<Action>, conn: Uuid, isCall: Uuid -> bool, n: nat)
    returns (ws': seq<State>, acts': seq<Action>)
    requires Run(ws, acts, conn, isCall) && ws[|acts|].cursor == 0 && n <= |ws[|acts|].server.log|
    ensures Run(ws', acts', conn, isCall) && ws'[|acts'|] == ws[|acts|].(cursor := n)
    decreases n
  {
    if n == 0 {
      ws', acts' := ws, acts;
    } else {
      ws', acts' := Skipped(ws, acts, conn, isCall, n - 1);
      ws', acts' := Extended(ws', acts', conn, isCall, Fetch(true));
    }
  }

  /** A session in which the client has written a call and made it pending. */
  lemma Begun(conn: Uuid, m: Uuid, isCall: Uuid -> bool) returns (ws: seq<State>, acts: seq<Action>)
    ensures Run(ws, acts, conn, isCall)
    ensures var s := ws[|acts|];
      && s.server == P.Init() && s.cursor == 0 && C.Wrote(m) in s.client.log
      && m in s.client.t.pending && s.client.reader.Reading?
  {
    ws, acts := [Init()], [];
    ws, acts := Extended(ws, acts, conn, isCall, Client(C.Begin(m)));
    ws, acts := Extended(ws, acts, conn, isCall, Client(C.Write(m, C.WriteOk)));
    ws, acts := Extended(ws, acts, conn, isCall, Client(C.Add(m)));
    assert ws[|acts|].client.log[1] == C.Wrote(m);
  }

  /** There is a session in which a RES reaches the client. */
  lemma SomeSession(conn: Uuid, m: Uuid, isCall: Uuid -> bool) returns (ws: seq<State>, acts: seq<Action>)
    requires isCall(m)
    ensures Run(ws, acts, conn, isCall) && C.Res(m) in ws[|acts|].client.t.handed
  {
    ws, acts := Begun(conn, m, isCall);
    var ss, sas := R.LateRes(conn, m);
    ws, acts := Served(ws, acts, conn, isCall, ss, sas, |sas|, m);
    ws, acts := Skipped(ws, acts, conn, isCall, |ss[|sas|].log| - 1);
    ws, acts := Extended(ws, acts, conn, isCall, Fetch(false));
  }
}
