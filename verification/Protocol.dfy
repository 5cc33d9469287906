/**
 The life of a call: from the server that receives a CALL, through the call list, the
 callee and the result list, to the RES sent on a connection.

 A `World` is one state of all of it; an `Action` is one atomic step of one goroutine or
 of redis, and carries every outcome that the step does not decide itself. Any sequence of
 enabled actions is a run, so the theorems hold for every interleaving.
 */
module Protocol {
  import opened Wrappers
  import opened Keys
  import opened RedisStore
  import opened Timing

  /** The stored form of a call or of its result; both have the same fields. */
  datatype Payload = Payload(conn: Uuid, msg: Uuid, uri: string, args: string)

  /** What happened, in order. */
  datatype Event =
    | Received(conn: Uuid, msg: Uuid, uri: string, args: string)
    | Acked(conn: Uuid, msg: Uuid)
    | Nacked(conn: Uuid, msg: Uuid)
    | Invoked(msg: Uuid, uri: string, args: string)
    | Stored(msg: Uuid, args: string)
    | ResSent(conn: Uuid, msg: Uuid, uri: string, args: string)

  /** Where a payload is once it has left a list: held by one goroutine, or dropped by it. */
  datatype Stage =
    | CallPopped
    | CallDropped
    | CallReady(ttl: int, readAt: int)
    | Running(ttl: int, readAt: int, start: int)
    | CalleeExpired
    | Storing(remain: int, readAt: int, start: int, end: int)
    | ResultFailed
    | ResPopped(on: Uuid)
    | ResDropped
    | ResReady(on: Uuid, checkedAt: int)
    | Sent(on: Uuid, checkedAt: int)

  datatype Job = Job(p: Payload, stage: Stage)

  /** The times at which the result of a call came to be stored, and the deadline it got. */
  datatype StoredResult =
    StoredResult(at: nat, args: string, readAt: int, start: int, end: int, time: int, deadline: int)

  /** The history of one CALL; indices are positions in the log, and checkedAt is when the PTTL of the RES was read. */
  datatype Call = Call(
    conn: Uuid, uri: string, args: string, accepted: bool, deadline: int, receivedAt: nat,
    repliedAt: Option<nat>, invokedAt: Option<nat>, stored: Option<StoredResult>, sentAt: Option<nat>,
    checkedAt: Option<int>)

  datatype World = World(
    now: nat,                       // nanoseconds
    db: Space<Key, Payload>,
    calls: map<Uuid, Call>,         // every CALL received
    unreplied: map<Uuid, Uuid>,     // per connection, the CALL its receive loop has not answered yet
    jobs: seq<Job>,
    lost: seq<Payload>,             // accepted, then trimmed off a list by a refused registration
    log: seq<Event>)

  datatype Action =
    | Tick(dt: nat)
    | Expire(key: Key)
    | Receive(conn: Uuid, msg: Uuid, uri: string, args: string, timeout: int, cap: int, fault: bool)
    | Reply(conn: Uuid)
    | PopCall(uris: seq<string>)
    | ReadCallTtl(i: nat, fault: bool)
    | Invoke(i: nat)
    | Return(i: nat)
    | StoreResult(i: nat, args: string, cap: int, fault: bool)
    | PopResult(conn: Uuid)
    | ReadResTtl(i: nat, fault: bool)
    | SendRes(i: nat)

  function Init(): World { World(0, map[], map[], map[], [], [], []) }

  function Millis(s: World): int { s.now / MS }

  function CallItems(s: World, uri: string): seq<Payload> { Items(s.db, CallList(uri)) }

  function ResItems(s: World, conn: Uuid): seq<Payload> { Items(s.db, ResList(conn)) }

  function CallKeys(uris: seq<string>): seq<Key> {
    seq(|uris|, i requires 0 <= i < |uris| => CallList(uris[i]))
  }

  predicate Enabled(s: World, a: Action) {
    match a
    case Tick(_) => true
    case Expire(key) => key in s.db && s.db[key].Expiring? && s.db[key].deadline < Millis(s)
    // fresh message UUIDs are the one hypothesis; a receive loop answers before it reads again
    case Receive(conn, msg, _, _, _, _, _) => msg !in s.calls && conn !in s.unreplied
    case Reply(conn) => conn in s.unreplied && s.unreplied[conn] in s.calls
    case PopCall(uris) => Peek(s.db, Millis(s), CallKeys(uris)).Item?
    case ReadCallTtl(i, _) => i < |s.jobs| && s.jobs[i].stage.CallPopped?
    case Invoke(i) => i < |s.jobs| && s.jobs[i].stage.CallReady? && s.jobs[i].p.msg in s.calls
    case Return(i) => i < |s.jobs| && s.jobs[i].stage.Running?
    case StoreResult(i, _, _, _) => i < |s.jobs| && s.jobs[i].stage.Storing? && s.jobs[i].p.msg in s.calls
    case PopResult(conn) => Peek(s.db, Millis(s), [ResList(conn)]).Item?
    case ReadResTtl(i, _) => i < |s.jobs| && s.jobs[i].stage.ResPopped?
    case SendRes(i) => i < |s.jobs| && s.jobs[i].stage.ResReady? && s.jobs[i].p.msg in s.calls
  }

  function Staged(s: World, i: nat, stage: Stage): seq<Job>
    requires i < |s.jobs|
  {
    s.jobs[i := s.jobs[i].(stage := stage)]
  }

  /** What a refused registration trims off the queue q. */
  function TrimmedOff(q: seq<Payload>, r: Reply, cap: int): seq<Payload> {
    if r.CapacityExceeded? && 0 < cap <= |q| then q[cap..] else []
  }

  /** ProcessMsg for a CALL, up to the reply of the broker. */
  function ReceiveCall(s: World, a: Action): World
    requires a.Receive?
  {
    var p := Payload(a.conn, a.msg, a.uri, a.args);
    var px := ExpiryMillis(a.timeout);
    var (db, r) := if a.fault then (s.db, InvalidExpire)
                   else Register(s.db, Millis(s), CallTimeout(a.uri, a.msg), CallList(a.uri), px, p, a.cap);
    s.(db := db,
       calls := s.calls[a.msg := Call(a.conn, a.uri, a.args, r.Length?, Millis(s) + px, |s.log|,
                                      None, None, None, None, None)],
       unreplied := s.unreplied[a.conn := a.msg],
       lost := s.lost + TrimmedOff(CallItems(s, a.uri), r, a.cap),
       log := s.log + [Received(a.conn, a.msg, a.uri, a.args)])
  }

  function SendReply(s: World, conn: Uuid): World
    requires Enabled(s, Reply(conn))
  {
    var m := s.unreplied[conn];
    var c := s.calls[m];
    s.(calls := s.calls[m := c.(repliedAt := Some(|s.log|))],
       unreplied := s.unreplied - {conn},
       log := s.log + [if c.accepted then Acked(conn, m) else Nacked(conn, m)])
  }

  function PopTo(s: World, p: Popped<Key, Payload>, stage: Stage): World
    requires p.Item? && Items(s.db, p.key) != []
  {
    s.(db := Dequeue(s.db, p.key), jobs := s.jobs + [Job(p.item, stage)])
  }

  /** sendCall: the PTTL of the call decides whether it goes to the callee. */
  function CheckCall(s: World, i: nat, fault: bool): World
    requires Enabled(s, ReadCallTtl(i, fault))
  {
    var p := s.jobs[i].p;
    var k := CallTimeout(p.uri, p.msg);
    var pttl := Pttl(s.db, Millis(s), k);
    if fault then s.(jobs := Staged(s, i, CallDropped))
    else s.(db := s.db - {k},
            jobs := Staged(s, i, if pttl <= 0 then CallDropped else CallReady(pttl * MS, s.now)))
  }

  function StartThunk(s: World, i: nat): World
    requires Enabled(s, Invoke(i))
  {
    var p, st := s.jobs[i].p, s.jobs[i].stage;
    s.(jobs := Staged(s, i, Running(st.ttl, st.readAt, s.now)),
       calls := s.calls[p.msg := s.calls[p.msg].(invokedAt := Some(|s.log|))],
       log := s.log + [Invoked(p.msg, p.uri, p.args)])
  }

  /** The end of the thunk: the time it took is charged to the time to live. */
  function EndThunk(s: World, i: nat): World
    requires Enabled(s, Return(i))
  {
    var st := s.jobs[i].stage;
    var remain := st.ttl - (s.now - st.start);
    s.(jobs := Staged(s, i, if remain > 0 then Storing(remain, st.readAt, st.start, s.now) else CalleeExpired))
  }

  /** storeResult: the result payload names the connection, message and URI of the call payload. */
  function RegisterResult(s: World, a: Action): World
    requires a.StoreResult? && Enabled(s, a)
  {
    var p, st := s.jobs[a.i].p, s.jobs[a.i].stage;
    var rp := Payload(p.conn, p.msg, p.uri, a.args);
    var px := ExpiryMillis(st.remain);
    var (db, r) := if a.fault then (s.db, InvalidExpire)
                   else Register(s.db, Millis(s), ResTimeout(p.conn, p.msg), ResList(p.conn), px, rp, a.cap);
    if r.Length? then
      var res := StoredResult(|s.log|, a.args, st.readAt, st.start, st.end, s.now, Millis(s) + px);
      s.(db := db,
         jobs := s.jobs[..a.i] + s.jobs[a.i + 1..],
         calls := s.calls[p.msg := s.calls[p.msg].(stored := Some(res))],
         log := s.log + [Stored(p.msg, a.args)])
    else
      s.(db := db,
         jobs := Staged(s, a.i, ResultFailed),
         lost := s.lost + TrimmedOff(ResItems(s, p.conn), r, a.cap))
  }

  /** sendResult: the PTTL of the result decides whether it goes to the connection. */
  function CheckResult(s: World, i: nat, fault: bool): World
    requires Enabled(s, ReadResTtl(i, fault))
  {
    var p, on := s.jobs[i].p, s.jobs[i].stage.on;
    var k := ResTimeout(p.conn, p.msg);
    if fault then s.(jobs := Staged(s, i, ResDropped))
    else s.(db := s.db - {k},
            jobs := Staged(s, i, if Pttl(s.db, Millis(s), k) <= 0 then ResDropped else ResReady(on, s.now)))
  }

  /** The results loop of connection `on` sends RES, naming the message and URI of the payload. */
  function EmitRes(s: World, i: nat): World
    requires Enabled(s, SendRes(i))
  {
    var p, on, checkedAt := s.jobs[i].p, s.jobs[i].stage.on, s.jobs[i].stage.checkedAt;
    s.(jobs := Staged(s, i, Sent(on, checkedAt)),
       calls := s.calls[p.msg := s.calls[p.msg].(sentAt := Some(|s.log|), checkedAt := Some(checkedAt))],
       log := s.log + [ResSent(on, p.msg, p.uri, p.args)])
  }

  function Apply(s: World, a: Action): World
    requires Enabled(s, a)
  {
    match a
    case Tick(dt) => s.(now := s.now + dt)
    case Expire(key) => s.(db := s.db - {key})
    case Receive(_, _, _, _, _, _, _) => ReceiveCall(s, a)
    case Reply(conn) => SendReply(s, conn)
    case PopCall(uris) => PopTo(s, Peek(s.db, Millis(s), CallKeys(uris)), CallPopped)
    case ReadCallTtl(i, fault) => CheckCall(s, i, fault)
    case Invoke(i) => StartThunk(s, i)
    case Return(i) => EndThunk(s, i)
    case StoreResult(_, _, _, _) => RegisterResult(s, a)
    case PopResult(conn) => PopTo(s, Peek(s.db, Millis(s), [ResList(conn)]), ResPopped(conn))
    case ReadResTtl(i, fault) => CheckResult(s, i, fault)
    case SendRes(i) => EmitRes(s, i)
  }

  /** A run: the states it goes through, one more than its actions. */
  ghost predicate Run(ws: seq<World>, acts: seq<Action>) {
    && |ws| == |acts| + 1
    && ws[0] == Init()
    && forall i :: 0 <= i < |acts| ==> Enabled(ws[i], acts[i]) && ws[i + 1] == Apply(ws[i], acts[i])
  }
}
