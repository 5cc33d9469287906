/**
 The client: its table of pending calls, its error and its stop signal, which the read
 loop, the callers, the expiry timers and Close all change, each under the mutex.
 */
module Client {
  import opened Wrappers
  import opened Keys

  /** What the handler can be given. Only the message that a reply is for matters here. */
  datatype Message =
    | Ack(msg: Uuid)
    | Nack(msg: Uuid, forCall: bool)
    | Res(msg: Uuid)
    | Evnt
    | Exp(msg: Uuid)

  /** The shared fields, and the messages for which a handler goroutine was started. */
  datatype Table = Table(pending: set<Uuid>, err: Option<string>, stopped: bool, handed: seq<Message>)

  function Hand(t: Table, m: Message): Table { t.(handed := t.handed + [m]) }

  /** One turn of the read loop on a message of the server. */
  function OnMessage(t: Table, m: Message): Table {
    match m
    case Res(u) => if u in t.pending then Hand(t.(pending := t.pending - {u}), m) else t
    case Nack(u, forCall) => Hand(if forCall then t.(pending := t.pending - {u}) else t, m)
    case _ => Hand(t, m)
  }

  function OnTimer(t: Table, u: Uuid): Table {
    if u in t.pending then Hand(t.(pending := t.pending - {u}), Exp(u)) else t
  }

  /** The first error stays. */
  function Failed(t: Table, e: string): Table { if t.err.None? then t.(err := Some(e)) else t }

  /** The end of Close, which saw `saved` as the error when it began. */
  function Closed(t: Table, saved: Option<string>, closeErr: Option<string>): Table {
    if saved.Some? then t
    else t.(err := Some(if closeErr.Some? then closeErr.value else "closed connection"))
  }

  function OnMessages(t: Table, ms: seq<Option<Message>>): Table {
    if ms == [] then t
    else
      var before, last := OnMessages(t, ms[..|ms| - 1]), ms[|ms| - 1];
      if last.Some? then OnMessage(before, last.value) else before
  }

  class Client {
    var results: set<Uuid>
    var err: Option<string>
    var stop: bool              // the stop channel is closed
    var handed: seq<Message>    // messages for which a handler goroutine was started

    ghost function View(): Table
      reads this
    {
      Table(results, err, stop, handed)
    }

    constructor ()
      ensures View() == Table({}, None, false, [])
    {
      results, err, stop, handed := {}, None, false, [];
    }

    method AddPending(u: Uuid)
      modifies this`results
      ensures results == old(results) + {u}
    {
      results := results + {u};
    }

    method DeletePending(u: Uuid) returns (ok: bool)
      modifies this`results
      ensures ok <==> u in old(results)
      ensures results == old(results) - {u}
    {
      ok := u in results;
      results := results - {u};
    }

    /** The handler gets every message but a RES for a call that is not pending; RES and NACK end a call. */
    method HandleMessage(m: Message)
      modifies this
      ensures View() == OnMessage(old(View()), m)
      ensures handed == old(handed) + if m.Res? && m.msg !in old(results) then [] else [m]
      ensures results == if m.Res? || (m.Nack? && m.forCall) then old(results) - {m.msg} else old(results)
      ensures err == old(err) && stop == old(stop)
    {
      match m {
        case Res(u) =>
          var ok := DeletePending(u);
          if !ok { return; }
        case Nack(u, forCall) =>
          if forCall { var _ := DeletePending(u); }
        case _ =>
      }
      handed := handed + [m];
    }

    method SetError(e: string)
      modifies this`err
      ensures View() == Failed(old(View()), e)
    {
      if err == None { err := Some(e); }
    }

    /** The read loop over the frames that arrive until reading fails; None is a frame that does not decode. */
    method HandleMessages(frames: seq<Option<Message>>, e: string)
      modifies this
      ensures View() == Failed(OnMessages(old(View()), frames), e).(stopped := true)
      ensures stop && err == if old(err).Some? then old(err) else Some(e)
    {
      for i := 0 to |frames|
        invariant View() == OnMessages(old(View()), frames[..i]) && err == old(err)
      {
        assert frames[..i + 1][..i] == frames[..i];
        if frames[i].Some? { HandleMessage(frames[i].value); }
      }
      assert frames[..|frames|] == frames;
      SetError(e);
      stop := true;
    }

    /** Call, as steps of the machine: it is refused, or its write fails, or it is pending and its timer is set. */
    method Call(u: Uuid, outcome: WriteOutcome, ghost s: State) returns (ok: bool)
      requires s.t == View() && u !in s.requests
      modifies this
      ensures var s' := Called(s, u, outcome); View() == s'.t && (ok <==> s'.requests[u].Armed?)
      ensures ok <==> old(err).None? && outcome.WriteOk?
      ensures results == old(results) + if ok then {u} else {}
      ensures err == if old(err).None? && outcome.Fatal? then Some(outcome.e) else old(err)
      ensures handed == old(handed) && stop == old(stop)
    {
      if err.Some? { return false; }
      match outcome {
        case Fatal(e) => SetError(e); return false;
        case OtherError => return false;
        case WriteOk => AddPending(u); return true;
      }
    }

    /**
     Close, when nothing else goes on: the frames that are still read, the error that ends the
     read loop, and the error of closing the connection. The client is stopped and has an error
     for good; Close returns the error that the client had, if any, or else that of closing.
     */
    method Close(frames: seq<Option<Message>>, e: string, closeErr: Option<string>) returns (r: Option<string>)
      modifies this
      ensures View() == Closed(Failed(OnMessages(old(View()), frames), e).(stopped := true), old(err), closeErr)
      ensures stop && err.Some? && r == if old(err).Some? then old(err) else closeErr
    {
      var saved := err;
      HandleMessages(frames, e);
      FinishClose(saved, closeErr);
      r := if saved.Some? then saved else closeErr;
    }

    /** The timer branch of handleExpiredCall. */
    method ExpireCall(u: Uuid)
      modifies this
      ensures View() == OnTimer(old(View()), u)
      ensures handed == old(handed) + if u in old(results) then [Exp(u)] else []
      ensures results == old(results) - {u} && err == old(err) && stop == old(stop)
    {
      var ok := DeletePending(u);
      if ok { handed := handed + [Exp(u)]; }
    }

    method FinishClose(saved: Option<string>, closeErr: Option<string>)
      modifies this`err
      ensures View() == Closed(old(View()), saved, closeErr)
    {
      if saved == None {
        err := Some(if closeErr.Some? then closeErr.value else "closed connection");
      }
    }
  }

  // --------------------------------------------------------- interleavings

  /** How far one request of the application has come. */
  datatype Phase = Refused | Checked | Written | WriteFailed | Armed | Over

  datatype Reader = Reading | Failing | Done

  datatype Closer = Waiting(saved: Option<string>) | Returned

  datatype Event =
    | Begun(msg: Uuid)
    | Wrote(msg: Uuid)
    | Added(msg: Uuid)
    | GotAck(msg: Uuid)
    | GotRes(msg: Uuid)
    | GotNack(msg: Uuid)
    | Fired(msg: Uuid)
    | Quit(msg: Uuid)
    | CloseReturned

  datatype State = State(
    t: Table,
    requests: map<Uuid, Phase>,
    reader: Reader,
    closers: map<nat, Closer>,
    ran: seq<nat>,               // handler goroutines that have called the handler, by their place in t.handed
    log: seq<Event>)

  datatype WriteOutcome = WriteOk | Fatal(e: string) | OtherError

  datatype Action =
    | Begin(u: Uuid)
    | Write(u: Uuid, outcome: WriteOutcome)
    | Add(u: Uuid)
    | Timer(u: Uuid)
    | Stop(u: Uuid)
    | Read(m: Message)
    | ReadError(e: string)
    | StopReader
    | CloseBegin(k: nat)
    | CloseEnd(k: nat, closeErr: Option<string>)
    | Deliver(k: nat)

  function Init(): State { State(Table({}, None, false, []), map[], Reading, map[], [], []) }

  predicate Enabled(s: State, a: Action) {
    match a
    case Begin(u) => u !in s.requests          // UUIDs are fresh
    case Write(u, _) => u in s.requests && s.requests[u].Checked?
    case Add(u) => u in s.requests && s.requests[u].Written?
    case Timer(u) => u in s.requests && s.requests[u].Armed?
    case Stop(u) => u in s.requests && s.requests[u].Armed? && s.t.stopped
    case Read(m) => s.reader.Reading? && !m.Exp?
    case ReadError(_) => s.reader.Reading?
    case StopReader => s.reader.Failing?
    case CloseBegin(k) => k !in s.closers
    case CloseEnd(k, _) => k in s.closers && s.closers[k].Waiting? && s.t.stopped
    case Deliver(k) => k < |s.t.handed| && k !in s.ran
  }

  /** What an action writes to the log. */
  function Events(a: Action): seq<Event> {
    match a
    case Begin(u) => [Begun(u)]
    case Write(u, WriteOk) => [Wrote(u)]
    case Add(u) => [Added(u)]
    case Timer(u) => [Fired(u)]
    case Stop(u) => [Quit(u)]
    case Read(Ack(u)) => [GotAck(u)]
    case Read(Res(u)) => [GotRes(u)]
    case Read(Nack(u, true)) => [GotNack(u)]
    case CloseEnd(_, _) => [CloseReturned]
    case _ => []
  }

  function Effect(s: State, a: Action): State
    requires Enabled(s, a)
  {
    match a
    case Begin(u) => s.(requests := s.requests[u := if s.t.err.Some? then Refused else Checked])
    case Write(u, WriteOk) => s.(requests := s.requests[u := Written])
    case Write(u, Fatal(e)) => s.(requests := s.requests[u := WriteFailed], t := Failed(s.t, e))
    case Write(u, OtherError) => s.(requests := s.requests[u := WriteFailed])
    case Add(u) => s.(requests := s.requests[u := Armed], t := s.t.(pending := s.t.pending + {u}))
    case Timer(u) => s.(requests := s.requests[u := Over], t := OnTimer(s.t, u))
    case Stop(u) => s.(requests := s.requests[u := Over])
    case Read(m) => s.(t := OnMessage(s.t, m))
    case ReadError(e) => s.(t := Failed(s.t, e), reader := Failing)
    case StopReader => s.(t := s.t.(stopped := true), reader := Done)
    case CloseBegin(k) => s.(closers := s.closers[k := Waiting(s.t.err)])
    case CloseEnd(k, closeErr) =>
      s.(closers := s.closers[k := Returned], t := Closed(s.t, s.closers[k].saved, closeErr))
    case Deliver(k) => s.(ran := s.ran + [k])
  }

  function Apply(s: State, a: Action): State
    requires Enabled(s, a)
  {
    Effect(s, a).(log := s.log + Events(a))
  }

  /** The steps of one call of Call. */
  function Called(s: State, u: Uuid, outcome: WriteOutcome): (s': State)
    requires u !in s.requests
    ensures u in s'.requests
  {
    var begun := Apply(s, Begin(u));
    if begun.requests[u].Refused? then begun
    else
      var written := Apply(begun, Write(u, outcome));
      if outcome.WriteOk? then Apply(written, Add(u)) else written
  }

  ghost predicate Run(ws: seq<State>, acts: seq<Action>) {
    && |ws| == |acts| + 1
    && ws[0] == Init()
    && forall i :: 0 <= i < |acts| ==> Enabled(ws[i], acts[i]) && ws[i + 1] == Apply(ws[i], acts[i])
  }

  // ------------------------------------------------- what the actions hand over

  /** The call u was added, and no RES, no NACK and no timer has come for it since. */
  ghost predicate Due(acts: seq<Action>, n: nat, u: Uuid)
    requires n <= |acts|
  {
    exists k :: 0 <= k < n && acts[k] == Add(u) && NoEnd(acts, k, n, u)
  }

  predicate NoEnd(acts: seq<Action>, k: nat, n: nat, u: Uuid)
    requires n <= |acts|
  {
    forall j :: k < j < n ==> !Ends(acts[j], u)
  }

  predicate Ends(a: Action, u: Uuid) { a == Read(Res(u)) || a == Read(Nack(u, true)) || a == Timer(u) }

  lemma DueStep(acts: seq<Action>, n: nat, u: Uuid)
    requires n < |acts|
    ensures Due(acts, n + 1, u) <==> acts[n] == Add(u) || (Due(acts, n, u) && !Ends(acts[n], u))
  {
    if Due(acts, n + 1, u) { DueBefore(acts, n, u); }
    if acts[n] == Add(u) {
      assert NoEnd(acts, n, n + 1, u);
    } else if Due(acts, n, u) && !Ends(acts[n], u) {
      var k :| 0 <= k < n && acts[k] == Add(u) && NoEnd(acts, k, n, u);
      assert NoEnd(acts, k, n + 1, u);
    }
  }

  lemma DueBefore(acts: seq<Action>, n: nat, u: Uuid)
    requires n < |acts| && Due(acts, n + 1, u)
    ensures acts[n] == Add(u) || (Due(acts, n, u) && !Ends(acts[n], u))
  {
    var k :| 0 <= k < n + 1 && acts[k] == Add(u) && NoEnd(acts, k, n + 1, u);
    if k < n { assert NoEnd(acts, k, n, u); }
  }

  lemma PendingStep(s: State, a: Action, u: Uuid)
    requires Enabled(s, a)
    ensures u in Apply(s, a).t.pending <==> a == Add(u) || (u in s.t.pending && !Ends(a, u))
  {
  }

  /** The table of pending calls, in every state of every run. */
  lemma {:induction false} PendingExactly(ws: seq<State>, acts: seq<Action>, n: nat, u: Uuid)
    requires Run(ws, acts) && n < |ws|
    ensures u in ws[n].t.pending <==> Due(acts, n, u)
    decreases n
  {
    if n > 0 {
      PendingExactly(ws, acts, n - 1, u);
      DueStep(acts, n - 1, u);
      PendingStep(ws[n - 1], acts[n - 1], u);
    }
  }

  /** What an action hands over, told by the actions before it. */
  ghost function HandedBy(acts: seq<Action>, n: nat): seq<Message>
    requires n < |acts|
  {
    match acts[n]
    case Read(m) => if m.Res? && !Due(acts, n, m.msg) then [] else [m]
    case Timer(u) => if Due(acts, n, u) then [Exp(u)] else []
    case _ => []
  }

  /**
   Over every run: each message that is read is handed over, but a RES for a call that is no
   longer due; a timer hands over EXP for a call that still is; and nothing else is handed over.
   */
  lemma HandedExactly(ws: seq<State>, acts: seq<Action>, n: nat)
    requires Run(ws, acts) && n < |acts|
    ensures ws[n + 1].t.handed == ws[n].t.handed + HandedBy(acts, n)
  {
    var s, a := ws[n], acts[n];
    if a.Read? && a.m.Res? { PendingExactly(ws, acts, n, a.m.msg); }
    if a.Timer? { PendingExactly(ws, acts, n, a.u); }
    HandsOver(s, a);
  }

  lemma HandsOver(s: State, a: Action)
    requires Enabled(s, a)
    ensures Apply(s, a).t.handed
         == s.t.handed + match a
                         case Read(m) => if m.Res? && m.msg !in s.t.pending then [] else [m]
                         case Timer(u) => if u in s.t.pending then [Exp(u)] else []
                         case _ => []
  {
  }

  /** The messages of the frames that decode, in order. */
  function Decoded(frames: seq<Option<Message>>): seq<Message> {
    if frames == [] then []
    else (if frames[0].Some? then [frames[0].value] else []) + Decoded(frames[1..])
  }

  lemma {:induction false} OnMessagesSplit(t: Table, a: seq<Option<Message>>, b: seq<Option<Message>>)
    ensures OnMessages(t, a + b) == OnMessages(OnMessages(t, a), b)
    decreases |b|
  {
    if b == [] {
      assert a + b == a;
    } else {
      var last := |b| - 1;
      assert (a + b)[..|a + b| - 1] == a + b[..last];
      OnMessagesSplit(t, a, b[..last]);
    }
  }

  /** The read loop over these frames is one Read of the machine for each that decodes, in order. */
  lemma {:induction false} FramesRead(ws: seq<State>, acts: seq<Action>, frames: seq<Option<Message>>)
    returns (ws': seq<State>, acts': seq<Action>)
    requires Run(ws, acts) && ws[|acts|].reader.Reading?
    requires forall i :: 0 <= i < |frames| && frames[i].Some? ==> !frames[i].value.Exp?
    ensures Run(ws', acts') && ws'[|acts'|].t == OnMessages(ws[|acts|].t, frames)
    ensures acts' == acts + Reads(Decoded(frames))
    decreases |frames|
  {
    ws', acts' := ws, acts;
    if frames != [] {
      assert frames == [frames[0]] + frames[1..];
      OnMessagesSplit(ws[|acts|].t, [frames[0]], frames[1..]);
      assert [frames[0]][..0] == [];
      if frames[0].Some? {
        ws', acts' := Extended(ws', acts', Read(frames[0].value));
        ReadsCons(frames[0].value, Decoded(frames[1..]));
      } else {
        assert [] + Decoded(frames[1..]) == Decoded(frames[1..]);
      }
      ws', acts' := FramesRead(ws', acts', frames[1..]);
    }
  }

  function Reads(ms: seq<Message>): seq<Action> {
    if ms == [] then [] else [Read(ms[0])] + Reads(ms[1..])
  }

  lemma ReadsCons(m: Message, ms: seq<Message>)
    ensures Reads([m] + ms) == [Read(m)] + Reads(ms)
  {
    assert ([m] + ms)[1..] == ms;
  }

  // --------------------------------------------------------------- the error

  /** A Close that waits remembers the error that there was when it began. */
  lemma {:induction false} CloserSaved(ws: seq<State>, acts: seq<Action>, n: nat, k: nat) returns (b: nat)
    requires Run(ws, acts) && n < |ws| && k in ws[n].closers && ws[n].closers[k].Waiting?
    ensures b < n && acts[b] == CloseBegin(k) && ws[n].closers[k].saved == ws[b].t.err
    decreases n
  {
    if acts[n - 1] == CloseBegin(k) {
      b := n - 1;
    } else {
      b := CloserSaved(ws, acts, n - 1, k);
    }
  }

  /**
   The error of a client, over every run: a read error or a fatal write sets it if there is
   none; a Close sets it, to that of closing the connection if there is one, exactly if there
   was none when it began; a request is refused exactly if there is one when it begins.
   */
  lemma ErrorExactly(ws: seq<State>, acts: seq<Action>, n: nat) returns (b: nat)
    requires Run(ws, acts) && n < |acts|
    ensures var t, t' := ws[n].t, ws[n + 1].t;
      match acts[n]
      case ReadError(e) => t'.err == if t.err.Some? then t.err else Some(e)
      case Write(_, Fatal(e)) => t'.err == if t.err.Some? then t.err else Some(e)
      case CloseEnd(k, closeErr) =>
        && b < n && acts[b] == CloseBegin(k)
        && t'.err == if ws[b].t.err.Some? then t.err
                     else if closeErr.Some? then closeErr
                     else Some("closed connection")
      case Begin(u) =>
        t'.err == t.err && u in ws[n + 1].requests && (ws[n + 1].requests[u].Refused? <==> t.err.Some?)
      case _ => t'.err == t.err
  {
    b := 0;
    if acts[n].CloseEnd? { b := CloserSaved(ws, acts, n, acts[n].k); }
  }

  // ---------------------------------------------------------- the outcome

  /** What becomes of one call, told by the log alone. */
  datatype Verdict = Unadded | Pending | GotResult | NackedCall | Expired

  function Judge(v: Verdict, e: Event, u: Uuid): Verdict {
    if v.Unadded? && e == Added(u) then Pending
    else if v.Pending? && e == GotRes(u) then GotResult
    else if v.Pending? && e == GotNack(u) then NackedCall
    else if v.Pending? && e == Fired(u) then Expired
    else v
  }

  function VerdictOf(log: seq<Event>, u: Uuid): Verdict {
    if log == [] then Unadded else Judge(VerdictOf(log[..|log| - 1], u), log[|log| - 1], u)
  }

  lemma VerdictAppend(log: seq<Event>, e: Event, u: Uuid)
    ensures VerdictOf(log + [e], u) == Judge(VerdictOf(log, u), e, u)
  {
    assert (log + [e])[..|log|] == log;
  }

  /** Results and expiries handed out for the call u. */
  function ResCount(handed: seq<Message>, u: Uuid): nat { multiset(handed)[Res(u)] }

  function ExpCount(handed: seq<Message>, u: Uuid): nat { multiset(handed)[Exp(u)] }

  /** The call u has been added to the pending table. */
  predicate IsAdded(s: State, u: Uuid) { u in s.requests && (s.requests[u].Armed? || s.requests[u].Over?) }

  predicate TabledAs(s: State, v: Verdict, u: Uuid) {
    && (u in s.t.pending <==> v.Pending?)
    && (IsAdded(s, u) <==> !v.Unadded?)
  }

  /** The pending table agrees with the verdicts. */
  predicate Tabled(s: State, u: Uuid) { TabledAs(s, VerdictOf(s.log, u), u) }

  /** What was handed out agrees with the verdict v. */
  predicate TalliedAs(handed: seq<Message>, v: Verdict, u: Uuid) {
    && ResCount(handed, u) == (if v.GotResult? then 1 else 0)
    && ExpCount(handed, u) == (if v.Expired? then 1 else 0)
  }

  predicate Tallied(s: State, u: Uuid) { TalliedAs(s.t.handed, VerdictOf(s.log, u), u) }

  predicate Judged(s: State, u: Uuid) { Tabled(s, u) && Tallied(s, u) }

  /** Once its timer has fired, a call is decided. */
  predicate FiredDecides(s: State, u: Uuid) {
    var v := VerdictOf(s.log, u);
    Fired(u) in s.log ==> !v.Unadded? && !v.Pending?
  }

  lemma Handed(h: seq<Message>, m: Message, u: Uuid)
    ensures ResCount(h + [m], u) == ResCount(h, u) + if m == Res(u) then 1 else 0
    ensures ExpCount(h + [m], u) == ExpCount(h, u) + if m == Exp(u) then 1 else 0
  {
  }

  lemma VerdictAfter(log: seq<Event>, a: Action, u: Uuid)
    ensures VerdictOf(log + Events(a), u) == Next(VerdictOf(log, u), a, u)
  {
    if Events(a) == [] {
      assert log + Events(a) == log;
    } else {
      VerdictAppend(log, Events(a)[0], u);
      assert Events(a) == [Events(a)[0]];
    }
  }

  /** The verdict after an action. */
  function Next(v: Verdict, a: Action, u: Uuid): Verdict {
    if Events(a) == [] then v else Judge(v, Events(a)[0], u)
  }

  lemma NextTabled(s: State, a: Action, v: Verdict, u: Uuid)
    requires TabledAs(s, v, u) && Enabled(s, a)
    ensures TabledAs(Effect(s, a), Next(v, a, u), u)
  {
    if a.Read? { ReadPending(s.t, a.m, v, u); }
  }

  lemma StepTabled(s: State, a: Action, u: Uuid)
    requires Tabled(s, u) && Enabled(s, a)
    ensures Tabled(Apply(s, a), u)
  {
    VerdictAfter(s.log, a, u);
    NextTabled(s, a, VerdictOf(s.log, u), u);
  }

  lemma ReadPending(t: Table, m: Message, v: Verdict, u: Uuid)
    requires u in t.pending <==> v.Pending?
    ensures u in OnMessage(t, m).pending <==> Next(v, Read(m), u).Pending?
  {
  }

  lemma ResTallied(t: Table, w: Uuid, v: Verdict, u: Uuid)
    requires TalliedAs(t.handed, v, u) && (u in t.pending <==> v.Pending?)
    ensures TalliedAs(OnMessage(t, Res(w)).handed, Next(v, Read(Res(w)), u), u)
  {
    Handed(t.handed, Res(w), u);
    assert Next(v, Read(Res(w)), u) == Judge(v, GotRes(w), u);
  }

  lemma ReplyTallied(h: seq<Message>, m: Message, v: Verdict, u: Uuid)
    requires TalliedAs(h, v, u) && !m.Res? && !m.Exp?
    ensures TalliedAs(h + [m], Next(v, Read(m), u), u)
  {
    Handed(h, m, u);
  }

  lemma ReadTallied(t: Table, m: Message, v: Verdict, u: Uuid)
    requires TalliedAs(t.handed, v, u) && (u in t.pending <==> v.Pending?) && !m.Exp?
    ensures TalliedAs(OnMessage(t, m).handed, Next(v, Read(m), u), u)
  {
    if m.Res? {
      ResTallied(t, m.msg, v, u);
    } else {
      ReplyTallied(t.handed, m, v, u);
      assert OnMessage(t, m).handed == t.handed + [m];
    }
  }

  lemma TimerTallied(t: Table, w: Uuid, v: Verdict, u: Uuid)
    requires TalliedAs(t.handed, v, u) && (u in t.pending <==> v.Pending?)
    ensures TalliedAs(OnTimer(t, w).handed, Next(v, Timer(w), u), u)
  {
    Handed(t.handed, Exp(w), u);
  }

  lemma OtherTallied(h: seq<Message>, a: Action, v: Verdict, u: Uuid)
    requires TalliedAs(h, v, u) && !a.Read? && !a.Timer?
    ensures TalliedAs(h, Next(v, a, u), u)
  {
  }

  lemma SameHanded(s: State, a: Action)
    requires Enabled(s, a) && !a.Read? && !a.Timer?
    ensures Apply(s, a).t.handed == s.t.handed
  {
  }

  lemma StepTallied(s: State, a: Action, u: Uuid)
    requires Tabled(s, u) && Tallied(s, u) && Enabled(s, a)
    ensures Tallied(Apply(s, a), u)
  {
    var v := VerdictOf(s.log, u);
    VerdictAfter(s.log, a, u);
    if a.Read? {
      ReadTallied(s.t, a.m, v, u);
    } else if a.Timer? {
      TimerTallied(s.t, a.u, v, u);
    } else {
      OtherTallied(s.t.handed, a, v, u);
      SameHanded(s, a);
    }
  }

  lemma StepJudged(s: State, a: Action, u: Uuid)
    requires Judged(s, u) && Enabled(s, a)
    ensures Judged(Apply(s, a), u)
  {
    StepTabled(s, a, u);
    StepTallied(s, a, u);
  }

  lemma StepFired(s: State, a: Action, u: Uuid)
    requires Tabled(s, u) && FiredDecides(s, u) && Enabled(s, a)
    ensures FiredDecides(Apply(s, a), u)
  {
    VerdictAfter(s.log, a, u);
    FiredAfter(s.log, a, u);
  }

  lemma FiredAfter(log: seq<Event>, a: Action, u: Uuid)
    ensures Fired(u) in log + Events(a) <==> Fired(u) in log || a == Timer(u)
  {
  }

  lemma {:induction false} RunJudged(ws: seq<State>, acts: seq<Action>, n: nat, u: Uuid)
    requires Run(ws, acts) && n < |ws|
    ensures Judged(ws[n], u) && FiredDecides(ws[n], u)
    decreases n
  {
    if n > 0 {
      RunJudged(ws, acts, n - 1, u);
      StepJudged(ws[n - 1], acts[n - 1], u);
      StepFired(ws[n - 1], acts[n - 1], u);
    }
  }

  /** In every interleaving a call hands out at most one of RES and EXP, whatever the server sends. */
  lemma AtMostOneOutcome(ws: seq<State>, acts: seq<Action>, n: nat, u: Uuid)
    requires Run(ws, acts) && n < |ws|
    ensures ResCount(ws[n].t.handed, u) + ExpCount(ws[n].t.handed, u) <= 1
  {
    RunJudged(ws, acts, n, u);
  }

  predicate Closing(e: Event, u: Uuid) { e == GotRes(u) || e == GotNack(u) || e == Fired(u) }

  /** The call u became pending at a. */
  predicate Opens(log: seq<Event>, u: Uuid, a: nat) {
    a < |log| && log[a] == Added(u) && forall b :: 0 <= b < a ==> log[b] != Added(u)
  }

  /** The first reply to u, or the end of its timer, after it became pending. */
  predicate Closes(log: seq<Event>, u: Uuid, a: nat, i: nat) {
    a < i < |log| && Closing(log[i], u) && forall b :: a < b < i ==> !Closing(log[b], u)
  }

  function VerdictBy(e: Event): Verdict {
    match e
    case GotRes(_) => GotResult
    case GotNack(_) => NackedCall
    case _ => Expired
  }

  /** The verdict is that of the first closing event after the call became pending. */
  lemma {:induction false} VerdictFound(log: seq<Event>, u: Uuid) returns (a: nat, i: nat)
    ensures var v := VerdictOf(log, u);
      && (v.Unadded? ==> forall b :: 0 <= b < |log| ==> log[b] != Added(u))
      && (!v.Unadded? ==> Opens(log, u, a))
      && (v.Pending? ==> forall b :: a < b < |log| ==> !Closing(log[b], u))
      && (!v.Unadded? && !v.Pending? ==> Closes(log, u, a, i) && v == VerdictBy(log[i]))
  {
    a, i := 0, 0;
    if log != [] {
      var last := |log| - 1;
      var before := log[..last];
      a, i := VerdictFound(before, u);
      var v := VerdictOf(before, u);
      assert forall b :: 0 <= b < last ==> before[b] == log[b];
      if v.Unadded? && log[last] == Added(u) {
        a := last;
      } else if v.Pending? && Closing(log[last], u) {
        i := last;
      }
    }
  }

  /** A RES that is handed over was read. */
  lemma ResRead(ws: seq<State>, acts: seq<Action>, n: nat, u: Uuid)
    requires Run(ws, acts) && n < |ws| && Res(u) in ws[n].t.handed
    ensures GotRes(u) in ws[n].log
  {
    RunJudged(ws, acts, n, u);
    var a, i := VerdictFound(ws[n].log, u);
  }

  /**
   The outcome of a call, from its events alone: the first of RES, NACK and the timer to
   come after addPending decides. RES is handed over exactly if that is RES, and EXP
   exactly if that is the timer; replies that came before addPending change nothing.
   */
  lemma OutcomeDecided(ws: seq<State>, acts: seq<Action>, n: nat, u: Uuid, a: nat, i: nat)
    requires Run(ws, acts) && n < |ws| && Opens(ws[n].log, u, a) && Closes(ws[n].log, u, a, i)
    ensures ResCount(ws[n].t.handed, u) == if ws[n].log[i] == GotRes(u) then 1 else 0
    ensures ExpCount(ws[n].t.handed, u) == if ws[n].log[i] == Fired(u) then 1 else 0
  {
    RunJudged(ws, acts, n, u);
    var a', i' := VerdictFound(ws[n].log, u);
    assert VerdictOf(ws[n].log, u) != Unadded;
    assert a' == a;
    assert VerdictOf(ws[n].log, u) != Pending;
    assert i' == i;
  }

  /** A call without a NACK whose timer branch was taken hands over exactly one of RES and EXP. */
  lemma UnrefusedGetsOne(ws: seq<State>, acts: seq<Action>, n: nat, u: Uuid)
    requires Run(ws, acts) && n < |ws| && Fired(u) in ws[n].log && GotNack(u) !in ws[n].log
    ensures ResCount(ws[n].t.handed, u) + ExpCount(ws[n].t.handed, u) == 1
  {
    RunJudged(ws, acts, n, u);
    var a, i := VerdictFound(ws[n].log, u);
  }

  /**
   A call without a NACK hands over exactly one of RES and EXP if and only if, after
   addPending, its RES came or its timer branch was taken.
   */
  lemma UnrefusedOutcomeExact(ws: seq<State>, acts: seq<Action>, n: nat, u: Uuid, a: nat)
    requires Run(ws, acts) && n < |ws| && Opens(ws[n].log, u, a) && GotNack(u) !in ws[n].log
    ensures ResCount(ws[n].t.handed, u) + ExpCount(ws[n].t.handed, u) == 1
       <==> exists i :: a < i < |ws[n].log| && (ws[n].log[i] == GotRes(u) || ws[n].log[i] == Fired(u))
  {
    RunJudged(ws, acts, n, u);
    var a', i := VerdictFound(ws[n].log, u);
    assert VerdictOf(ws[n].log, u) != Unadded;
    assert a' == a;
  }

  /** The server, which answers a message once, answered this one with an ACK. */
  predicate Acked(log: seq<Event>, u: Uuid) { GotAck(u) in log && AnsweredOnce(log, u) }

  predicate AnsweredOnce(log: seq<Event>, u: Uuid) { !(GotAck(u) in log && GotNack(u) in log) }

  /** The select of handleExpiredCall takes one of its branches. */
  ghost predicate OneBranch(s: State, u: Uuid) {
    && (u in s.requests && s.requests[u].Over? <==> Fired(u) in s.log || Quit(u) in s.log)
    && !(Fired(u) in s.log && Quit(u) in s.log)
  }

  lemma StepOneBranch(s: State, a: Action, u: Uuid)
    requires OneBranch(s, u) && Enabled(s, a)
    ensures OneBranch(Apply(s, a), u)
  {
    var s' := Apply(s, a);
    FiredAfter(s.log, a, u);
    assert Quit(u) in s'.log <==> Quit(u) in s.log || a == Stop(u);
  }

  lemma {:induction false} RunOneBranch(ws: seq<State>, acts: seq<Action>, n: nat, u: Uuid)
    requires Run(ws, acts) && n < |ws|
    ensures OneBranch(ws[n], u)
    decreases n
  {
    if n > 0 {
      RunOneBranch(ws, acts, n - 1, u);
      StepOneBranch(ws[n - 1], acts[n - 1], u);
    }
  }

  /** An ACKed call whose timer branch was taken hands over exactly one of RES and EXP. */
  lemma AckedGetsOne(ws: seq<State>, acts: seq<Action>, n: nat, u: Uuid)
    requires Run(ws, acts) && n < |ws| && Acked(ws[n].log, u) && Fired(u) in ws[n].log
    ensures ResCount(ws[n].t.handed, u) + ExpCount(ws[n].t.handed, u) == 1
  {
    UnrefusedGetsOne(ws, acts, n, u);
  }

  ghost predicate ResAfter(log: seq<Event>, u: Uuid, a: nat) {
    exists i :: a < i < |log| && log[i] == GotRes(u)
  }

  /**
   When the promise holds: an ACKed call that is over hands over exactly one of RES and EXP
   if and only if its timer goroutine did not quit at the stop signal, or its RES came after
   addPending; otherwise it hands over neither.
   */
  lemma AckedOutcomeExact(ws: seq<State>, acts: seq<Action>, n: nat, u: Uuid, a: nat)
    requires Run(ws, acts) && n < |ws| && Acked(ws[n].log, u) && Opens(ws[n].log, u, a)
    requires u in ws[n].requests && ws[n].requests[u].Over?
    ensures ResCount(ws[n].t.handed, u) + ExpCount(ws[n].t.handed, u)
         == if Quit(u) !in ws[n].log || ResAfter(ws[n].log, u, a) then 1 else 0
  {
    RunOneBranch(ws, acts, n, u);
    AtMostOneOutcome(ws, acts, n, u);
    if Quit(u) in ws[n].log {
      UnrefusedOutcomeExact(ws, acts, n, u, a);
    } else {
      UnrefusedGetsOne(ws, acts, n, u);
    }
  }

  /** A call that got EXP and a NACK got the NACK before addPending or after the timer. */
  lemma ExpiredThoughNacked(ws: seq<State>, acts: seq<Action>, n: nat, u: Uuid, g: nat)
    returns (a: nat, f: nat)
    requires Run(ws, acts) && n < |ws| && Exp(u) in ws[n].t.handed
    requires g < |ws[n].log| && ws[n].log[g] == GotNack(u)
    ensures a < f < |ws[n].log| && ws[n].log[a] == Added(u) && ws[n].log[f] == Fired(u) && (g < a || f < g)
  {
    RunJudged(ws, acts, n, u);
    a, f := VerdictFound(ws[n].log, u);
  }

  lemma Extended(ws: seq<State>, acts: seq<Action>, a: Action) returns (ws': seq<State>, acts': seq<Action>)
    requires Run(ws, acts) && Enabled(ws[|acts|], a)
    ensures Run(ws', acts') && acts' == acts + [a] && ws' == ws + [Apply(ws[|acts|], a)]
  {
    ws', acts' := ws + [Apply(ws[|acts|], a)], acts + [a];
  }

  /** A call that was written, made pending and ACKed. */
  lemma AckedCall(u: Uuid) returns (ws: seq<State>, acts: seq<Action>)
    ensures Run(ws, acts)
    ensures var s := ws[|acts|];
      && s.t == Table({u}, None, false, [Ack(u)]) && s.requests == map[u := Armed] && s.reader.Reading?
      && s.closers == map[] && s.ran == [] && Acked(s.log, u)
  {
    ws, acts := [Init()], [];
    ws, acts := Extended(ws, acts, Begin(u));
    ws, acts := Extended(ws, acts, Write(u, WriteOk));
    ws, acts := Extended(ws, acts, Add(u));
    ws, acts := Extended(ws, acts, Read(Ack(u)));
    assert ws[|acts|].log == [Begun(u), Wrote(u), Added(u), GotAck(u)];
  }

  /** A Close up to the stop signal. */
  lemma CloseStops(ws: seq<State>, acts: seq<Action>) returns (ws': seq<State>, acts': seq<Action>)
    requires Run(ws, acts) && ws[|acts|].reader.Reading? && ws[|acts|].closers == map[] && ws[|acts|].t.err.None?
    ensures Run(ws', acts')
    ensures var s := ws[|acts|];
      ws'[|acts'|]
      == s.(closers := map[0 := Waiting(None)], reader := Done, t := s.t.(err := Some("eof"), stopped := true))
  {
    ws', acts' := Extended(ws, acts, CloseBegin(0));
    ws', acts' := Extended(ws', acts', ReadError("eof"));
    ws', acts' := Extended(ws', acts', StopReader);
  }

  /** A Close from its start to its return. */
  lemma CloseReturns(ws: seq<State>, acts: seq<Action>) returns (ws': seq<State>, acts': seq<Action>)
    requires Run(ws, acts) && ws[|acts|].reader.Reading? && ws[|acts|].closers == map[] && ws[|acts|].t.err.None?
    ensures Run(ws', acts')
    ensures var s, s' := ws[|acts|], ws'[|acts'|];
      && s'.closers == map[0 := Returned] && s'.requests == s.requests && s'.ran == s.ran
      && s'.log == s.log + [CloseReturned]
      && s'.t == s.t.(err := Some("closed connection"), stopped := true)
  {
    ws', acts' := CloseStops(ws, acts);
    ws', acts' := Extended(ws', acts', CloseEnd(0, None));
  }

  /** The documentation promises a RES or an EXP for every ACKed call, but closing the client can leave neither. */
  lemma ClosedGetsNone(u: Uuid) returns (ws: seq<State>, acts: seq<Action>)
    ensures Run(ws, acts)
    ensures var end := ws[|acts|];
      && Acked(end.log, u) && end.closers == map[0 := Returned]
      && end.t.handed == [Ack(u)] && end.requests == map[u := Over]
  {
    ws, acts := AckedCall(u);
    ws, acts := CloseReturns(ws, acts);
    ws, acts := Extended(ws, acts, Stop(u));
  }

  // ------------------------------------------------------ failure is permanent

  /** Once the client has failed it never goes back to having no error. */
  lemma {:induction false} ErrorSticks(ws: seq<State>, acts: seq<Action>, i: nat, j: nat)
    requires Run(ws, acts) && i <= j < |ws| && ws[i].t.err.Some?
    ensures ws[j].t.err.Some?
    decreases j - i
  {
    if i < j { ErrorSticks(ws, acts, i + 1, j); }
  }

  ghost predicate Shut(s: State) {
    && (!s.reader.Reading? ==> s.t.err.Some?)
    && (s.t.stopped <==> s.reader.Done?)
    && (CloseReturned in s.log ==> s.t.err.Some?)
  }

  /** A request that was refused, or has not been written yet, has not been written. */
  ghost predicate Unwritten(s: State, u: Uuid) {
    && (u !in s.requests || s.requests[u].Refused? || s.requests[u].Checked? ==> Wrote(u) !in s.log)
    && (u !in s.requests ==> Begun(u) !in s.log)
    && (forall b, c :: 0 <= c < b < |s.log| && s.log[c].CloseReturned? && s.log[b] == Begun(u) ==>
          s.requests[u].Refused?)
  }

  lemma StepShut(s: State, a: Action)
    requires Shut(s) && Enabled(s, a)
    ensures Shut(Apply(s, a))
  {
    assert CloseReturned in Apply(s, a).log ==> CloseReturned in s.log || a.CloseEnd?;
  }

  lemma StepUnwritten(s: State, a: Action, u: Uuid)
    requires Shut(s) && Unwritten(s, u) && Enabled(s, a)
    ensures Unwritten(Apply(s, a), u)
  {
    var s' := Apply(s, a);
    assert Wrote(u) in s'.log ==> Wrote(u) in s.log || a == Write(u, WriteOk);
    assert Begun(u) in s'.log ==> Begun(u) in s.log || a == Begin(u);
    forall b, c | 0 <= c < b < |s'.log| && s'.log[c].CloseReturned? && s'.log[b] == Begun(u)
      ensures u in s'.requests && s'.requests[u].Refused?
    {
      assert s'.log[c] == s.log[c];
      if b < |s.log| { assert s'.log[b] == s.log[b]; }
    }
  }

  lemma {:induction false} RunShut(ws: seq<State>, acts: seq<Action>, n: nat, u: Uuid)
    requires Run(ws, acts) && n < |ws|
    ensures Shut(ws[n]) && Unwritten(ws[n], u)
    decreases n
  {
    if n > 0 {
      RunShut(ws, acts, n - 1, u);
      StepShut(ws[n - 1], acts[n - 1]);
      StepUnwritten(ws[n - 1], acts[n - 1], u);
    }
  }

  /** A request begun after a Close has returned fails without writing, for ever after. */
  lemma ClosedRefuses(ws: seq<State>, acts: seq<Action>, n: nat, c: nat, b: nat, u: Uuid)
    requires Run(ws, acts) && n < |ws| && c < b < |ws[n].log|
    requires ws[n].log[c].CloseReturned? && ws[n].log[b] == Begun(u)
    ensures u in ws[n].requests && ws[n].requests[u].Refused? && Wrote(u) !in ws[n].log
  {
    RunShut(ws, acts, n, u);
    assert Begun(u) in ws[n].log;
  }

  /** From h to h' only EXP are added. */
  ghost predicate OnlyExp(h: seq<Message>, h': seq<Message>) {
    h <= h' && forall k :: |h| <= k < |h'| ==> h'[k].Exp?
  }

  lemma StoppedStep(s: State, a: Action)
    requires Enabled(s, a) && !s.reader.Reading?
    ensures OnlyExp(s.t.handed, Apply(s, a).t.handed)
  {
  }

  lemma {:induction false} ExpOver(ws: seq<State>, i: nat, j: nat)
    requires i <= j < |ws| && forall k :: i <= k < |ws| - 1 ==> OnlyExp(ws[k].t.handed, ws[k + 1].t.handed)
    ensures OnlyExp(ws[i].t.handed, ws[j].t.handed)
    decreases j
  {
    if i < j {
      ExpOver(ws, i, j - 1);
      assert OnlyExp(ws[j - 1].t.handed, ws[j - 1 + 1].t.handed);
    }
  }

  /** After the stop signal, so after any Close has returned, no handler goroutine is started but for EXP. */
  lemma SilentAfterStop(ws: seq<State>, acts: seq<Action>, i: nat, j: nat)
    requires Run(ws, acts) && i <= j < |ws| && ws[i].t.stopped
    ensures OnlyExp(ws[i].t.handed, ws[j].t.handed)
  {
    forall k | i <= k < |acts| ensures OnlyExp(ws[k].t.handed, ws[k + 1].t.handed) {
      StopHolds(ws, acts, i, k);
      StoppedStep(ws[k], acts[k]);
    }
    ExpOver(ws, i, j);
  }

  /** Every handler goroutine that was started has called the handler, but for those of EXP. */
  ghost predicate Settled(s: State) {
    forall k :: 0 <= k < |s.t.handed| ==> s.t.handed[k].Exp? || k in s.ran
  }

  lemma StepGrows(s: State, a: Action)
    requires Enabled(s, a)
    ensures Grows(s, Apply(s, a))
  {
  }

  /** Neither the goroutines started nor those that have called the handler are ever forgotten. */
  ghost predicate Grows(s: State, s': State) { s.t.handed <= s'.t.handed && s.ran <= s'.ran }

  lemma {:induction false} GrowsOver(ws: seq<State>, i: nat, j: nat)
    requires i <= j < |ws| && forall k :: 0 <= k < |ws| - 1 ==> Grows(ws[k], ws[k + 1])
    ensures Grows(ws[i], ws[j])
    decreases j
  {
    if i < j {
      GrowsOver(ws, i, j - 1);
      assert Grows(ws[j - 1], ws[j - 1 + 1]);
    }
  }

  lemma HandedGrows(ws: seq<State>, acts: seq<Action>, i: nat, j: nat)
    requires Run(ws, acts) && i <= j < |ws|
    ensures Grows(ws[i], ws[j])
  {
    forall k | 0 <= k < |acts| ensures Grows(ws[k], ws[k + 1]) { StepGrows(ws[k], acts[k]); }
    GrowsOver(ws, i, j);
  }

  /** After the stop signal the handler is called with EXP, or with a message read before whose goroutine is late. */
  lemma LateDelivery(ws: seq<State>, acts: seq<Action>, i: nat, j: nat)
    requires Run(ws, acts) && i <= j < |acts| && ws[i].t.stopped && acts[j].Deliver?
    ensures var k := acts[j].k; ws[j].t.handed[k].Exp? || (k < |ws[i].t.handed| && k !in ws[i].ran)
  {
    var k := acts[j].k;
    HandedGrows(ws, acts, i, j);
    SilentAfterStop(ws, acts, i, j);
    assert forall x :: x in ws[i].ran ==> x in ws[j].ran;
  }

  /**
   Close promises that no more messages are received. After the stop signal the handler is
   called with nothing but EXP, in every continuation, if and only if all goroutines started
   for other messages had called it by then.
   */
  lemma QuietAfterStop(ws: seq<State>, acts: seq<Action>, i: nat)
    requires Run(ws, acts) && i < |ws| && ws[i].t.stopped
    ensures Settled(ws[i]) ==>
      forall j :: i <= j < |acts| && acts[j].Deliver? ==> ws[j].t.handed[acts[j].k].Exp?
    ensures !Settled(ws[i]) ==> exists k: nat :: Enabled(ws[i], Deliver(k)) && !ws[i].t.handed[k].Exp?
  {
    if Settled(ws[i]) {
      forall j | i <= j < |acts| && acts[j].Deliver? ensures ws[j].t.handed[acts[j].k].Exp? {
        LateDelivery(ws, acts, i, j);
        HandedGrows(ws, acts, i, j);
      }
    } else {
      var k :| 0 <= k < |ws[i].t.handed| && !ws[i].t.handed[k].Exp? && k !in ws[i].ran;
      assert Enabled(ws[i], Deliver(k));
    }
  }

  /** It does happen: here the handler is called with a RES after a Close has returned. */
  lemma DeliveredAfterClose(u: Uuid) returns (ws: seq<State>, acts: seq<Action>)
    ensures Run(ws, acts) && |acts| > 0
    ensures var j := |acts| - 1;
      && ws[j].closers == map[0 := Returned]
      && acts[j].Deliver? && acts[j].k < |ws[j].t.handed| && ws[j].t.handed[acts[j].k] == Res(u)
  {
    ws, acts := AckedCall(u);
    ws, acts := Extended(ws, acts, Read(Res(u)));
    ws, acts := CloseReturns(ws, acts);
    ws, acts := Extended(ws, acts, Deliver(1));
  }

  /** The handler is called with at most one of RES and EXP for a call, and with that once at most. */
  lemma HandlerGetsOne(ws: seq<State>, acts: seq<Action>, i: nat, j: nat, u: Uuid)
    requires Run(ws, acts) && i < j < |acts| && acts[i].Deliver? && acts[j].Deliver?
    ensures var m, m' := ws[i].t.handed[acts[i].k], ws[j].t.handed[acts[j].k];
      !((m == Res(u) || m == Exp(u)) && (m' == Res(u) || m' == Exp(u)))
  {
    var k, k' := acts[i].k, acts[j].k;
    HandedGrows(ws, acts, i, j);
    HandedGrows(ws, acts, i + 1, j);
    assert ws[i + 1].ran[|ws[i].ran|] == k;
    assert k in ws[j].ran;
    AtMostOneOutcome(ws, acts, j, u);
    TwoOutcomes(ws[j].t.handed, u, k, k');
  }

  lemma TwoOutcomes(h: seq<Message>, u: Uuid, k: nat, k': nat)
    requires k < |h| && k' < |h| && k != k'
    requires ResCount(h, u) + ExpCount(h, u) <= 1
    ensures !((h[k] == Res(u) || h[k] == Exp(u)) && (h[k'] == Res(u) || h[k'] == Exp(u)))
  {
    var lo, hi := if k < k' then k else k', if k < k' then k' else k;
    assert h == h[..lo] + [h[lo]] + h[lo + 1..hi] + [h[hi]] + h[hi + 1..];
  }

  lemma {:induction false} StopHolds(ws: seq<State>, acts: seq<Action>, i: nat, j: nat)
    requires Run(ws, acts) && i <= j < |ws| && ws[i].t.stopped
    ensures ws[j].t.stopped && !ws[j].reader.Reading?
    decreases j
  {
    if i < j {
      StopHolds(ws, acts, i, j - 1);
    } else {
      var u: Uuid :| true;
      RunShut(ws, acts, i, u);
    }
  }
}
