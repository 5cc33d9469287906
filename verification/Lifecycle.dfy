/**
 The life of a server connection: ServeConn sets it up and waits, any goroutine that has
 the connection may close it, also while it is being set up, and sync.Once lets only the
 first close it.
 */
module Lifecycle {
  import opened Wrappers
  import Message
  import Negotiate

  datatype Note = Accepting | Connected | Closed

  /** Where ServeConn is. */
  datatype Pc = Start | Accepted | ResultsReady | Ready | Serving | SetupFailed | Left

  /** How far the one call of Close that runs has come. */
  datatype Closing = Unclosed | Began | PubSubShut | ResultsShut | Killed

  /** What the connection is allowed to do, and so needs. */
  datatype Config = Config(call: bool, pubSub: bool)

  function ConfigFor(allowed: seq<Message.Type>): Config {
    var s := Negotiate.SetupFor(allowed);
    Config(s.results, s.pubSub)
  }

  /** A broker connection: in the field of the Conn or not, and how often it was opened and closed. */
  datatype Link = Link(held: bool, opens: nat, shuts: nat)

  datatype State = State(
    pc: Pc,
    notes: seq<Note>,            // calls of Server.ConnState
    results: Link,
    pubSub: Link,
    closing: Closing,
    closeErr: Option<string>)

  /** The error of an Open is that of the dial; without one the connection is put in its field. */
  datatype Action =
    | Accept
    | OpenResults(err: Option<string>)
    | OpenPubSub(err: Option<string>)
    | Connect
    | BeginClose(e: string)      // by any goroutine, once the callback for Accepting has given the connection away
    | ShutPubSub
    | ShutResults
    | Kill
    | Leave

  function Init(): State { State(Start, [], Link(false, 0, 0), Link(false, 0, 0), Unclosed, None) }

  predicate Enabled(s: State, a: Action) {
    match a
    case Accept => s.pc.Start?
    case OpenResults(_) => s.pc.Accepted?
    case OpenPubSub(_) => s.pc.ResultsReady?
    case Connect => s.pc.Ready?
    case BeginClose(_) => !s.pc.Start? && s.closing.Unclosed?
    case ShutPubSub => s.closing.Began?
    case ShutResults => s.closing.PubSubShut?
    case Kill => s.closing.ResultsShut?
    case Leave => (s.pc.Serving? || s.pc.SetupFailed?) && s.closing.Killed?
  }

  function Opened(l: Link): Link { Link(true, l.opens + 1, l.shuts) }

  function Shut(l: Link): Link { if l.held then l.(shuts := l.shuts + 1) else l }

  /** The first call of Close to get through the Once. */
  function Begun(s: State, e: string): State {
    if s.closing.Unclosed? then s.(closing := Began, closeErr := Some(e)) else s
  }

  function Apply(c: Config, s: State, a: Action): State
    requires Enabled(s, a)
  {
    match a
    case Accept => s.(pc := Accepted, notes := s.notes + [Accepting])
    case OpenResults(err) =>
      if !c.call then s.(pc := ResultsReady)
      else if err.Some? then Begun(s, err.value).(pc := SetupFailed)
      else s.(pc := ResultsReady, results := Opened(s.results))
    case OpenPubSub(err) =>
      if !c.pubSub then s.(pc := Ready)
      else if err.Some? then Begun(s, err.value).(pc := SetupFailed)
      else s.(pc := Ready, pubSub := Opened(s.pubSub))
    case Connect => s.(pc := Serving, notes := s.notes + [Connected])
    case BeginClose(e) => Begun(s, e)
    case ShutPubSub => s.(closing := PubSubShut, pubSub := Shut(s.pubSub))
    case ShutResults => s.(closing := ResultsShut, results := Shut(s.results))
    case Kill => s.(closing := Killed)
    case Leave => s.(pc := Left, notes := s.notes + [Closed])
  }

  ghost predicate Run(c: Config, ws: seq<State>, acts: seq<Action>) {
    && |ws| == |acts| + 1
    && ws[0] == Init()
    && forall i :: 0 <= i < |acts| ==> Enabled(ws[i], acts[i]) && ws[i + 1] == Apply(c, ws[i], acts[i])
  }

  // ------------------------------------------------------------ the invariant

  ghost predicate Inv(s: State) {
    && (s.closing.Unclosed? <==> s.closeErr.None?)
    && (s.pc.Start? ==> s.notes == [] && s.closing.Unclosed?)
    && (s.pc.Start? || s.pc.Accepted? ==> !s.results.held)
    && (s.pc.Start? || s.pc.Accepted? || s.pc.ResultsReady? ==> !s.pubSub.held)
    && (s.pc.Accepted? || s.pc.ResultsReady? || s.pc.Ready? ==> s.notes == [Accepting])
    && (s.pc.SetupFailed? ==> s.notes == [Accepting] && !s.closing.Unclosed?)
    && (s.pc.Serving? ==> s.notes == [Accepting, Connected])
    && (s.pc.Left? ==>
          s.closing.Killed? && (s.notes == [Accepting, Closed] || s.notes == [Accepting, Connected, Closed]))
  }

  lemma StepInv(c: Config, s: State, a: Action)
    requires Inv(s) && Enabled(s, a)
    ensures Inv(Apply(c, s, a))
    ensures s.closeErr.Some? ==> Apply(c, s, a).closeErr == s.closeErr
  {
  }

  lemma {:induction false} RunInv(c: Config, ws: seq<State>, acts: seq<Action>, n: nat)
    requires Run(c, ws, acts) && n < |ws|
    ensures Inv(ws[n])
    decreases n
  {
    if n > 0 {
      RunInv(c, ws, acts, n - 1);
      StepInv(c, ws[n - 1], acts[n - 1]);
    }
  }

  /** The notifications of a connection, at any time: Accepting, then at most one Connected, then one final Closed. */
  lemma Notifications(c: Config, ws: seq<State>, acts: seq<Action>, n: nat)
    requires Run(c, ws, acts) && n < |ws|
    ensures ws[n].notes <= [Accepting, Connected, Closed] || ws[n].notes == [Accepting, Closed]
    ensures Closed in ws[n].notes <==> ws[n].pc.Left?
  {
    RunInv(c, ws, acts, n);
  }

  // ------------------------------------------------- the two broker connections

  datatype Which = Results | PubSub

  function LinkOf(s: State, k: Which): Link { if k.Results? then s.results else s.pubSub }

  /** The action puts the broker connection in its field. */
  predicate Opening(c: Config, a: Action, k: Which) {
    match k
    case Results => c.call && a == OpenResults(None)
    case PubSub => c.pubSub && a == OpenPubSub(None)
  }

  /** The action is the step of Close that looks at that field. */
  predicate Shutting(a: Action, k: Which) { if k.Results? then a.ShutResults? else a.ShutPubSub? }

  /** Close has looked at that field. */
  predicate Seen(s: State, k: Which) {
    s.closing.Killed? || s.closing.ResultsShut? || (k.PubSub? && s.closing.PubSubShut?)
  }

  ghost predicate OpenedBefore(c: Config, acts: seq<Action>, n: nat, k: Which)
    requires n <= |acts|
  {
    exists o :: 0 <= o < n && Opening(c, acts[o], k)
  }

  ghost predicate ShutBefore(acts: seq<Action>, n: nat, k: Which)
    requires n <= |acts|
  {
    exists r :: 0 <= r < n && Shutting(acts[r], k)
  }

  ghost predicate ShutAfterOpen(c: Config, acts: seq<Action>, n: nat, k: Which)
    requires n <= |acts|
  {
    exists o, r :: 0 <= o < r < n && Opening(c, acts[o], k) && Shutting(acts[r], k)
  }

  lemma HistoryStep(c: Config, acts: seq<Action>, n: nat, k: Which)
    requires n < |acts|
    ensures OpenedBefore(c, acts, n + 1, k) <==> OpenedBefore(c, acts, n, k) || Opening(c, acts[n], k)
    ensures ShutBefore(acts, n + 1, k) <==> ShutBefore(acts, n, k) || Shutting(acts[n], k)
    ensures ShutAfterOpen(c, acts, n + 1, k)
       <==> ShutAfterOpen(c, acts, n, k) || (OpenedBefore(c, acts, n, k) && Shutting(acts[n], k))
  {
  }

  lemma StepLink(c: Config, s: State, a: Action, k: Which)
    requires Inv(s) && Enabled(s, a)
    ensures var l, l' := LinkOf(s, k), LinkOf(Apply(c, s, a), k);
      && l' == (if Opening(c, a, k) then Opened(l) else if Shutting(a, k) then Shut(l) else l)
      && (Opening(c, a, k) ==> !l.held)
      && (Shutting(a, k) ==> !Seen(s, k))
      && (Seen(Apply(c, s, a), k) <==> Seen(s, k) || Shutting(a, k))
  {
  }

  /** What a link is like follows from the order of its Open and the step of Close that looks at it. */
  lemma {:induction false} LinkHistory(c: Config, ws: seq<State>, acts: seq<Action>, n: nat, k: Which)
    requires Run(c, ws, acts) && n < |ws|
    ensures var l := LinkOf(ws[n], k);
      && (l.held <==> OpenedBefore(c, acts, n, k))
      && (Seen(ws[n], k) <==> ShutBefore(acts, n, k))
      && l.opens == (if l.held then 1 else 0)
      && l.shuts == (if ShutAfterOpen(c, acts, n, k) then 1 else 0)
    decreases n
  {
    if n > 0 {
      LinkHistory(c, ws, acts, n - 1, k);
      RunInv(c, ws, acts, n - 1);
      HistoryStep(c, acts, n - 1, k);
      StepLink(c, ws[n - 1], acts[n - 1], k);
    }
  }

  /** A broker connection is opened once at most. */
  lemma OpensOnce(c: Config, ws: seq<State>, acts: seq<Action>, k: Which, o: nat, o': nat)
    requires Run(c, ws, acts) && o < o' < |acts| && Opening(c, acts[o], k)
    ensures !Opening(c, acts[o'], k)
  {
    LinkHistory(c, ws, acts, o', k);
    RunInv(c, ws, acts, o');
    StepLink(c, ws[o'], acts[o'], k);
    assert OpenedBefore(c, acts, o', k);
  }

  /** Close looks at each field once at most. */
  lemma ShutsOnce(c: Config, ws: seq<State>, acts: seq<Action>, k: Which, r: nat, r': nat)
    requires Run(c, ws, acts) && r < r' < |acts| && Shutting(acts[r], k)
    ensures !Shutting(acts[r'], k)
  {
    LinkHistory(c, ws, acts, r', k);
    RunInv(c, ws, acts, r');
    StepLink(c, ws[r'], acts[r'], k);
    assert ShutBefore(acts, r', k);
  }

  /**
   For each broker connection: once Closed is notified, one that was opened has been closed
   exactly once if and only if it was put in its field before the one step of Close that
   looks there; otherwise it is never closed.
   */
  lemma LinkClosed(c: Config, ws: seq<State>, acts: seq<Action>, n: nat, k: Which, o: nat) returns (r: nat)
    requires Run(c, ws, acts) && n < |ws| && ws[n].pc.Left? && o < n && Opening(c, acts[o], k)
    ensures r < n && Shutting(acts[r], k) && LinkOf(ws[n], k).opens == 1
    ensures LinkOf(ws[n], k).shuts == if o < r then 1 else 0
  {
    RunInv(c, ws, acts, n);
    LinkHistory(c, ws, acts, n, k);
    assert Seen(ws[n], k);
    r :| 0 <= r < n && Shutting(acts[r], k);
    if ShutAfterOpen(c, acts, n, k) {
      var o', r' :| 0 <= o' < r' < n && Opening(c, acts[o'], k) && Shutting(acts[r'], k);
      if o' < o { OpensOnce(c, ws, acts, k, o', o); } else if o < o' { OpensOnce(c, ws, acts, k, o, o'); }
      if r' < r { ShutsOnce(c, ws, acts, k, r', r); } else if r < r' { ShutsOnce(c, ws, acts, k, r, r'); }
    }
  }

  /** Each opened broker connection has been closed, exactly once. */
  predicate AllShut(s: State) { s.results.shuts == s.results.opens && s.pubSub.shuts == s.pubSub.opens }

  /** No broker connection is put in its field after Close has looked there. */
  ghost predicate NoLateOpen(c: Config, acts: seq<Action>, n: nat)
    requires n <= |acts|
  {
    forall k, o, r :: 0 <= o < n && 0 <= r < n && Opening(c, acts[o], k) && Shutting(acts[r], k) ==> o < r
  }

  /** So when Closed is notified no broker connection is left open, if and only if none came late. */
  lemma LinksClosed(c: Config, ws: seq<State>, acts: seq<Action>, n: nat)
    requires Run(c, ws, acts) && n < |ws| && ws[n].pc.Left?
    ensures ws[n].results.opens <= 1 && ws[n].pubSub.opens <= 1
    ensures AllShut(ws[n]) <==> NoLateOpen(c, acts, n)
  {
    forall k, o, r | 0 <= o < n && 0 <= r < n && Opening(c, acts[o], k) && Shutting(acts[r], k)
      ensures LinkOf(ws[n], k).shuts == LinkOf(ws[n], k).opens <==> o < r
    {
      var r' := LinkClosed(c, ws, acts, n, k, o);
      if r' < r { ShutsOnce(c, ws, acts, k, r', r); } else if r < r' { ShutsOnce(c, ws, acts, k, r, r'); }
    }
    forall k ensures LinkOf(ws[n], k).opens <= 1
      && (LinkOf(ws[n], k).shuts != LinkOf(ws[n], k).opens ==> OpenedBefore(c, acts, n, k) && ShutBefore(acts, n, k))
    {
      RunInv(c, ws, acts, n);
      LinkHistory(c, ws, acts, n, k);
    }
    assert LinkOf(ws[n], Results) == ws[n].results && LinkOf(ws[n], PubSub) == ws[n].pubSub;
  }

  /** What to keep to: a connection that nobody closes before it is connected leaves nothing open. */
  lemma ClosedWhenServing(c: Config, ws: seq<State>, acts: seq<Action>, n: nat)
    requires Run(c, ws, acts) && n < |ws| && ws[n].pc.Left?
    requires forall i :: 0 <= i < n && acts[i].BeginClose? ==> ws[i].pc.Serving?
    ensures AllShut(ws[n])
  {
    forall k, o, r | 0 <= o < n && 0 <= r < n && Opening(c, acts[o], k) && Shutting(acts[r], k)
      ensures o < r
    {
      LateClose(c, ws, acts, o);
      LinkHistory(c, ws, acts, o, k);
      assert !ShutBefore(acts, o, k);
    }
    LinksClosed(c, ws, acts, n);
  }

  lemma {:induction false} LateClose(c: Config, ws: seq<State>, acts: seq<Action>, n: nat)
    requires Run(c, ws, acts) && n < |ws|
    requires forall i :: 0 <= i < n && acts[i].BeginClose? ==> ws[i].pc.Serving?
    ensures !ws[n].closing.Unclosed? ==> ws[n].pc.Serving? || ws[n].pc.SetupFailed? || ws[n].pc.Left?
    decreases n
  {
    if n > 0 { LateClose(c, ws, acts, n - 1); }
  }

  lemma Extended(c: Config, ws: seq<State>, acts: seq<Action>, a: Action) returns (ws': seq<State>, acts': seq<Action>)
    requires Run(c, ws, acts) && Enabled(ws[|acts|], a)
    ensures Run(c, ws', acts') && acts' == acts + [a] && ws'[|acts'|] == Apply(c, ws[|acts|], a)
  {
    ws', acts' := ws + [Apply(c, ws[|acts|], a)], acts + [a];
  }

  /** The state once the Close that has begun is through. */
  function Through(s: State): State {
    s.(closing := Killed, pubSub := Shut(s.pubSub), results := Shut(s.results))
  }

  lemma CloseThrough(c: Config, ws: seq<State>, acts: seq<Action>) returns (ws': seq<State>, acts': seq<Action>)
    requires Run(c, ws, acts) && ws[|acts|].closing.Began?
    ensures Run(c, ws', acts') && acts' == acts + [ShutPubSub, ShutResults, Kill]
    ensures ws'[|acts'|] == Through(ws[|acts|])
  {
    ws', acts' := Extended(c, ws, acts, ShutPubSub);
    ws', acts' := Extended(c, ws', acts', ShutResults);
    ws', acts' := Extended(c, ws', acts', Kill);
  }

  /** The rest of a run in which both dials succeed after the Close is through. */
  lemma Finished(c: Config, ws: seq<State>, acts: seq<Action>) returns (ws': seq<State>, acts': seq<Action>)
    requires Run(c, ws, acts) && c.pubSub && ws[|acts|].pc.ResultsReady? && ws[|acts|].closing.Killed?
    ensures Run(c, ws', acts') && ws'[|acts'|].pc.Left?
    ensures ws'[|acts'|].results == ws[|acts|].results && ws'[|acts'|].pubSub == Opened(ws[|acts|].pubSub)
  {
    ws', acts' := Extended(c, ws, acts, OpenPubSub(None));
    ws', acts' := Extended(c, ws', acts', Connect);
    ws', acts' := Extended(c, ws', acts', Leave);
  }

  /** Closing from the callback for Accepting does leave both broker connections open. */
  lemma EarlyCloseLeaks(e: string) returns (ws: seq<State>, acts: seq<Action>)
    ensures Run(Config(true, true), ws, acts) && ws[|acts|].pc.Left?
    ensures ws[|acts|].results == ws[|acts|].pubSub == Link(true, 1, 0)
  {
    var c := Config(true, true);
    ws, acts := [Init()], [];
    ws, acts := Extended(c, ws, acts, Accept);
    ws, acts := Extended(c, ws, acts, BeginClose(e));
    ws, acts := CloseThrough(c, ws, acts);
    ws, acts := Extended(c, ws, acts, OpenResults(None));
    ws, acts := Finished(c, ws, acts);
  }

  /** And closing from another goroutine between the two dials leaves the second one open. */
  lemma CloseBetweenLeaks(e: string) returns (ws: seq<State>, acts: seq<Action>)
    ensures Run(Config(true, true), ws, acts) && ws[|acts|].pc.Left?
    ensures ws[|acts|].results == Link(true, 1, 1) && ws[|acts|].pubSub == Link(true, 1, 0)
  {
    var c := Config(true, true);
    ws, acts := [Init()], [];
    ws, acts := Extended(c, ws, acts, Accept);
    ws, acts := Extended(c, ws, acts, OpenResults(None));
    ws, acts := Extended(c, ws, acts, BeginClose(e));
    ws, acts := CloseThrough(c, ws, acts);
    ws, acts := Finished(c, ws, acts);
  }

  /** The error of the first to close is the one that stays, from then on. */
  lemma {:induction false} FirstCloseErr(c: Config, ws: seq<State>, acts: seq<Action>, i: nat, j: nat)
    requires Run(c, ws, acts) && i < j < |ws| && ws[i].closeErr.None? && ws[i + 1].closeErr.Some?
    ensures ws[j].closeErr == ws[i + 1].closeErr
    ensures acts[i].BeginClose? ==> ws[j].closeErr == Some(acts[i].e)
    ensures acts[i].OpenResults? || acts[i].OpenPubSub? ==> ws[j].closeErr == acts[i].err
    ensures acts[i].BeginClose? || acts[i].OpenResults? || acts[i].OpenPubSub?
    decreases j
  {
    if i + 1 < j {
      FirstCloseErr(c, ws, acts, i, j - 1);
      RunInv(c, ws, acts, j - 1);
      StepInv(c, ws[j - 1], acts[j - 1]);
    }
  }

  // ------------------------------------------------------------------ the code

  /** A broker connection at the end of ServeConn: closed once if it was opened, but not after an early Close. */
  function Dialled(ok: bool, early: Option<string>): Link {
    if ok then Link(true, 1, if early.Some? then 0 else 1) else Link(false, 0, 0)
  }

  class Conn {
    ghost var pc: Pc             // where ServeConn is
    var notes: seq<Note>
    var results: Link
    var pubSub: Link
    var once: bool               // closeOnce is done, and so the kill channel closed
    var closeErr: Option<string>

    ghost function View(): State
      reads this
    {
      State(pc, notes, results, pubSub, if once then Killed else Unclosed, closeErr)
    }

    constructor ()
      ensures View() == Init()
    {
      pc, notes, results, pubSub := Start, [], Link(false, 0, 0), Link(false, 0, 0);
      once, closeErr := false, None;
    }

    method Close(e: string)
      modifies this`results, this`pubSub, this`once, this`closeErr
      ensures View() == if old(once) then old(View()) else Through(Begun(old(View()), e))
    {
      if once { return; }
      closeErr := Some(e);
      if pubSub.held { pubSub := pubSub.(shuts := pubSub.shuts + 1); }
      if results.held { results := results.(shuts := results.shuts + 1); }
      once := true;
    }

    /**
     ServeConn on a new connection with these allowed types, when the only other goroutines
     that close it are its loops: the error of a Close by the callback for Accepting, those of
     the two dials, and the one with which a loop will close the connection. It is one run of
     the machine.
     */
    method ServeConn(
        allowed: seq<Message.Type>, early: Option<string>,
        resultsErr: Option<string>, pubSubErr: Option<string>, loopErr: string)
      returns (ghost ws: seq<State>, ghost acts: seq<Action>)
      requires View() == Init()
      modifies this
      ensures Run(ConfigFor(allowed), ws, acts) && ws[|acts|] == View() && pc.Left?
      ensures var c := ConfigFor(allowed);
        closeErr == if early.Some? then early
                    else if c.call && resultsErr.Some? then resultsErr
                    else if c.pubSub && pubSubErr.Some? then pubSubErr
                    else Some(loopErr)
      ensures var c := ConfigFor(allowed);
        var failed := (c.call && resultsErr.Some?) || (c.pubSub && pubSubErr.Some?);
        notes == if failed then [Accepting, Closed] else [Accepting, Connected, Closed]
      ensures results == Dialled(ConfigFor(allowed).call && resultsErr.None?, early)
      ensures var c := ConfigFor(allowed);
        pubSub == Dialled(c.pubSub && pubSubErr.None? && !(c.call && resultsErr.Some?), early)
    {
      var plan := Negotiate.Plan(allowed);
      var c := Config(plan.results, plan.pubSub);
      ws, acts := Announce(c, early);
      var ok;
      ok, ws, acts := SetUp(c, resultsErr, pubSubErr, ws, acts);
      if ok { ws, acts := Serve(c, loopErr, ws, acts); }
    }

    /** The notification for Accepting, and the Close by its callback. */
    method Announce(c: Config, early: Option<string>) returns (ghost ws: seq<State>, ghost acts: seq<Action>)
      requires View() == Init()
      modifies this
      ensures Run(c, ws, acts) && ws[|acts|] == View() && pc.Accepted?
      ensures closeErr == early && (once <==> early.Some?) && notes == [Accepting]
      ensures results == pubSub == Link(false, 0, 0)
    {
      ws, acts := [Init()], [];
      notes := notes + [Accepting];
      pc := Accepted;
      ws, acts := Extended(c, ws, acts, Accept);
      if early.Some? {
        ws, acts := Extended(c, ws, acts, BeginClose(early.value));
        ws, acts := CloseThrough(c, ws, acts);
        Close(early.value);
      }
    }

    /** The two dials; after a failed one the connection is closed and ServeConn returns. */
    method SetUp(
        c: Config, resultsErr: Option<string>, pubSubErr: Option<string>,
        ghost before: seq<State>, ghost done: seq<Action>)
      returns (ok: bool, ghost ws: seq<State>, ghost acts: seq<Action>)
      requires Run(c, before, done) && before[|done|] == View() && pc.Accepted?
      requires results == pubSub == Link(false, 0, 0)
      modifies this
      ensures Run(c, ws, acts) && ws[|acts|] == View() && (if ok then pc.Ready? else pc.Left?)
      ensures ok ==> once == old(once) && closeErr == old(closeErr)
      ensures var first := if c.call && resultsErr.Some? then resultsErr else if c.pubSub then pubSubErr else None;
        (ok <==> first.None?) && (!ok ==> closeErr == if old(once) then old(closeErr) else first)
      ensures notes == old(notes) + if ok then [] else [Closed]
      ensures var link := if c.call && resultsErr.None? then Link(true, 1, 0) else Link(false, 0, 0);
        results == if ok || old(once) then link else Shut(link)
      ensures pubSub == if ok && c.pubSub then Link(true, 1, 0) else Link(false, 0, 0)
    {
      ws, acts := Extended(c, before, done, OpenResults(resultsErr));
      if c.call {
        if resultsErr.Some? {
          ws, acts := GiveUp(c, resultsErr.value, ws, acts);
          return false, ws, acts;
        }
        results := Opened(results);
      }
      pc := ResultsReady;
      ws, acts := Extended(c, ws, acts, OpenPubSub(pubSubErr));
      if c.pubSub {
        if pubSubErr.Some? {
          ws, acts := GiveUp(c, pubSubErr.value, ws, acts);
          return false, ws, acts;
        }
        pubSub := Opened(pubSub);
      }
      pc := Ready;
      return true, ws, acts;
    }

    /** Connected, until a loop closes the connection. */
    method Serve(c: Config, loopErr: string, ghost before: seq<State>, ghost done: seq<Action>)
      returns (ghost ws: seq<State>, ghost acts: seq<Action>)
      requires Run(c, before, done) && before[|done|] == View() && pc.Ready?
      modifies this
      ensures Run(c, ws, acts) && ws[|acts|] == View() && pc.Left?
      ensures closeErr == if old(once) then old(closeErr) else Some(loopErr)
      ensures notes == old(notes) + [Connected, Closed]
      ensures results == (if old(once) then old(results) else Shut(old(results)))
      ensures pubSub == (if old(once) then old(pubSub) else Shut(old(pubSub)))
    {
      notes := notes + [Connected];
      pc := Serving;
      ws, acts := Extended(c, before, done, Connect);
      if !once {
        ws, acts := Extended(c, ws, acts, BeginClose(loopErr));
        ws, acts := CloseThrough(c, ws, acts);
      }
      Close(loopErr);
      ws, acts := Extended(c, ws, acts, Leave);
      notes := notes + [Closed];
      pc := Left;
    }

    /** Closes the connection after a failed dial. */
    method GiveUp(c: Config, e: string, ghost before: seq<State>, ghost acts: seq<Action>)
      returns (ghost ws: seq<State>, ghost acts': seq<Action>)
      requires Run(c, before, acts) && before[|acts|] == Begun(View(), e).(pc := SetupFailed)
      modifies this
      ensures Run(c, ws, acts') && ws[|acts'|] == View() && pc.Left?
      ensures closeErr == (if old(once) then old(closeErr) else Some(e)) && notes == old(notes) + [Closed]
      ensures results == (if old(once) then old(results) else Shut(old(results)))
      ensures pubSub == (if old(once) then old(pubSub) else Shut(old(pubSub)))
    {
      ws, acts' := before, acts;
      if !once { ws, acts' := CloseThrough(c, ws, acts'); }
      pc := SetupFailed;
      Close(e);
      ws, acts' := Extended(c, ws, acts', Leave);
      notes := notes + [Closed];
      pc := Left;
    }
  }
}
