/**
 The stream pumps of the broker connections: pollCalls, pollResults and listen are one
 loop that starts a sender goroutine for each item, and that on an error records it, waits
 for the senders and closes the channel.
 */
module Pump {
  import opened Wrappers

  datatype Loop = Polling | Draining | Ended

  /** A sender decodes and checks its item, then drops it or sends it, then is done. */
  datatype Phase = Working | Sending | Finishing | Gone

  datatype Sender<T> = Sender(item: T, phase: Phase)

  datatype State<T> = State(
    loop: Loop,
    err: Option<string>,
    wg: int,                     // the counter of the WaitGroup
    senders: seq<Sender<T>>,     // every goroutine started
    open: bool,                  // the channel is not closed
    popped: seq<T>,
    delivered: seq<T>,
    dropped: seq<T>,
    panicked: bool)              // a send on a closed channel, or a negative WaitGroup

  datatype Action<T> =
    | Item(item: T)
    | Empty
    | PollError(e: string)
    | Drop(i: nat)
    | Ready(i: nat)
    | Send(i: nat)
    | SenderDone(i: nat)
    | CloseChannel

  function Init<T>(): State<T> { State(Polling, None, 0, [], true, [], [], [], false) }

  predicate At<T>(s: State<T>, i: nat, p: Phase) { i < |s.senders| && s.senders[i].phase == p }

  predicate Enabled<T>(s: State<T>, a: Action<T>) {
    match a
    case Item(_) => s.loop.Polling?
    case Empty => s.loop.Polling?
    case PollError(_) => s.loop.Polling?
    case Drop(i) => At(s, i, Working)
    case Ready(i) => At(s, i, Working)
    case Send(i) => At(s, i, Sending)
    case SenderDone(i) => At(s, i, Finishing)
    case CloseChannel => s.loop.Draining? && s.wg == 0
  }

  function Moved<T>(s: State<T>, i: nat, p: Phase): seq<Sender<T>>
    requires i < |s.senders|
  {
    s.senders[i := s.senders[i].(phase := p)]
  }

  function Apply<T>(s: State<T>, a: Action<T>): State<T>
    requires Enabled(s, a)
  {
    match a
    case Item(x) => s.(wg := s.wg + 1, senders := s.senders + [Sender(x, Working)], popped := s.popped + [x])
    case Empty => s
    case PollError(e) => s.(err := Some(e), loop := Draining)
    case Drop(i) => s.(senders := Moved(s, i, Finishing), dropped := s.dropped + [s.senders[i].item])
    case Ready(i) => s.(senders := Moved(s, i, Sending))
    case Send(i) =>
      if s.open
      then s.(senders := Moved(s, i, Finishing), delivered := s.delivered + [s.senders[i].item])
      else s.(panicked := true)
    case SenderDone(i) => s.(senders := Moved(s, i, Gone), wg := s.wg - 1, panicked := s.panicked || s.wg <= 0)
    case CloseChannel => s.(loop := Ended, open := false)
  }

  // ------------------------------------------------------------ the invariant

  function Live<T>(senders: seq<Sender<T>>): nat {
    if senders == [] then 0
    else Live(senders[..|senders| - 1]) + if senders[|senders| - 1].phase.Gone? then 0 else 1
  }

  /** The items that are neither delivered nor dropped yet. */
  function Unsettled<T>(senders: seq<Sender<T>>): multiset<T> {
    if senders == [] then multiset{}
    else
      var rest, last := Unsettled(senders[..|senders| - 1]), senders[|senders| - 1];
      if Holding(last.phase) then rest + multiset{last.item} else rest
  }

  ghost predicate Inv<T>(s: State<T>) {
    && !s.panicked
    && s.wg == Live(s.senders)
    && multiset(s.popped) == multiset(s.delivered) + multiset(s.dropped) + Unsettled(s.senders)
    && (s.open <==> !s.loop.Ended?)
    && (s.loop.Polling? <==> s.err.None?)
    && (s.loop.Ended? ==> s.wg == 0)
  }

  lemma {:induction false} LiveMoved<T>(senders: seq<Sender<T>>, i: nat, p: Phase)
    requires i < |senders| && !senders[i].phase.Gone?
    ensures Live(senders[i := senders[i].(phase := p)]) == Live(senders) - if p.Gone? then 1 else 0
    ensures Live(senders) > 0
  {
    var last := |senders| - 1;
    var after := senders[i := senders[i].(phase := p)];
    if i == last {
      assert after[..last] == senders[..last];
    } else {
      assert after[..last] == senders[..last][i := senders[i].(phase := p)];
      LiveMoved(senders[..last], i, p);
    }
  }

  predicate Holding(p: Phase) { p.Working? || p.Sending? }

  lemma {:induction false} UnsettledMoved<T>(senders: seq<Sender<T>>, i: nat, p: Phase)
    requires i < |senders| && (Holding(p) ==> Holding(senders[i].phase))
    ensures Unsettled(senders) == Unsettled(senders[i := senders[i].(phase := p)])
              + if Holding(senders[i].phase) && !Holding(p) then multiset{senders[i].item} else multiset{}
  {
    var last := |senders| - 1;
    var after := senders[i := senders[i].(phase := p)];
    if i == last {
      assert after[..last] == senders[..last];
    } else {
      assert after[..last] == senders[..last][i := senders[i].(phase := p)];
      UnsettledMoved(senders[..last], i, p);
    }
  }

  lemma DropInv<T>(s: State<T>, i: nat)
    requires Inv(s) && Enabled(s, Drop(i))
    ensures Inv(Apply(s, Drop(i)))
  {
    LiveMoved(s.senders, i, Finishing);
    UnsettledMoved(s.senders, i, Finishing);
  }

  lemma ReadyInv<T>(s: State<T>, i: nat)
    requires Inv(s) && Enabled(s, Ready(i))
    ensures Inv(Apply(s, Ready(i)))
  {
    LiveMoved(s.senders, i, Sending);
    UnsettledMoved(s.senders, i, Sending);
  }

  lemma SendInv<T>(s: State<T>, i: nat)
    requires Inv(s) && Enabled(s, Send(i))
    ensures Inv(Apply(s, Send(i)))
  {
    LiveMoved(s.senders, i, Finishing);
    UnsettledMoved(s.senders, i, Finishing);
  }

  lemma SenderDoneInv<T>(s: State<T>, i: nat)
    requires Inv(s) && Enabled(s, SenderDone(i))
    ensures Inv(Apply(s, SenderDone(i)))
  {
    LiveMoved(s.senders, i, Gone);
    UnsettledMoved(s.senders, i, Gone);
  }

  lemma ItemInv<T>(s: State<T>, x: T)
    requires Inv(s) && Enabled(s, Item(x))
    ensures Inv(Apply(s, Item(x)))
  {
    assert Apply(s, Item(x)).senders[..|s.senders|] == s.senders;
  }

  lemma StepInv<T>(s: State<T>, a: Action<T>)
    requires Inv(s) && Enabled(s, a)
    ensures Inv(Apply(s, a))
  {
    match a
    case Item(x) => ItemInv(s, x);
    case Empty =>
    case PollError(_) =>
    case Drop(i) => DropInv(s, i);
    case Ready(i) => ReadyInv(s, i);
    case Send(i) => SendInv(s, i);
    case SenderDone(i) => SenderDoneInv(s, i);
    case CloseChannel =>
  }

  ghost predicate Run<T>(ws: seq<State<T>>, acts: seq<Action<T>>) {
    && |ws| == |acts| + 1
    && ws[0] == Init()
    && forall i :: 0 <= i < |acts| ==> Enabled(ws[i], acts[i]) && ws[i + 1] == Apply(ws[i], acts[i])
  }

  lemma {:induction false} RunInv<T>(ws: seq<State<T>>, acts: seq<Action<T>>, n: nat)
    requires Run(ws, acts) && n < |ws|
    ensures Inv(ws[n])
    decreases n
  {
    if n > 0 {
      RunInv(ws, acts, n - 1);
      StepInv(ws[n - 1], acts[n - 1]);
    }
  }

  lemma {:induction false} NoneLive<T>(senders: seq<Sender<T>>)
    requires Live(senders) == 0
    ensures Unsettled(senders) == multiset{}
    ensures forall i :: 0 <= i < |senders| ==> senders[i].phase.Gone?
  {
    if senders != [] { NoneLive(senders[..|senders| - 1]); }
  }

  /**
   Safety: no sender ever sends on the closed channel; the channel is closed only after
   the error is recorded and every sender is gone, and then the items popped are exactly
   those delivered and those dropped, each once.
   */
  lemma PumpSafe<T>(ws: seq<State<T>>, acts: seq<Action<T>>, n: nat)
    requires Run(ws, acts) && n < |ws|
    ensures !ws[n].panicked
    ensures !ws[n].open ==>
      && ws[n].err.Some?
      && (forall i :: 0 <= i < |ws[n].senders| ==> ws[n].senders[i].phase.Gone?)
      && multiset(ws[n].popped) == multiset(ws[n].delivered) + multiset(ws[n].dropped)
  {
    RunInv(ws, acts, n);
    if !ws[n].open { NoneLive(ws[n].senders); }
  }

  ghost predicate ErrorPolled<T(!new)>(acts: seq<Action<T>>, n: nat)
    requires n <= |acts|
  {
    exists i :: 0 <= i < n && acts[i].PollError?
  }

  ghost predicate ChannelClosed<T(!new)>(acts: seq<Action<T>>, n: nat)
    requires n <= |acts|
  {
    exists i :: 0 <= i < n && acts[i].CloseChannel?
  }

  lemma PolledStep<T(!new)>(acts: seq<Action<T>>, n: nat)
    requires n < |acts|
    ensures ErrorPolled(acts, n + 1) <==> ErrorPolled(acts, n) || acts[n].PollError?
    ensures ChannelClosed(acts, n + 1) <==> ChannelClosed(acts, n) || acts[n].CloseChannel?
  {
  }

  lemma StepLoop<T>(s: State<T>, a: Action<T>)
    requires Enabled(s, a)
    ensures var s' := Apply(s, a);
      && (s'.loop.Polling? <==> s.loop.Polling? && !a.PollError?)
      && (s'.loop.Ended? <==> s.loop.Ended? || a.CloseChannel?)
      && s'.err == if a.PollError? then Some(a.e) else s.err
  {
  }

  lemma {:induction false} LoopHistory<T(!new)>(ws: seq<State<T>>, acts: seq<Action<T>>, n: nat)
    requires Run(ws, acts) && n < |ws|
    ensures ErrorPolled(acts, n) <==> !ws[n].loop.Polling?
    ensures ChannelClosed(acts, n) <==> ws[n].loop.Ended?
    decreases n
  {
    if n > 0 {
      LoopHistory(ws, acts, n - 1);
      PolledStep(acts, n - 1);
      StepLoop(ws[n - 1], acts[n - 1]);
    }
  }

  /**
   When the error can be read, in every state of every run: it is set exactly from the poll
   error on, and so it is set while the channel is still open, against the documentation,
   exactly from the poll error until the close, while the senders drain.
   */
  lemma ErrorVisible<T(!new)>(ws: seq<State<T>>, acts: seq<Action<T>>, n: nat)
    requires Run(ws, acts) && n < |ws|
    ensures ws[n].err.Some? <==> ErrorPolled(acts, n)
    ensures ws[n].err.Some? && ws[n].open <==> ws[n].loop.Draining?
    ensures ws[n].err.Some? && ws[n].open <==> ErrorPolled(acts, n) && !ChannelClosed(acts, n)
  {
    RunInv(ws, acts, n);
    LoopHistory(ws, acts, n);
  }

  /** The recorded error stays: it is that of the one poll error. */
  lemma {:induction false} ErrorStays<T(!new)>(ws: seq<State<T>>, acts: seq<Action<T>>, i: nat, n: nat)
    requires Run(ws, acts) && i < n < |ws| && acts[i].PollError?
    ensures ws[n].err == Some(acts[i].e)
    decreases n
  {
    StepLoop(ws[n - 1], acts[n - 1]);
    if i < n - 1 {
      ErrorStays(ws, acts, i, n - 1);
      LoopHistory(ws, acts, n - 1);
      assert ErrorPolled(acts, n - 1);
    }
  }

  /** Such a state is there after the first poll error of any pump. */
  lemma ErrBeforeClose<T>(e: string)
    ensures Run([Init<T>(), Apply(Init<T>(), PollError(e))], [PollError(e)])
    ensures var s := Apply(Init<T>(), PollError(e)); s.open && s.err == Some(e) && Enabled(s, CloseChannel)
  {
  }

  // ---------------------------------------------------------------- the drain

  function Weight(p: Phase): nat {
    match p
    case Working => 3
    case Sending => 2
    case Finishing => 1
    case Gone => 0
  }

  /** The steps that the senders still have to take, at most. */
  function Backlog<T>(senders: seq<Sender<T>>): nat {
    if senders == [] then 0 else Backlog(senders[..|senders| - 1]) + Weight(senders[|senders| - 1].phase)
  }

  lemma {:induction false} BacklogMoved<T>(senders: seq<Sender<T>>, i: nat, p: Phase)
    requires i < |senders|
    ensures Backlog(senders[i := senders[i].(phase := p)]) == Backlog(senders) - Weight(senders[i].phase) + Weight(p)
  {
    var last := |senders| - 1;
    var after := senders[i := senders[i].(phase := p)];
    if i == last {
      assert after[..last] == senders[..last];
    } else {
      assert after[..last] == senders[..last][i := senders[i].(phase := p)];
      BacklogMoved(senders[..last], i, p);
    }
  }

  /** Steps still to come before a draining pump has closed its channel. */
  function Remaining<T>(s: State<T>): nat { Backlog(s.senders) + if s.loop.Ended? then 0 else 1 }

  /** After a poll error every step brings the close nearer: there is no way to go on for ever. */
  lemma DrainProgress<T>(s: State<T>, a: Action<T>)
    requires Inv(s) && !s.loop.Polling? && Enabled(s, a)
    ensures Remaining(Apply(s, a)) < Remaining(s) && !Apply(s, a).loop.Polling?
  {
    match a
    case CloseChannel =>
    case Drop(i) => BacklogMoved(s.senders, i, Finishing);
    case Ready(i) => BacklogMoved(s.senders, i, Sending);
    case Send(i) =>
      LiveMoved(s.senders, i, Finishing);
      BacklogMoved(s.senders, i, Finishing);
    case SenderDone(i) => BacklogMoved(s.senders, i, Gone);
  }

  /** And until the channel is closed some step is always possible, given a consumer that keeps reading. */
  lemma DrainEnabled<T>(s: State<T>) returns (a: Action<T>)
    requires Inv(s) && s.loop.Draining?
    ensures Enabled(s, a)
  {
    if s.wg == 0 {
      a := CloseChannel;
    } else {
      var i := SomeLive(s.senders);
      a := match s.senders[i].phase
           case Working => Drop(i)
           case Sending => Send(i)
           case _ => SenderDone(i);
    }
  }

  lemma {:induction false} SomeLive<T>(senders: seq<Sender<T>>) returns (i: nat)
    requires Live(senders) > 0
    ensures i < |senders| && !senders[i].phase.Gone?
  {
    var last := |senders| - 1;
    if senders[last].phase.Gone? { i := SomeLive(senders[..last]); } else { i := last; }
  }

  lemma DrainStep<T>(ws: seq<State<T>>, acts: seq<Action<T>>, j: nat)
    requires Run(ws, acts) && j < |acts| && !ws[j].loop.Polling?
    ensures Remaining(ws[j + 1]) < Remaining(ws[j]) && !ws[j + 1].loop.Polling?
  {
    RunInv(ws, acts, j);
    DrainProgress(ws[j], acts[j]);
  }

  /** So a pump that saw an error closes its channel within a bounded number of steps, however they interleave. */
  lemma {:induction false} DrainBounded<T>(ws: seq<State<T>>, acts: seq<Action<T>>, i: nat, j: nat)
    requires Run(ws, acts) && i <= j < |ws| && !ws[i].loop.Polling?
    ensures j - i <= Remaining(ws[i]) - Remaining(ws[j]) && !ws[j].loop.Polling?
    decreases j
  {
    if i < j {
      DrainBounded(ws, acts, i, j - 1);
      DrainStep(ws, acts, j - 1);
    }
  }

  // --------------------------------------------------------------- the code

  /** The fields of a broker connection, changed by its loop and its senders. */
  class Conn<T(==)> {
    var loop: Loop
    var err: Option<string>
    var wg: int
    var senders: seq<Sender<T>>
    var open: bool
    var popped: seq<T>
    var delivered: seq<T>
    var dropped: seq<T>
    var panicked: bool

    ghost function View(): State<T>
      reads this
    {
      State(loop, err, wg, senders, open, popped, delivered, dropped, panicked)
    }

    constructor ()
      ensures View() == Init()
    {
      loop, err, wg, senders, open := Polling, None, 0, [], true;
      popped, delivered, dropped, panicked := [], [], [], false;
    }

    /** The poll loop, for the replies of redis up to its first error; Some is an item, None a BRPOP that timed out. */
    method Poll(replies: seq<Option<T>>, e: string)
      requires loop.Polling?
      modifies this
      ensures View() == Apply(Polled(old(View()), replies), PollError(e))
      ensures popped == old(popped) + Values(replies) && senders == old(senders) + Started(Values(replies))
      ensures delivered == old(delivered) && dropped == old(dropped) && err == Some(e)
    {
      PolledItems(View(), replies);
      for n := 0 to |replies|
        invariant View() == Polled(old(View()), replies[..n])
      {
        assert replies[..n + 1][..n] == replies[..n];
        if replies[n].Some? {
          wg := wg + 1;
          senders := senders + [Sender(replies[n].value, Working)];
          popped := popped + [replies[n].value];
        }
      }
      assert replies[..|replies|] == replies;
      err := Some(e);
      loop := Draining;
    }

    /** A sender, from decoding its item to the end of its goroutine. */
    method RunSender(i: nat, deliver: bool)
      requires At(View(), i, Working)
      modifies this
      ensures View() == Sent(old(View()), i, deliver)
    {
      if deliver {
        senders := senders[i := senders[i].(phase := Sending)];
        if !open {
          panicked := true;
          return;
        }
        delivered := delivered + [senders[i].item];
      } else {
        dropped := dropped + [senders[i].item];
      }
      senders := senders[i := senders[i].(phase := Finishing)];
      panicked := panicked || wg <= 0;
      wg := wg - 1;
      senders := senders[i := senders[i].(phase := Gone)];
    }

    /**
     The whole life of a pump, when the senders run one after the other: the replies of redis up
     to its first error, what each sender decides, and at the end the close of the channel.
     */
    method Pump(replies: seq<Option<T>>, e: string, decide: T -> bool)
      requires View() == Init()
      modifies this
      ensures !open && !panicked && err == Some(e)
      ensures forall i :: 0 <= i < |senders| ==> senders[i].phase.Gone?
      ensures popped == Values(replies)
      ensures delivered == Chosen(Values(replies), decide, true) && dropped == Chosen(Values(replies), decide, false)
      ensures multiset(popped) == multiset(delivered) + multiset(dropped)
    {
      Poll(replies, e);
      PolledInv(old(View()), replies);
      StepInv(Polled(old(View()), replies), PollError(e));
      assert [] + Values(replies) == Values(replies);
      assert [] + Started(Values(replies)) == Started(Values(replies));
      RunSenders(Values(replies), decide);
      StepInv(View(), CloseChannel);
      Close();
      NoneLive(senders);
    }

    /** Every sender, one after the other. */
    method RunSenders(items: seq<T>, decide: T -> bool)
      requires Inv(View()) && loop.Draining? && senders == Started(items)
      modifies this
      ensures Inv(View()) && loop.Draining? && err == old(err) && wg == 0 && popped == old(popped)
      ensures delivered == old(delivered) + Chosen(items, decide, true)
      ensures dropped == old(dropped) + Chosen(items, decide, false)
    {
      for i := 0 to |items|
        invariant Inv(View()) && Settling(old(View()), View(), items, decide, i)
      {
        SettlingSent(old(View()), View(), items, decide, i);
        RunSender(i, decide(senders[i].item));
      }
      assert items[..|items|] == items;
      AllGone(senders);
    }

    /** The end of the loop, once the WaitGroup lets it go. */
    method Close()
      requires Enabled(View(), CloseChannel)
      modifies this
      ensures View() == Apply(old(View()), CloseChannel)
    {
      loop, open := Ended, false;
    }
  }

  function Polled<T>(s: State<T>, replies: seq<Option<T>>): (r: State<T>)
    requires s.loop.Polling?
    ensures r.loop.Polling?
  {
    if replies == [] then s
    else
      var before, last := Polled(s, replies[..|replies| - 1]), replies[|replies| - 1];
      Apply(before, if last.Some? then Item(last.value) else Empty)
  }

  /** The items among the replies of redis, in order. */
  function Values<T>(replies: seq<Option<T>>): seq<T> {
    if replies == [] then []
    else (if replies[0].Some? then [replies[0].value] else []) + Values(replies[1..])
  }

  /** The items for which the decision is `want`, in order. */
  function Chosen<T>(items: seq<T>, decide: T -> bool, want: bool): seq<T> {
    if items == [] then []
    else (if decide(items[0]) == want then [items[0]] else []) + Chosen(items[1..], decide, want)
  }

  /** A new sender for each item. */
  function Started<T>(items: seq<T>): (senders: seq<Sender<T>>)
    ensures |senders| == |items| && forall i :: 0 <= i < |items| ==> senders[i] == Sender(items[i], Working)
  {
    seq(|items|, i requires 0 <= i < |items| => Sender(items[i], Working))
  }

  lemma {:induction false} ValuesAppend<T>(replies: seq<Option<T>>, r: Option<T>)
    ensures Values(replies + [r]) == Values(replies) + if r.Some? then [r.value] else []
  {
    if replies == [] {
      assert [r][1..] == [];
    } else {
      ValuesAppend(replies[1..], r);
      assert (replies + [r])[1..] == replies[1..] + [r];
    }
  }

  lemma {:induction false} ChosenAppend<T>(items: seq<T>, x: T, decide: T -> bool, want: bool)
    ensures Chosen(items + [x], decide, want) == Chosen(items, decide, want) + if decide(x) == want then [x] else []
  {
    if items == [] {
      assert [x][1..] == [];
    } else {
      ChosenAppend(items[1..], x, decide, want);
      assert (items + [x])[1..] == items[1..] + [x];
    }
  }

  lemma {:induction false} PolledItems<T>(s: State<T>, replies: seq<Option<T>>)
    requires s.loop.Polling?
    ensures var r := Polled(s, replies);
      && r.popped == s.popped + Values(replies) && r.senders == s.senders + Started(Values(replies))
      && r.delivered == s.delivered && r.dropped == s.dropped
  {
    if replies != [] {
      var n := |replies| - 1;
      PolledItems(s, replies[..n]);
      ValuesAppend(replies[..n], replies[n]);
      assert replies[..n] + [replies[n]] == replies;
      if replies[n].Some? {
        assert Started(Values(replies)) == Started(Values(replies[..n])) + [Sender(replies[n].value, Working)];
      }
    }
  }

  /** Polling keeps the invariant, and leaves every sender at its start. */
  lemma {:induction false} PolledInv<T>(s: State<T>, replies: seq<Option<T>>)
    requires Inv(s) && s.loop.Polling? && s.senders == []
    ensures var r := Polled(s, replies);
      Inv(r) && forall j :: 0 <= j < |r.senders| ==> r.senders[j].phase.Working?
  {
    if replies != [] {
      var n := |replies| - 1;
      PolledInv(s, replies[..n]);
      StepInv(Polled(s, replies[..n]), if replies[n].Some? then Item(replies[n].value) else Empty);
    }
  }

  /** A sender of an open pump delivers its item or drops it, as decided, and is gone. */
  lemma SentExactly<T>(s: State<T>, i: nat, deliver: bool)
    requires s.open && At(s, i, Working)
    ensures var s', item := Sent(s, i, deliver), s.senders[i].item;
      && s'.delivered == s.delivered + (if deliver then [item] else [])
      && s'.dropped == s.dropped + (if deliver then [] else [item])
      && s'.senders == s.senders[i := Sender(item, Gone)]
      && s'.wg == s.wg - 1 && s'.popped == s.popped && s'.err == s.err && s'.loop == s.loop && s'.open
  {
  }

  /** From s0 on, the first i senders have run to their end. */
  ghost predicate Settling<T>(s0: State<T>, s: State<T>, items: seq<T>, decide: T -> bool, i: nat) {
    && i <= |items| == |s.senders|
    && s.loop.Draining? && s.open && s.err == s0.err && s.popped == s0.popped
    && (forall j :: 0 <= j < |items| ==> s.senders[j] == Sender(items[j], if j < i then Gone else Working))
    && s.delivered == s0.delivered + Chosen(items[..i], decide, true)
    && s.dropped == s0.dropped + Chosen(items[..i], decide, false)
  }

  lemma SettlingStep<T>(s0: State<T>, s: State<T>, s': State<T>, items: seq<T>, decide: T -> bool, i: nat)
    requires Settling(s0, s, items, decide, i) && i < |items|
    requires s'.delivered == s.delivered + if decide(items[i]) then [items[i]] else []
    requires s'.dropped == s.dropped + if decide(items[i]) then [] else [items[i]]
    requires s'.senders == s.senders[i := Sender(items[i], Gone)]
    requires s'.popped == s.popped && s'.err == s.err && s'.loop == s.loop && s'.open == s.open
    ensures Settling(s0, s', items, decide, i + 1)
  {
    assert items[..i + 1] == items[..i] + [items[i]];
    ChosenAppend(items[..i], items[i], decide, true);
    ChosenAppend(items[..i], items[i], decide, false);
  }

  lemma SettlingSent<T>(s0: State<T>, s: State<T>, items: seq<T>, decide: T -> bool, i: nat)
    requires Inv(s) && Settling(s0, s, items, decide, i) && i < |items|
    ensures At(s, i, Working)
    ensures var s' := Sent(s, i, decide(s.senders[i].item)); Inv(s') && Settling(s0, s', items, decide, i + 1)
  {
    var deliver := decide(items[i]);
    SentInv(s, i, deliver);
    SentExactly(s, i, deliver);
    SettlingStep(s0, s, Sent(s, i, deliver), items, decide, i);
  }

  lemma SentInv<T>(s: State<T>, i: nat, deliver: bool)
    requires Inv(s) && s.loop.Draining? && At(s, i, Working)
    ensures var s' := Sent(s, i, deliver);
      && Inv(s') && s'.loop == s.loop && s'.err == s.err
      && s'.senders == s.senders[i := s.senders[i].(phase := Gone)]
  {
    if deliver {
      var ready := Apply(s, Ready(i));
      ReadyInv(s, i);
      SendInv(ready, i);
      DoneInv(Apply(ready, Send(i)), i);
    } else {
      DropInv(s, i);
      DoneInv(Apply(s, Drop(i)), i);
    }
  }

  lemma DoneInv<T>(s: State<T>, i: nat)
    requires Inv(s) && s.loop.Draining? && At(s, i, Finishing)
    ensures var s' := Apply(s, SenderDone(i));
      Inv(s') && s'.loop == s.loop && s'.err == s.err && s'.senders == Moved(s, i, Gone)
  {
    SenderDoneInv(s, i);
  }

  lemma {:induction false} AllGone<T>(senders: seq<Sender<T>>)
    requires forall i :: 0 <= i < |senders| ==> senders[i].phase.Gone?
    ensures Live(senders) == 0
  {
    if senders != [] { AllGone(senders[..|senders| - 1]); }
  }

  /** One sender run to its end. */
  function Sent<T>(s: State<T>, i: nat, deliver: bool): State<T>
    requires At(s, i, Working)
  {
    if !deliver then Apply(Apply(s, Drop(i)), SenderDone(i))
    else
      var s1 := Apply(Apply(s, Ready(i)), Send(i));
      if s.open then Apply(s1, SenderDone(i)) else s1
  }
}
