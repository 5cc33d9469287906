/**
 Writing to a websocket connection: the exclusive writer, which takes the one token of a
 lock channel for the time of a message, and the limited writer, which keeps a byte budget.
 */
module Writer {

  type Bytes = seq<bv8>

  /** A piece of a message on the connection, or the end of a message, and the writer that put it there. */
  datatype Chunk = Chunk(owner: nat, bytes: Bytes) | End(owner: nat)

  /**
   A writer: `init` once it has the lock, `ready` if NextWriter then gave it a frame, how often
   it gave the lock back, and whether it ended its message.
   */
  datatype Handle = Handle(init: bool, ready: bool, released: nat, ended: bool)

  function NewHandle(): Handle { Handle(false, false, 0, false) }

  /** Close on this writer ends a message, if the frame writer can flush it. */
  predicate Ending(w: Handle) { w.init && w.ready && w.released == 0 }

  // ------------------------------------------------- any number of writers

  datatype State = State(tokens: nat, writers: map<nat, Handle>, wire: seq<Chunk>)

  datatype Action =
    | New(i: nat)
    | LockTimeout(i: nat)
    | Acquire(i: nat, ready: bool)
    | Put(i: nat, bytes: Bytes)
    | Close(i: nat, flushed: bool)

  function Init(): State { State(1, map[], []) }

  predicate Enabled(s: State, a: Action) {
    match a
    case New(i) => i !in s.writers
    case LockTimeout(i) => i in s.writers && !s.writers[i].init
    case Acquire(i, _) => i in s.writers && !s.writers[i].init && s.tokens > 0
    case Put(i, _) => i in s.writers && s.writers[i].init && s.writers[i].ready && s.writers[i].released == 0
    // the channel has one slot: giving back a token that is already there blocks
    case Close(i, _) => i in s.writers && (s.writers[i].init ==> s.tokens == 0)
  }

  function Apply(s: State, a: Action): State
    requires Enabled(s, a)
  {
    match a
    case New(i) => s.(writers := s.writers[i := NewHandle()])
    case LockTimeout(_) => s
    case Acquire(i, ready) => s.(tokens := s.tokens - 1, writers := s.writers[i := Handle(true, ready, 0, false)])
    case Put(i, bytes) => s.(wire := s.wire + [Chunk(i, bytes)])
    case Close(i, flushed) =>
      var w := s.writers[i];
      var ends := Ending(w) && flushed;
      if !w.init then s
      else s.(tokens := s.tokens + 1,
              writers := s.writers[i := w.(released := w.released + 1, ended := w.ended || ends)],
              wire := s.wire + if ends then [End(i)] else [])
  }

  /** Each writer that took the lock is closed once at most. */
  predicate Once(s: State, a: Action) {
    a.Close? && a.i in s.writers && s.writers[a.i].init ==> s.writers[a.i].released == 0
  }

  predicate Holding(w: Handle) { w.init && w.released == 0 }

  function Holders(s: State): set<nat> { set i | i in s.writers && Holding(s.writers[i]) }

  /** The token is in the channel or with exactly one writer. */
  predicate OneToken(s: State) { s.tokens + |Holders(s)| == 1 }

  lemma CloseHolders(s: State, i: nat, flushed: bool)
    requires Enabled(s, Close(i, flushed)) && s.writers[i].init
    ensures Holders(Apply(s, Close(i, flushed))) == Holders(s) - {i}
  {
  }

  lemma CloseOneToken(s: State, i: nat, flushed: bool)
    requires OneToken(s) && Enabled(s, Close(i, flushed))
    ensures OneToken(Apply(s, Close(i, flushed))) <==> Once(s, Close(i, flushed))
  {
    if s.writers[i].init { CloseHolders(s, i, flushed); }
  }

  /** A step keeps the token in one place exactly if it does not close a writer again. */
  lemma StepOneToken(s: State, a: Action)
    requires OneToken(s) && Enabled(s, a)
    ensures OneToken(Apply(s, a)) <==> Once(s, a)
  {
    match a
    case New(_) => assert Holders(Apply(s, a)) == Holders(s);
    case LockTimeout(_) =>
    case Acquire(i, _) => assert Holders(Apply(s, a)) == Holders(s) + {i};
    case Put(_, _) => assert Holders(Apply(s, a)) == Holders(s);
    case Close(i, flushed) => CloseOneToken(s, i, flushed);
  }

  lemma SoleHolder(s: State, i: nat, j: nat)
    requires OneToken(s) && i in Holders(s) && j in Holders(s)
    ensures i == j
  {
    var rest := Holders(s) - {i};
    assert |rest| == 0;
    assert j !in rest;
  }

  /** The bytes of each writer are together on the wire. */
  ghost predicate Contiguous(wire: seq<Chunk>) {
    forall p, q, r :: 0 <= p < q < r < |wire| && wire[p].owner == wire[r].owner ==> wire[q].owner == wire[p].owner
  }

  ghost predicate Orderly(s: State) {
    && Contiguous(s.wire)
    && (forall p :: 0 <= p < |s.wire| ==> s.wire[p].owner in s.writers && s.writers[s.wire[p].owner].init)
    && (forall h, p, q :: h in Holders(s) && 0 <= p < q < |s.wire| && s.wire[p].owner == h ==> s.wire[q].owner == h)
  }

  /** A piece by the holder of the lock. */
  lemma PieceOrderly(s: State, s': State, i: nat, piece: Chunk)
    requires OneToken(s) && Orderly(s) && i in Holders(s) && piece.owner == i
    requires s'.wire == s.wire + [piece] && Holders(s') <= Holders(s)
    requires forall j :: j in s.writers ==> j in s'.writers && s'.writers[j].init == s.writers[j].init
    ensures Orderly(s')
  {
    var n := |s.wire|;
    forall h | h in Holders(s') ensures h == i { SoleHolder(s, h, i); }
    forall p, q | 0 <= p < q < |s'.wire| && s'.wire[p].owner == i ensures s'.wire[q].owner == i {
      if q < n { assert s.wire[p].owner == i; }
    }
    forall p, q, r | 0 <= p < q < r < |s'.wire| && s'.wire[p].owner == s'.wire[r].owner
      ensures s'.wire[q].owner == s'.wire[p].owner
    {
      if r < n { assert s.wire[p].owner == s.wire[r].owner; }
    }
  }

  lemma StepOrderly(s: State, a: Action)
    requires OneToken(s) && Orderly(s) && Enabled(s, a)
    ensures Orderly(Apply(s, a))
  {
    var s' := Apply(s, a);
    if a.Put? {
      PieceOrderly(s, s', a.i, Chunk(a.i, a.bytes));
    } else if a.Close? && Ending(s.writers[a.i]) && a.flushed {
      PieceOrderly(s, s', a.i, End(a.i));
    } else {
      assert s'.wire == s.wire;
      assert forall h :: h in Holders(s') ==> h in Holders(s) || (a.Acquire? && h == a.i);
    }
  }

  /** A writer's message is ended once at most, by its last piece. */
  ghost predicate Framed(s: State) {
    && (forall p :: 0 <= p < |s.wire| && s.wire[p].End? ==>
          s.wire[p].owner in s.writers && s.writers[s.wire[p].owner].ended)
    && (forall h :: h in s.writers && s.writers[h].ended ==> s.writers[h].released > 0 && End(h) in s.wire)
    && (forall p, q :: 0 <= p < q < |s.wire| && s.wire[p].End? ==> s.wire[q].owner != s.wire[p].owner)
    && (forall h :: h in s.writers && !s.writers[h].init ==> s.writers[h] == NewHandle())
  }

  lemma StepFramed(s: State, a: Action)
    requires Framed(s) && Enabled(s, a)
    ensures Framed(Apply(s, a))
  {
    var s', n := Apply(s, a), |s.wire|;
    assert forall p :: 0 <= p < n ==> s'.wire[p] == s.wire[p];
    forall h | h in s'.writers && s'.writers[h].ended ensures s'.writers[h].released > 0 && End(h) in s'.wire {
      if h in s.writers && s.writers[h].ended { assert End(h) in s.wire; } else { assert s'.wire[n] == End(h); }
    }
  }

  ghost predicate Run(ws: seq<State>, acts: seq<Action>) {
    && |ws| == |acts| + 1
    && ws[0] == Init()
    && forall i :: 0 <= i < |acts| ==> Enabled(ws[i], acts[i]) && ws[i + 1] == Apply(ws[i], acts[i])
  }

  /**
   Mutual exclusion: over any number of writers that are each closed once at most, through
   lock timeouts and failures of NextWriter, the token is always in exactly one place, and
   the bytes of every writer are one contiguous segment of the wire.
   */
  lemma {:induction false} Exclusive(ws: seq<State>, acts: seq<Action>, n: nat)
    requires Run(ws, acts) && n < |ws|
    requires forall i :: 0 <= i < |acts| ==> Once(ws[i], acts[i])
    ensures OneToken(ws[n]) && Orderly(ws[n])
    decreases n
  {
    if n > 0 {
      Exclusive(ws, acts, n - 1);
      StepOneToken(ws[n - 1], acts[n - 1]);
      StepOrderly(ws[n - 1], acts[n - 1]);
    }
  }

  lemma {:induction false} RunFramed(ws: seq<State>, acts: seq<Action>, n: nat)
    requires Run(ws, acts) && n < |ws|
    ensures Framed(ws[n])
    decreases n
  {
    if n > 0 {
      RunFramed(ws, acts, n - 1);
      StepFramed(ws[n - 1], acts[n - 1]);
    }
  }

  /** The writer h was closed with its message open, and the frame writer could flush it. */
  ghost predicate Flushed(ws: seq<State>, acts: seq<Action>, n: nat, h: nat)
    requires n <= |acts| && n <= |ws|
  {
    exists i :: 0 <= i < n && acts[i] == Close(h, true) && h in ws[i].writers && Ending(ws[i].writers[h])
  }

  lemma StepEnded(s: State, a: Action, h: nat)
    requires Framed(s) && Enabled(s, a)
    ensures var s' := Apply(s, a);
      h in s'.writers && s'.writers[h].ended
      <==> h in s.writers && (s.writers[h].ended || (a == Close(h, true) && Ending(s.writers[h])))
  {
  }

  lemma {:induction false} EndedExactly(ws: seq<State>, acts: seq<Action>, n: nat, h: nat)
    requires Run(ws, acts) && n < |ws|
    ensures h in ws[n].writers && ws[n].writers[h].ended <==> Flushed(ws, acts, n, h)
    decreases n
  {
    if n > 0 {
      EndedExactly(ws, acts, n - 1, h);
      RunFramed(ws, acts, n - 1);
      StepEnded(ws[n - 1], acts[n - 1], h);
    }
  }

  /**
   The messages on the wire: wherever one writer's pieces give way to another's, the first
   message is whole, so it ends there, if and only if its Close could flush it.
   */
  lemma WholeMessages(ws: seq<State>, acts: seq<Action>, n: nat, q: nat)
    requires Run(ws, acts) && n < |ws|
    requires forall i :: 0 <= i < |acts| ==> Once(ws[i], acts[i])
    requires q + 1 < |ws[n].wire| && ws[n].wire[q].owner != ws[n].wire[q + 1].owner
    ensures ws[n].wire[q].End? <==> Flushed(ws, acts, n, ws[n].wire[q].owner)
  {
    var s := ws[n];
    var h := s.wire[q].owner;
    Exclusive(ws, acts, n);
    RunFramed(ws, acts, n);
    EndedExactly(ws, acts, n, h);
    if s.writers[h].ended {
      var p :| 0 <= p < |s.wire| && s.wire[p] == End(h);
      assert p <= q + 1 && !(p < q);
    }
  }

  /** The message of h was left without its end. */
  predicate Cut(s: State, h: nat) {
    h in s.writers && s.writers[h].ready && s.writers[h].released > 0 && !s.writers[h].ended
  }

  /** The connection refuses a new frame once one could not be flushed. */
  ghost predicate Refuses(s: State, a: Action) { a.Acquire? && a.ready ==> forall h :: !Cut(s, h) }

  /** Only the last message on the wire can be without its end. */
  ghost predicate Whole(s: State) {
    && (forall q :: 0 <= q < |s.wire| - 1 && s.wire[q].owner != s.wire[q + 1].owner ==> s.wire[q].End?)
    && (forall p :: 0 <= p < |s.wire| ==> s.wire[p].owner in s.writers && s.writers[s.wire[p].owner].ready)
    && HoldersWhole(s)
  }

  ghost predicate HoldersWhole(s: State) {
    forall i, h :: i in Holders(s) && s.writers[i].ready ==> !Cut(s, h)
  }

  /** A piece by the holder of the lock, after a message by another writer or by itself. */
  lemma PieceWhole(s: State, i: nat)
    requires OneToken(s) && Framed(s) && Orderly(s) && Whole(s) && i in Holders(s) && s.writers[i].ready && s.wire != []
    ensures var last := s.wire[|s.wire| - 1]; last.owner == i || last.End?
  {
    var n := |s.wire| - 1;
    var h := s.wire[n].owner;
    if h != i {
      if h in Holders(s) { SoleHolder(s, h, i); }
      assert !Cut(s, h) && s.writers[h].ended;
      var p :| 0 <= p <= n && s.wire[p] == End(h);
      assert !(p < n);
    }
  }

  lemma StepHoldersWhole(s: State, a: Action)
    requires OneToken(s) && HoldersWhole(s) && Enabled(s, a) && Refuses(s, a)
    ensures HoldersWhole(Apply(s, a))
  {
    var s' := Apply(s, a);
    if a.Acquire? {
      assert Holders(s) == {};
      assert forall h :: Cut(s', h) ==> Cut(s, h);
    } else if a.Close? && a.i in Holders(s) {
      assert Holders(s) == {a.i} by {
        forall i | i in Holders(s) ensures i == a.i { SoleHolder(s, i, a.i); }
      }
      CloseHolders(s, a.i, a.flushed);
    } else {
      assert forall i :: i in Holders(s') ==> i in Holders(s) && s'.writers[i] == s.writers[i];
      assert forall h :: Cut(s', h) ==> Cut(s, h);
    }
  }

  lemma StepWhole(s: State, a: Action)
    requires OneToken(s) && Framed(s) && Orderly(s) && Whole(s) && Enabled(s, a) && Refuses(s, a)
    ensures Whole(Apply(s, a))
  {
    var s', n := Apply(s, a), |s.wire|;
    if a.Put? || (a.Close? && Ending(s.writers[a.i]) && a.flushed) {
      if n > 0 { PieceWhole(s, a.i); }
    }
    StepHoldersWhole(s, a);
  }

  /**
   Section 5.4 of RFC 6455: on a connection that refuses a new frame once one could not be
   flushed, every message on the wire is whole but perhaps the last one.
   */
  lemma {:induction false} WholeButLast(ws: seq<State>, acts: seq<Action>, n: nat)
    requires Run(ws, acts) && n < |ws|
    requires forall i :: 0 <= i < |acts| ==> Once(ws[i], acts[i]) && Refuses(ws[i], acts[i])
    ensures Whole(ws[n])
    decreases n
  {
    if n > 0 {
      WholeButLast(ws, acts, n - 1);
      Exclusive(ws, acts, n - 1);
      RunFramed(ws, acts, n - 1);
      StepWhole(ws[n - 1], acts[n - 1]);
    }
  }

  lemma Extended(ws: seq<State>, acts: seq<Action>, a: Action) returns (ws': seq<State>, acts': seq<Action>)
    requires Run(ws, acts) && Enabled(ws[|acts|], a)
    ensures Run(ws', acts') && |acts'| == |acts| + 1 && ws'[|acts'|] == Apply(ws[|acts|], a)
  {
    ws', acts' := ws + [Apply(ws[|acts|], a)], acts + [a];
  }

  /** Closing a writer twice does give out a second token, while another writer holds the first. */
  lemma ClosedTwice() returns (ws: seq<State>, acts: seq<Action>)
    ensures Run(ws, acts) && 1 in Holders(ws[|acts|]) && 2 in Holders(ws[|acts|])
  {
    ws, acts := [Init()], [];
    ws, acts := Extended(ws, acts, New(0));
    ws, acts := Extended(ws, acts, New(1));
    ws, acts := Extended(ws, acts, New(2));
    ws, acts := Extended(ws, acts, Acquire(0, true));
    ws, acts := Extended(ws, acts, Close(0, true));
    ws, acts := Extended(ws, acts, Acquire(1, true));
    ws, acts := Extended(ws, acts, Close(0, true));
    ws, acts := Extended(ws, acts, Acquire(2, true));
  }

  // ------------------------------------------------------------ the byte budget

  const TWO_63: int := 0x8000_0000_0000_0000

  /** Arithmetic on int64 wraps around. */
  function Wrap64(x: int): int { (x + TWO_63) % (2 * TWO_63) - TWO_63 }

  lemma Unwrapped(x: int)
    requires -TWO_63 <= x < TWO_63
    ensures Wrap64(x) == x
  {
  }

  function Total(ps: seq<Bytes>): nat {
    if ps == [] then 0 else Total(ps[..|ps| - 1]) + |ps[|ps| - 1]|
  }

  /** A limited writer: what is left, and the writes it passed on. */
  datatype Budget = Budget(n: int, passed: seq<Bytes>)

  function Spend(b: Budget, p: Bytes): Budget {
    var n := Wrap64(b.n - |p|);
    if n < 0 then b.(n := n) else Budget(n, b.passed + [p])
  }

  function SpendAll(limit: int, ps: seq<Bytes>): Budget {
    if ps == [] then Budget(limit, []) else Spend(SpendAll(limit, ps[..|ps| - 1]), ps[|ps| - 1])
  }

  /** The longest prefix of the writes that fits the limit. */
  function Fitting(limit: int, ps: seq<Bytes>): (k: nat)
    ensures k <= |ps|
  {
    if ps == [] then 0
    else if 0 <= limit && Total(ps) <= limit then |ps|
    else Fitting(limit, ps[..|ps| - 1])
  }

  lemma {:induction false} FittingPrefix(limit: int, ps: seq<Bytes>)
    ensures 0 <= limit ==> Total(ps[..Fitting(limit, ps)]) <= limit
    ensures Fitting(limit, ps) < |ps| ==> limit < 0 || Total(ps) > limit
  {
    if ps == [] {
    } else {
      var rest := ps[..|ps| - 1];
      FittingPrefix(limit, rest);
      assert ps[..|ps|] == ps;
      assert rest[..Fitting(limit, rest)] == ps[..Fitting(limit, rest)];
    }
  }

  /**
   The budget over any sequence of writes: the limited writer passes on exactly the longest
   prefix of the writes whose total is within the limit, and fails all the others, for as
   long as the writes attempted do not wrap an int64 around.
   */
  lemma {:induction false} BudgetPasses(limit: int, ps: seq<Bytes>)
    requires -TWO_63 <= limit < TWO_63 && Total(ps) <= limit + TWO_63
    ensures SpendAll(limit, ps).n == limit - Total(ps)
    ensures SpendAll(limit, ps).passed == ps[..Fitting(limit, ps)]
  {
    if ps != [] {
      var rest := ps[..|ps| - 1];
      BudgetPasses(limit, rest);
      FittingPrefix(limit, rest);
      Unwrapped(limit - Total(ps));
      FittingLast(limit, ps);
    }
  }

  lemma WrapTwice(x: int, y: int)
    ensures Wrap64(Wrap64(x) - y) == Wrap64(x - y)
  {
    var k := (x + TWO_63) / (2 * TWO_63);
    assert x + TWO_63 == k * (2 * TWO_63) + (x + TWO_63) % (2 * TWO_63);
    assert Wrap64(x) - y + TWO_63 == (x - y + TWO_63) - k * (2 * TWO_63);
  }

  /** With no bound: what is left is the difference as an int64, and a write passes exactly if that is not negative. */
  lemma {:induction false} WritePasses(limit: int, ps: seq<Bytes>, p: Bytes)
    requires -TWO_63 <= limit < TWO_63
    ensures SpendAll(limit, ps).n == Wrap64(limit - Total(ps))
    ensures SpendAll(limit, ps + [p]).passed
         == SpendAll(limit, ps).passed + if Wrap64(limit - Total(ps + [p])) >= 0 then [p] else []
  {
    if ps == [] {
      Unwrapped(limit);
    } else {
      var rest, last := ps[..|ps| - 1], ps[|ps| - 1];
      WritePasses(limit, rest, last);
      WrapTwice(limit - Total(rest), |last|);
    }
    assert (ps + [p])[..|ps|] == ps;
    WrapTwice(limit - Total(ps), |p|);
  }

  lemma FittingLast(limit: int, ps: seq<Bytes>)
    requires ps != []
    ensures var rest, p := ps[..|ps| - 1], ps[|ps| - 1];
      ps[..Fitting(limit, ps)] == if limit - Total(ps) >= 0 then rest[..Fitting(limit, rest)] + [p]
                                  else rest[..Fitting(limit, rest)]
  {
    var rest, p := ps[..|ps| - 1], ps[|ps| - 1];
    FittingPrefix(limit, rest);
    assert Total(rest) <= Total(ps);
    var k := Fitting(limit, rest);
    assert rest[..k] == ps[..k];
    assert rest + [p] == ps == ps[..|ps|];
    if limit - Total(ps) >= 0 { assert k == |rest| && rest[..k] == rest; }
  }

  function Repeat(p: Bytes, k: nat): seq<Bytes> { if k == 0 then [] else Repeat(p, k - 1) + [p] }

  lemma {:induction false} TotalRepeat(p: Bytes, k: nat)
    ensures |Repeat(p, k)| == k && Total(Repeat(p, k)) == k * |p|
  {
    if k > 0 {
      TotalRepeat(p, k - 1);
      assert Repeat(p, k)[..k - 1] == Repeat(p, k - 1);
      assert (k - 1) * |p| + |p| == k * |p|;
    }
  }

  lemma WrapsBack(n: int)
    requires n == TWO_63 / 2
    ensures Wrap64(-n) < 0 && Wrap64(-(n + n)) < 0 && Wrap64(-(n + n + n)) >= 0
  {
  }

  lemma TotalAppend(ps: seq<Bytes>, p: Bytes)
    ensures Total(ps + [p]) == Total(ps) + |p|
  {
    assert (ps + [p])[..|ps|] == ps;
  }

  /** Where it wraps: two writes of these bytes fail, as they should, and the third passes. */
  lemma BudgetWraps(p: Bytes) returns (one: seq<Bytes>, two: seq<Bytes>)
    requires |p| == TWO_63 / 2
    ensures one == [p] && two == one + [p]
    ensures SpendAll(0, two).passed == [] && SpendAll(0, two + [p]).passed == [p]
  {
    var none: seq<Bytes> := [];
    one := none + [p];
    two := one + [p];
    WrapsBack(|p|);
    TotalAppend(none, p);
    TotalAppend(one, p);
    TotalAppend(two, p);
    WritePasses(0, none, p);
    WritePasses(0, one, p);
    WritePasses(0, two, p);
  }

  /** Writing the same bytes k times passes every time exactly while k times their length fits. */
  lemma RepeatedWrites(limit: nat, p: Bytes, k: nat)
    requires limit < TWO_63 && k * |p| <= limit + TWO_63
    ensures SpendAll(limit, Repeat(p, k)).passed == Repeat(p, k) <==> k * |p| <= limit
  {
    TotalRepeat(p, k);
    var ps := Repeat(p, k);
    BudgetPasses(limit, ps);
    FittingPrefix(limit, ps);
    assert ps[..|ps|] == ps;
  }

  /** Empty writes never fail, however many. */
  lemma EmptyNeverFails(limit: nat, k: nat)
    requires limit < TWO_63
    ensures SpendAll(limit, Repeat([], k)).passed == Repeat([], k)
  {
    RepeatedWrites(limit, [], k);
  }

  /** The first repetition that is over the limit. */
  lemma FirstOver(limit: nat, size: nat) returns (k: nat)
    requires 0 < size
    ensures limit < k * size <= limit + size
  {
    k := limit / size + 1;
    assert limit == limit / size * size + limit % size;
    assert k * size == limit / size * size + size;
  }

  /** Writing the same bytes again and again fails in the end if and only if there are any; no slice of Go is longer. */
  lemma FailsInTheEnd(limit: nat, p: Bytes)
    requires limit < TWO_63 && |p| <= TWO_63
    ensures (exists k: nat :: SpendAll(limit, Repeat(p, k)).passed != Repeat(p, k)) <==> p != []
  {
    if p == [] {
      forall k: nat ensures SpendAll(limit, Repeat(p, k)).passed == Repeat(p, k) { EmptyNeverFails(limit, k); }
    } else {
      var k := FirstOver(limit, |p|);
      RepeatedWrites(limit, p, k);
      assert SpendAll(limit, Repeat(p, k)).passed != Repeat(p, k);
    }
  }

  // ------------------------------------------------------------------ the code

  /**
   What the select, NextWriter and the frame writer do; `taken` is how many bytes of a write
   get through, and `flushed` whether the frame can be closed.
   */
  datatype Env = Env(timedOut: bool, next: bool, taken: nat, flushed: bool)

  /** NilPanic is no error: a second Write after NextWriter has failed calls a method on nil. */
  datatype Result =
    | Ok
    | LockTimedOut
    | NextFailed
    | Short(n: nat)
    | LimitExceeded
    | NilPanic
    | WriterClosed
    | FlushFailed

  /** The connection and one of its writers. */
  datatype Local = Local(tokens: nat, wire: seq<Chunk>, h: Handle)

  function Taken(p: Bytes, env: Env): Bytes { if env.taken < |p| then p[..env.taken] else p }

  /** Write would wait for ever. */
  predicate Blocks(s: Local, env: Env) { !s.h.init && !env.timedOut && s.tokens == 0 }

  /** Write on a writer, as steps of the lock and of the wire. */
  function WriteSteps(s: Local, id: nat, p: Bytes, env: Env): seq<Action> {
    if !s.h.init then
      if env.timedOut then [LockTimeout(id)]
      else if env.next then [Acquire(id, true), Put(id, Taken(p, env))]
      else [Acquire(id, false)]
    else if s.h.ready && s.h.released == 0 then [Put(id, Taken(p, env))]
    else []
  }

  function WriteResult(s: Local, p: Bytes, env: Env): Result {
    if !s.h.init && env.timedOut then LockTimedOut
    else if !s.h.init && !env.next then NextFailed
    else if s.h.init && !s.h.ready then NilPanic
    else if s.h.init && s.h.released > 0 then WriterClosed
    else if env.taken < |p| then Short(env.taken)
    else Ok
  }

  /** The connection with this writer and no other. */
  function Alone(s: Local, id: nat): State { State(s.tokens, map[id := s.h], s.wire) }

  predicate AllEnabled(s: State, acts: seq<Action>)
    decreases acts
  {
    acts == [] || (Enabled(s, acts[0]) && AllEnabled(Apply(s, acts[0]), acts[1..]))
  }

  function ApplyAll(s: State, acts: seq<Action>): State
    requires AllEnabled(s, acts)
    decreases acts
  {
    if acts == [] then s else ApplyAll(Apply(s, acts[0]), acts[1..])
  }

  lemma OneStep(s: State, a: Action)
    requires Enabled(s, a)
    ensures AllEnabled(s, [a]) && ApplyAll(s, [a]) == Apply(s, a)
  {
    assert [a][1..] == [];
  }

  lemma TwoSteps(s: State, a: Action, b: Action)
    requires Enabled(s, a) && Enabled(Apply(s, a), b)
    ensures AllEnabled(s, [a, b]) && ApplyAll(s, [a, b]) == Apply(Apply(s, a), b)
  {
    assert [a, b][1..] == [b];
    OneStep(Apply(s, a), b);
  }

  /** The first write: it gets the lock unless it timed out, and its bytes on the wire unless NextWriter failed. */
  lemma FirstWrite(s: Local, id: nat, p: Bytes, env: Env)
    requires s.h == NewHandle() && !Blocks(s, env)
    ensures var steps := WriteSteps(s, id, p, env);
      && AllEnabled(Alone(s, id), steps)
      && ApplyAll(Alone(s, id), steps) ==
           if env.timedOut then Alone(s, id)
           else State(s.tokens - 1, map[id := Handle(true, env.next, 0, false)],
                      s.wire + if env.next then [Chunk(id, Taken(p, env))] else [])
  {
    var before := Alone(s, id);
    if env.timedOut {
      OneStep(before, LockTimeout(id));
    } else if env.next {
      TwoSteps(before, Acquire(id, true), Put(id, Taken(p, env)));
    } else {
      OneStep(before, Acquire(id, false));
    }
  }

  class Connection {
    var tokens: nat            // in the lock channel
    var wire: seq<Chunk>

    constructor ()
      ensures tokens == 1 && wire == []
    {
      tokens, wire := 1, [];
    }
  }

  class ExclusiveWriter {
    const id: nat
    const conn: Connection
    var init: bool
    var ready: bool
    var released: nat
    var ended: bool

    ghost function View(): Local
      reads this, conn
    {
      Local(conn.tokens, conn.wire, Handle(init, ready, released, ended))
    }

    constructor (conn: Connection, id: nat)
      ensures this.conn == conn && this.id == id
      ensures View() == Local(conn.tokens, conn.wire, NewHandle())
    {
      this.conn, this.id := conn, id;
      init, ready, released, ended := false, false, 0, false;
    }

    method Write(p: Bytes, env: Env) returns (r: Result)
      requires !Blocks(View(), env)
      modifies this, conn
      ensures r == WriteResult(old(View()), p, env)
      ensures var steps := WriteSteps(old(View()), id, p, env);
        && AllEnabled(Alone(old(View()), id), steps)
        && Alone(View(), id) == ApplyAll(Alone(old(View()), id), steps)
      ensures r == if !old(init) && env.timedOut then LockTimedOut
                   else if !old(init) && !env.next then NextFailed
                   else if old(init) && !old(ready) then NilPanic
                   else if old(init) && old(released) > 0 then WriterClosed
                   else if env.taken < |p| then Short(env.taken)
                   else Ok
      ensures conn.wire == old(conn.wire) + match r
                                            case Ok => [Chunk(id, p)]
                                            case Short(n) => [Chunk(id, p[..n])]
                                            case _ => []
      ensures init == (old(init) || !env.timedOut)
      ensures conn.tokens == old(conn.tokens) - if init && !old(init) then 1 else 0
    {
      ghost var before := Alone(View(), id);
      if !init {
        if env.timedOut {
          OneStep(before, LockTimeout(id));
          return LockTimedOut;
        }
        if env.next {
          TwoSteps(before, Acquire(id, true), Put(id, Taken(p, env)));
        } else {
          OneStep(before, Acquire(id, false));
        }
        conn.tokens := conn.tokens - 1;
        init := true;
        released, ended := 0, false;
        ready := env.next;
        if !env.next { return NextFailed; }
      }
      if !ready { return NilPanic; }
      if released > 0 { return WriterClosed; }
      if old(init) { OneStep(before, Put(id, Taken(p, env))); }
      conn.wire := conn.wire + [Chunk(id, Taken(p, env))];
      r := if env.taken < |p| then Short(env.taken) else Ok;
    }

    /** Ends the message if there is one, and gives the lock back whether or not that fails. */
    method Close(flushed: bool) returns (r: Result)
      requires init ==> conn.tokens == 0
      modifies this, conn
      ensures Alone(View(), id) == Apply(Alone(old(View()), id), Action.Close(id, flushed))
      ensures r == if !old(init) || !old(ready) then Ok
                   else if old(released) > 0 then WriterClosed
                   else if !flushed then FlushFailed
                   else Ok
      ensures conn.wire == old(conn.wire) + if r.Ok? && old(init) && old(ready) then [End(id)] else []
      ensures conn.tokens == old(conn.tokens) + (if old(init) then 1 else 0) && init == old(init)
    {
      r := Ok;
      if !init { return; }
      if ready {
        if released > 0 {
          r := WriterClosed;
        } else if !flushed {
          r := FlushFailed;
        } else {
          conn.wire := conn.wire + [End(id)];
          ended := true;
        }
      }
      conn.tokens := conn.tokens + 1;
      released := released + 1;
    }
  }

  class LimitedWriter {
    const w: ExclusiveWriter
    var n: int

    constructor (w: ExclusiveWriter, limit: int)
      ensures this.w == w && n == limit
    {
      this.w, n := w, limit;
    }

    /** Passes the write on exactly if the budget allows it; otherwise the writer below does not see it. */
    method Write(p: Bytes, env: Env) returns (r: Result)
      requires Spend(Budget(n, []), p).passed != [] ==> !Blocks(w.View(), env)
      modifies this, w, w.conn
      ensures var b := Spend(Budget(old(n), []), p);
        && n == b.n
        && if b.passed == [] then r == LimitExceeded && w.View() == old(w.View())
           else
             && r == WriteResult(old(w.View()), p, env)
             && var steps := WriteSteps(old(w.View()), w.id, p, env);
                AllEnabled(Alone(old(w.View()), w.id), steps)
                && Alone(w.View(), w.id) == ApplyAll(Alone(old(w.View()), w.id), steps)
    {
      n := Wrap64(n - |p|);
      if n < 0 { return LimitExceeded; }
      r := w.Write(p, env);
    }
  }

  /**
   writeMsg: one message, encoded in one write. The lock is free again afterwards; a message
   over a positive limit takes no lock and leaves no byte on the wire; any other message is
   put there in one piece, unless the lock, NextWriter or the frame fails.
   */
  method WriteMsg(conn: Connection, id: nat, msg: Bytes, limit: int, env: Env) returns (r: Result)
    requires conn.tokens == 1 || (conn.tokens == 0 && (env.timedOut || 0 < limit < |msg|))
    requires -TWO_63 <= limit < TWO_63 && |msg| < TWO_63
    modifies conn
    ensures conn.tokens == old(conn.tokens)
    ensures r == if 0 < limit < |msg| then LimitExceeded
                 else if env.timedOut then LockTimedOut
                 else if !env.next then NextFailed
                 else if env.taken < |msg| then Short(env.taken)
                 else Ok
    ensures conn.wire == old(conn.wire) + (match r
                                          case Ok => [Chunk(id, msg)]
                                          case Short(n) => [Chunk(id, msg[..n])]
                                          case _ => [])
                                        + if (r.Ok? || r.Short?) && env.flushed then [End(id)] else []
  {
    var w := new ExclusiveWriter(conn, id);
    if !Blocks(w.View(), env) { FirstWrite(w.View(), id, msg, env); }
    if limit > 0 {
      Unwrapped(limit - |msg|);
      var lw := new LimitedWriter(w, limit);
      r := lw.Write(msg, env);
    } else {
      r := w.Write(msg, env);
    }
    var _ := w.Close(env.flushed);   // its error is lost
  }
}
