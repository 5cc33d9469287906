/**
 The redis commands and the two Lua scripts that the broker uses.

 `Space` is the abstract view: a list key holds a queue, oldest item first. The class
 `Redis` is the concrete one: a list holds its newest item first, as LPUSH leaves it, and
 the scripts run command by command. Each method of the class is proved to do on the
 reversed lists what the queue functions say.
 */
module RedisStore {

  datatype Slot<T> = Expiring(deadline: int) | Queue(items: seq<T>)

  type Space<K, T> = map<K, Slot<T>>

  /** A key with an expiry is there up to and including the millisecond of its deadline. */
  predicate Live<K, T>(d: Space<K, T>, ms: int, k: K) {
    k in d && (d[k].Expiring? ==> ms <= d[k].deadline)
  }

  function Items<K, T>(d: Space<K, T>, k: K): seq<T> {
    if k in d && d[k].Queue? then d[k].items else []
  }

  /** PTTL: -2 for a missing key, -1 for a key without an expiry. */
  function Pttl<K, T>(d: Space<K, T>, ms: int, k: K): int {
    if !Live(d, ms, k) then -2
    else if d[k].Queue? then -1
    else d[k].deadline - ms
  }

  /** A queue of at most `limit` items; a full one refuses, and then keeps its oldest `limit` items. */
  function Admit<T>(q: seq<T>, item: T, limit: int): (seq<T>, bool) {
    if 0 < limit <= |q| then (q[..limit], false) else (q + [item], true)
  }

  datatype Reply = Length(n: nat) | InvalidExpire | WrongType | CapacityExceeded

  /** What the registration script does: an expiring key k1, and an item for the queue k2. */
  function Register<K, T>(d: Space<K, T>, ms: int, k1: K, k2: K, px: int, item: T, limit: int): (Space<K, T>, Reply) {
    if px <= 0 then (d, InvalidExpire)
    else
      var d1 := d[k1 := Expiring(ms + px)];
      if Live(d1, ms, k2) && d1[k2].Expiring? then (d1, WrongType)
      else
        var (q, ok) := Admit(Items(d1, k2), item, limit);
        (d1[k2 := Queue(q)], if ok then Length(|q|) else CapacityExceeded)
  }

  datatype Popped<K, T> = Item(key: K, item: T) | Nothing | BadType

  /** BRPOP serves the oldest item of the first key, in argument order, that holds one. */
  function Peek<K, T>(d: Space<K, T>, ms: int, ks: seq<K>): (p: Popped<K, T>)
    ensures p.Item? ==> p.key in ks && Items(d, p.key) != [] && p.item == Items(d, p.key)[0]
  {
    if ks == [] then Nothing
    else if Live(d, ms, ks[0]) && d[ks[0]].Expiring? then BadType
    else if Items(d, ks[0]) != [] then Item(ks[0], Items(d, ks[0])[0])
    else Peek(d, ms, ks[1..])
  }

  /** The key served is the first, in argument order, that holds an item; without one, none does. */
  lemma {:induction false} PeekFirst<K, T>(d: Space<K, T>, ms: int, ks: seq<K>) returns (i: nat)
    ensures var p := Peek(d, ms, ks);
      && (p.Item? ==>
            && i < |ks| && ks[i] == p.key && Items(d, ks[i]) != [] && p.item == Items(d, ks[i])[0]
            && forall j :: 0 <= j < i ==> Items(d, ks[j]) == [])
      && (p.Nothing? ==> forall j :: 0 <= j < |ks| ==> Items(d, ks[j]) == [])
  {
    i := 0;
    if ks != [] && Items(d, ks[0]) == [] {
      i := PeekFirst(d, ms, ks[1..]);
      assert forall j :: 1 <= j < |ks| ==> ks[j] == ks[1..][j - 1];
      i := i + 1;
    }
  }

  function Dequeue<K, T>(d: Space<K, T>, k: K): Space<K, T>
    requires Items(d, k) != []
  {
    if |Items(d, k)| == 1 then d - {k} else d[k := Queue(Items(d, k)[1..])]
  }

  // ------------------------------------------------------- the concrete lists

  datatype Cell<T> = Text(deadline: int) | List(items: seq<T>)

  function Reversed<T>(s: seq<T>): (r: seq<T>)
    ensures |r| == |s|
    ensures forall i :: 0 <= i < |s| ==> r[i] == s[|s| - 1 - i]
  {
    seq(|s|, i requires 0 <= i < |s| => s[|s| - 1 - i])
  }

  function Abstract<T>(c: Cell<T>): Slot<T> {
    match c
    case Text(deadline) => Expiring(deadline)
    case List(items) => Queue(Reversed(items))
  }

  /** LTRIM: inclusive bounds, negative ones counted from the end, both clipped to the list. */
  function Trimmed<T>(s: seq<T>, start: int, stop: int): seq<T> {
    var lo := if start < 0 then start + |s| else start;
    var hi := if stop < 0 then stop + |s| else stop;
    var lo := if lo < 0 then 0 else lo;
    var hi := if hi >= |s| then |s| - 1 else hi;
    if lo > hi then [] else s[lo..hi + 1]
  }

  /** After pushing at the head, the script's LTRIM bounds keep exactly the oldest `limit` items. */
  lemma ScriptTrim<T>(items: seq<T>, item: T, limit: int)
    requires 0 < limit <= |items|
    ensures var pushed := [item] + items;
            var diff := |pushed| - limit;
            && Trimmed(pushed, diff, limit + diff) == items[|items| - limit..]
            && Reversed(Trimmed(pushed, diff, limit + diff)) == Reversed(items)[..limit]
  {
    var pushed := [item] + items;
    var diff := |pushed| - limit;
    assert Trimmed(pushed, diff, limit + diff) == pushed[diff..] == items[|items| - limit..];
  }

  class Redis<K(==), T> {
    var cells: map<K, Cell<T>>
    var ms: int

    ghost function View(): Space<K, T>
      reads this
    {
      map k | k in cells :: Abstract(cells[k])
    }

    constructor ()
      ensures View() == map[] && ms == 0
    {
      cells := map[];
      ms := 0;
    }

    predicate IsText(k: K)
      reads this
      ensures IsText(k) <==> Live(View(), ms, k) && View()[k].Expiring?
    {
      k in cells && cells[k].Text? && ms <= cells[k].deadline
    }

    function ListAt(k: K): (items: seq<T>)
      reads this
      ensures Reversed(items) == Items(View(), k)
    {
      if k in cells && cells[k].List? then cells[k].items else []
    }

    method SetPx(k: K, px: int) returns (ok: bool)
      modifies this`cells
      ensures ok == (px > 0)
      ensures View() == if px > 0 then old(View())[k := Expiring(ms + px)] else old(View())
    {
      ok := px > 0;
      if ok { cells := cells[k := Text(ms + px)]; }
    }

    method Lpush(k: K, item: T) returns (r: Reply)
      modifies this`cells
      ensures old(IsText(k)) ==> r == WrongType && cells == old(cells)
      ensures !old(IsText(k)) ==>
        && r == Length(|old(ListAt(k))| + 1)
        && cells == old(cells)[k := List([item] + old(ListAt(k)))]
    {
      if IsText(k) { return WrongType; }
      cells := cells[k := List([item] + ListAt(k))];
      r := Length(|ListAt(k)|);
    }

    method Ltrim(k: K, start: int, stop: int)
      requires k in cells && cells[k].List?
      modifies this`cells
      ensures var kept := Trimmed(old(ListAt(k)), start, stop);
              cells == if kept == [] then old(cells) - {k} else old(cells)[k := List(kept)]
    {
      var kept := Trimmed(ListAt(k), start, stop);
      cells := if kept == [] then cells - {k} else cells[k := List(kept)];
    }

    /** The LPUSH and LTRIM of the registration script. */
    method PushBounded(k: K, item: T, limit: int) returns (r: Reply)
      requires !IsText(k)
      modifies this`cells
      ensures var (q, ok) := Admit(Items(old(View()), k), item, limit);
              && r == (if ok then Length(|q|) else CapacityExceeded)
              && View() == old(View())[k := Queue(q)]
    {
      ghost var before := ListAt(k);
      r := Lpush(k, item);
      assert Reversed([item] + before) == Reversed(before) + [item];
      if r.n > limit && limit > 0 {
        ScriptTrim(before, item, limit);
        var diff := r.n - limit;
        Ltrim(k, diff, limit + diff);
        r := CapacityExceeded;
      }
    }

    /** The registration script: a bounded FIFO queue, seen through the reversed list. */
    method RegisterScript(k1: K, k2: K, px: int, item: T, limit: int) returns (r: Reply)
      modifies this`cells
      ensures (View(), r) == Register(old(View()), ms, k1, k2, px, item, limit)
    {
      var ok := SetPx(k1, px);
      if !ok { return InvalidExpire; }
      if IsText(k2) {
        r := Lpush(k2, item);
      } else {
        r := PushBounded(k2, item, limit);
      }
    }

    /** The script that reads and deletes the expiring key. */
    method DelAndPttlScript(k: K) returns (pttl: int)
      modifies this`cells
      ensures pttl == Pttl(old(View()), ms, k)
      ensures View() == old(View()) - {k}
    {
      pttl := if k !in cells || (cells[k].Text? && cells[k].deadline < ms) then -2
              else if cells[k].List? then -1
              else cells[k].deadline - ms;
      cells := cells - {k};
    }

    method TakeTail(k: K) returns (item: T)
      requires ListAt(k) != []
      modifies this`cells
      ensures Items(old(View()), k) != [] && item == Items(old(View()), k)[0]
      ensures View() == Dequeue(old(View()), k)
    {
      var items := ListAt(k);
      var last := |items| - 1;
      item := items[last];
      assert Reversed(items)[1..] == Reversed(items[..last]);
      cells := if last == 0 then cells - {k} else cells[k := List(items[..last])];
    }

    /** One BRPOP that does not have to wait. */
    method Brpop(ks: seq<K>) returns (r: Popped<K, T>)
      modifies this`cells
      ensures r == Peek(old(View()), ms, ks)
      ensures View() == if r.Item? then Dequeue(old(View()), r.key) else old(View())
    {
      for i := 0 to |ks|
        invariant cells == old(cells)
        invariant Peek(View(), ms, ks) == Peek(View(), ms, ks[i..])
      {
        assert ks[i..][0] == ks[i] && ks[i..][1..] == ks[i + 1..];
        if IsText(ks[i]) { return BadType; }
        if ListAt(ks[i]) != [] {
          var item := TakeTail(ks[i]);
          return Item(ks[i], item);
        }
      }
      r := Nothing;
    }
  }

  // --------------------------------------------------------------- whole runs

  /** Any use of the store by any number of servers and callees. */
  datatype Op<K, T> =
    | DoRegister(k1: K, k2: K, px: int, item: T, limit: int)
    | DoPop(ks: seq<K>)
    | DoDelPttl(k: K)
    | Evict(k: K)
    | Wait(dt: nat)

  /** The store, and the items each list key has accepted and given out so far, in order. */
  datatype Ledger<K, T> = Ledger(d: Space<K, T>, ms: int, accepted: map<K, seq<T>>, popped: map<K, seq<T>>)

  function At<K, T>(m: map<K, seq<T>>, k: K): seq<T> { if k in m then m[k] else [] }

  function Perform<K, T>(l: Ledger<K, T>, op: Op<K, T>): Ledger<K, T> {
    match op
    case DoRegister(k1, k2, px, item, limit) =>
      var (d, r) := Register(l.d, l.ms, k1, k2, px, item, limit);
      if r.Length? then l.(d := d, accepted := l.accepted[k2 := At(l.accepted, k2) + [item]]) else l.(d := d)
    case DoPop(ks) =>
      var p := Peek(l.d, l.ms, ks);
      if p.Item? then l.(d := Dequeue(l.d, p.key), popped := l.popped[p.key := At(l.popped, p.key) + [p.item]]) else l
    case DoDelPttl(k) => l.(d := l.d - {k})
    case Evict(k) => if Live(l.d, l.ms, k) then l else l.(d := l.d - {k})
    case Wait(dt) => l.(ms := l.ms + dt)
  }

  /** List keys and expiring keys are apart, and each list key has one capacity. */
  predicate Disciplined<K, T>(op: Op<K, T>, isList: K -> bool, cap: K -> int) {
    match op
    case DoRegister(k1, k2, px, item, limit) => !isList(k1) && isList(k2) && limit == cap(k2)
    case DoPop(ks) => forall i :: 0 <= i < |ks| ==> isList(ks[i])
    case DoDelPttl(k) => !isList(k)
    case Evict(k) => true
    case Wait(dt) => true
  }

  ghost predicate InOrder<K(!new), T>(l: Ledger<K, T>, isList: K -> bool, cap: K -> int) {
    && (forall k :: k in l.d ==> (isList(k) <==> l.d[k].Queue?))
    && (forall k :: isList(k) ==> At(l.accepted, k) == At(l.popped, k) + Items(l.d, k))
    && (forall k :: isList(k) && cap(k) > 0 ==> |Items(l.d, k)| <= cap(k))
  }

  lemma RegisterInOrder<K(!new), T>(l: Ledger<K, T>, op: Op<K, T>, isList: K -> bool, cap: K -> int)
    requires op.DoRegister? && InOrder(l, isList, cap) && Disciplined(op, isList, cap)
    ensures InOrder(Perform(l, op), isList, cap)
  {
    var q, out := Items(l.d, op.k2), At(l.popped, op.k2);
    var l' := Perform(l, op);
    assert out + (q + [op.item]) == out + q + [op.item];
    assert 0 < op.limit <= |q| ==> q[..op.limit] == q;
    assert op.px > 0 ==> Items(l'.d, op.k2) == Admit(q, op.item, op.limit).0;
    forall k | isList(k) && k != op.k2 ensures Items(l'.d, k) == Items(l.d, k) {}
  }

  lemma PopInOrder<K(!new), T>(l: Ledger<K, T>, op: Op<K, T>, isList: K -> bool, cap: K -> int)
    requires op.DoPop? && InOrder(l, isList, cap) && Disciplined(op, isList, cap)
    ensures InOrder(Perform(l, op), isList, cap)
  {
    var p := Peek(l.d, l.ms, op.ks);
    if p.Item? {
      var q, out := Items(l.d, p.key), At(l.popped, p.key);
      var l' := Perform(l, op);
      assert out + q == out + [p.item] + q[1..];
      assert Items(l'.d, p.key) == q[1..];
      forall k | k != p.key ensures Items(l'.d, k) == Items(l.d, k) {}
    }
  }

  lemma PerformInOrder<K(!new), T>(l: Ledger<K, T>, op: Op<K, T>, isList: K -> bool, cap: K -> int)
    requires InOrder(l, isList, cap) && Disciplined(op, isList, cap)
    ensures InOrder(Perform(l, op), isList, cap)
  {
    match op
    case DoRegister(_, _, _, _, _) => RegisterInOrder(l, op, isList, cap);
    case DoPop(_) => PopInOrder(l, op, isList, cap);
    case DoDelPttl(k) =>
      forall k' | isList(k') ensures Items(l.d - {k}, k') == Items(l.d, k') {}
    case Evict(k) =>
      forall k' | isList(k') ensures Items(Perform(l, op).d, k') == Items(l.d, k') {}
    case Wait(_) =>
  }

  function PerformAll<K, T>(l: Ledger<K, T>, ops: seq<Op<K, T>>): Ledger<K, T> {
    if ops == [] then l else Perform(PerformAll(l, ops[..|ops| - 1]), ops[|ops| - 1])
  }

  /**
   Bounded FIFO over every run: at each list key the items given out, followed by the
   items still queued, are the items accepted, in the order of acceptance; and a positive
   capacity is never exceeded.
   */
  lemma {:induction false} FifoRuns<K(!new), T>(ops: seq<Op<K, T>>, isList: K -> bool, cap: K -> int)
    requires forall i :: 0 <= i < |ops| ==> Disciplined(ops[i], isList, cap)
    ensures InOrder(PerformAll(Ledger(map[], 0, map[], map[]), ops), isList, cap)
  {
    if ops != [] {
      FifoRuns(ops[..|ops| - 1], isList, cap);
      PerformInOrder(PerformAll(Ledger(map[], 0, map[], map[]), ops[..|ops| - 1]), ops[|ops| - 1], isList, cap);
    }
  }

  /** How many items a list key holds, told by what it accepted and gave out. */
  function Held<K, T>(l: Ledger<K, T>, k: K): int { |At(l.accepted, k)| - |At(l.popped, k)| }

  /** After any run, a registration is accepted if and only if redis takes its expiry and its list has room. */
  lemma RegistersExactly<K(!new), T>(ops: seq<Op<K, T>>, op: Op<K, T>, isList: K -> bool, cap: K -> int)
    requires forall i :: 0 <= i < |ops| ==> Disciplined(ops[i], isList, cap)
    requires op.DoRegister? && Disciplined(op, isList, cap)
    ensures var l := PerformAll(Ledger(map[], 0, map[], map[]), ops);
      var room := cap(op.k2) <= 0 || Held(l, op.k2) < cap(op.k2);
      Perform(l, op).accepted
      == if op.px > 0 && room then l.accepted[op.k2 := At(l.accepted, op.k2) + [op.item]] else l.accepted
  {
    FifoRuns(ops, isList, cap);
    RegistersFrom(PerformAll(Ledger(map[], 0, map[], map[]), ops), op, isList, cap);
  }

  lemma RegistersFrom<K(!new), T>(l: Ledger<K, T>, op: Op<K, T>, isList: K -> bool, cap: K -> int)
    requires InOrder(l, isList, cap) && op.DoRegister? && Disciplined(op, isList, cap)
    ensures var room := cap(op.k2) <= 0 || Held(l, op.k2) < cap(op.k2);
      Perform(l, op).accepted
      == if op.px > 0 && room then l.accepted[op.k2 := At(l.accepted, op.k2) + [op.item]] else l.accepted
  {
    assert At(l.accepted, op.k2) == At(l.popped, op.k2) + Items(l.d, op.k2);
  }

  /**
   After any run, a pop gives out, of the first of its keys that holds anything, the item that
   was accepted first of those not given out yet; and nothing if none of them holds anything.
   */
  lemma PopsExactly<K(!new), T>(ops: seq<Op<K, T>>, ks: seq<K>, isList: K -> bool, cap: K -> int) returns (i: nat)
    requires forall j :: 0 <= j < |ops| ==> Disciplined(ops[j], isList, cap)
    requires forall j :: 0 <= j < |ks| ==> isList(ks[j])
    ensures var l := PerformAll(Ledger(map[], 0, map[], map[]), ops);
      var l' := Perform(l, DoPop(ks));
      && i <= |ks| && (forall j :: 0 <= j < i ==> Held(l, ks[j]) == 0)
      && if i == |ks| then l'.popped == l.popped
         else
           && Held(l, ks[i]) > 0
           && l'.popped == l.popped[ks[i] := At(l.popped, ks[i]) + [At(l.accepted, ks[i])[|At(l.popped, ks[i])|]]]
  {
    FifoRuns(ops, isList, cap);
    i := PopsFrom(PerformAll(Ledger(map[], 0, map[], map[]), ops), ks, isList, cap);
  }

  lemma PopsFrom<K(!new), T>(l: Ledger<K, T>, ks: seq<K>, isList: K -> bool, cap: K -> int) returns (i: nat)
    requires InOrder(l, isList, cap) && forall j :: 0 <= j < |ks| ==> isList(ks[j])
    ensures var l' := Perform(l, DoPop(ks));
      && i <= |ks| && (forall j :: 0 <= j < i ==> Held(l, ks[j]) == 0)
      && if i == |ks| then l'.popped == l.popped
         else
           && Held(l, ks[i]) > 0
           && l'.popped == l.popped[ks[i] := At(l.popped, ks[i]) + [At(l.accepted, ks[i])[|At(l.popped, ks[i])|]]]
  {
    i := PeekFirst(l.d, l.ms, ks);
    NoBadType(l.d, l.ms, ks);
    assert forall j :: 0 <= j < |ks| ==> At(l.accepted, ks[j]) == At(l.popped, ks[j]) + Items(l.d, ks[j]);
    if !Peek(l.d, l.ms, ks).Item? { i := |ks|; }
  }

  lemma {:induction false} NoBadType<K, T>(d: Space<K, T>, ms: int, ks: seq<K>)
    requires forall j :: 0 <= j < |ks| && ks[j] in d ==> d[ks[j]].Queue?
    ensures !Peek(d, ms, ks).BadType?
  {
    if ks != [] { NoBadType(d, ms, ks[1..]); }
  }

  /**
   A refused registration leaves its expiring key behind, and leaves the queue as it was
   exactly when the queue was within the capacity; a longer queue loses its newest items.
   */
  lemma RefusedRegistration<K, T>(d: Space<K, T>, ms: int, k1: K, k2: K, px: int, item: T, limit: int)
    requires k1 != k2 && Register(d, ms, k1, k2, px, item, limit).1 == CapacityExceeded
    ensures var d' := Register(d, ms, k1, k2, px, item, limit).0;
            && Items(d', k2) == Items(d, k2)[..limit]
            && (Items(d', k2) == Items(d, k2) <==> |Items(d, k2)| <= limit)
            && d' - {k2} == (d - {k2})[k1 := Expiring(ms + px)]
  {
    assert |Items(d, k2)| >= limit;
  }
}
