/**
 The broker's methods on a redis server. Each is one atomic step of the protocol: given any
 world that holds what this server holds, it leaves the server as the protocol's action
 leaves that world.
 */
module Broker {
  import opened Wrappers
  import opened Keys
  import opened RedisStore
  import opened Timing
  import opened Protocol

  /**
   What a registration of p with this timeout and capacity did: redis refuses a timeout of
   minus a millisecond or less, and nothing happens; otherwise k1 expires when the timeout
   says, and the list k2 takes p at its end if it has room. Other keys stay as they are.
   */
  ghost predicate Registered(
      d: Space<Key, Payload>, d': Space<Key, Payload>, ms: int,
      k1: Key, k2: Key, p: Payload, timeout: int, cap: int, ok: bool) {
    var items := Items(d, k2);
    if timeout <= -MS then !ok && d' == d
    else
      && k1 in d' && d'[k1].Expiring? && Grants(timeout, d'[k1].deadline - ms)
      && (forall k :: k != k1 && k != k2 ==> (k in d' <==> k in d) && (k in d ==> d'[k] == d[k]))
      && ((k2 in d ==> d[k2].Queue?) ==>
            && (ok <==> cap <= 0 || |items| < cap)
            && Items(d', k2) == if ok then items + [p] else items[..cap])
  }

  lemma ScriptRegisters(
      d: Space<Key, Payload>, ms: int, k1: Key, k2: Key, p: Payload, timeout: int, cap: int)
    requires k1 != k2
    ensures var (d', r) := RedisStore.Register(d, ms, k1, k2, ExpiryMillis(timeout), p, cap);
      Registered(d, d', ms, k1, k2, p, timeout, cap, r.Length?)
  {
    ExpiryPositive(timeout);
    ExpiryGranted(timeout);
  }

  class Broker {
    const redis: Redis<Key, Payload>
    const callCap: int
    const resultCap: int

    constructor (redis: Redis<Key, Payload>, callCap: int, resultCap: int)
      ensures this.redis == redis && this.callCap == callCap && this.resultCap == resultCap
    {
      this.redis, this.callCap, this.resultCap := redis, callCap, resultCap;
    }

    /** registerCallOrRes: the timeout in milliseconds, and the script. */
    method Register(p: Payload, timeout: int, cap: int, k1: Key, k2: Key) returns (r: Reply)
      modifies redis`cells
      ensures (redis.View(), r)
           == RedisStore.Register(old(redis.View()), redis.ms, k1, k2, ExpiryMillis(timeout), p, cap)
      ensures k1 != k2 ==>
        Registered(old(redis.View()), redis.View(), redis.ms, k1, k2, p, timeout, cap, r.Length?)
    {
      if k1 != k2 { ScriptRegisters(redis.View(), redis.ms, k1, k2, p, timeout, cap); }
      var to := GoDiv(timeout, MS);
      if to == 0 { to := GoDiv(DEFAULT_CALL_TIMEOUT, MS); }
      r := redis.RegisterScript(k1, k2, to, p, cap);
    }

    method Call(cp: Payload, timeout: int, ghost s: World) returns (ok: bool)
      requires s.db == redis.View() && Millis(s) == redis.ms
      modifies redis`cells
      ensures var s' := ReceiveCall(s, Receive(cp.conn, cp.msg, cp.uri, cp.args, timeout, callCap, false));
        redis.View() == s'.db && ok == s'.calls[cp.msg].accepted
      ensures Registered(old(redis.View()), redis.View(), redis.ms,
                         CallTimeout(cp.uri, cp.msg), CallList(cp.uri), cp, timeout, callCap, ok)
    {
      var r := Register(cp, timeout, callCap, CallTimeout(cp.uri, cp.msg), CallList(cp.uri));
      ok := r.Length?;
    }

    method Result(rp: Payload, timeout: int, ghost s: World, ghost i: nat) returns (ok: bool)
      requires s.db == redis.View() && Millis(s) == redis.ms
      requires Enabled(s, StoreResult(i, rp.args, resultCap, false)) && timeout == s.jobs[i].stage.remain
      requires rp == s.jobs[i].p.(args := rp.args)
      modifies redis`cells
      ensures var s' := RegisterResult(s, StoreResult(i, rp.args, resultCap, false));
        redis.View() == s'.db && (ok <==> |s'.jobs| < |s.jobs|)
      ensures Registered(old(redis.View()), redis.View(), redis.ms,
                         ResTimeout(rp.conn, rp.msg), ResList(rp.conn), rp, timeout, resultCap, ok)
    {
      var r := Register(rp, timeout, resultCap, ResTimeout(rp.conn, rp.msg), ResList(rp.conn));
      ok := r.Length?;
    }

    /** sendCall, once it has decoded the payload: the time to live that it puts in it, or None to drop the call. */
    method SendCall(cp: Payload, ghost s: World, ghost i: nat) returns (ttl: Option<int>)
      requires s.db == redis.View() && Millis(s) == redis.ms
      requires Enabled(s, ReadCallTtl(i, false)) && s.jobs[i].p == cp
      modifies redis`cells
      ensures var s' := CheckCall(s, i, false);
        redis.View() == s'.db && s'.jobs[i].stage == if ttl.Some? then CallReady(ttl.value, s.now) else CallDropped
    {
      var pttl := redis.DelAndPttlScript(CallTimeout(cp.uri, cp.msg));
      ttl := if pttl <= 0 then None else Some(pttl * MS);
    }

    /** sendResult, once it has decoded the payload. */
    method SendResult(rp: Payload, ghost s: World, ghost i: nat) returns (deliver: bool)
      requires s.db == redis.View() && Millis(s) == redis.ms
      requires Enabled(s, ReadResTtl(i, false)) && s.jobs[i].p == rp
      modifies redis`cells
      ensures var s' := CheckResult(s, i, false);
        redis.View() == s'.db && (deliver <==> s'.jobs[i].stage.ResReady?)
    {
      var pttl := redis.DelAndPttlScript(ResTimeout(rp.conn, rp.msg));
      deliver := pttl > 0;
    }

    /** One turn of the poll loop of a callee: a pop, or a BRPOP that finds nothing. */
    method PollCall(uris: seq<string>, ghost s: World) returns (r: Popped<Key, Payload>)
      requires s.db == redis.View() && Millis(s) == redis.ms
      modifies redis`cells
      ensures r.Item? <==> Enabled(s, PopCall(uris))
      ensures r.Item? ==>
        var s' := Apply(s, PopCall(uris));
        redis.View() == s'.db && s'.jobs == s.jobs + [Job(r.item, CallPopped)]
      ensures !r.Item? ==> redis.View() == old(redis.View())
    {
      var keys := [];
      for i := 0 to |uris|
        invariant keys == CallKeys(uris[..i])
        invariant redis.View() == old(redis.View())
      {
        keys := keys + [CallList(uris[i])];
      }
      assert uris[..|uris|] == uris;
      r := redis.Brpop(keys);
    }
  }
}
