/** The Redis lock (shared/redis_client.py): SET NX PX to take it, a compare-and-delete script to
    give it back, and a retry loop with a deadline around the former. */
module Locks {
  import opened Messages

  // One UUID per lock object; the model numbers them.
  type Token = nat

  datatype Lease = Lease(token: Token, expires: int)

  type Key = Option<Lease>

  // What a command sees at a given server time: expired keys are gone. Redis expires a key once
  // the clock has passed its deadline.
  function Live(key: Key, now: int): Key {
    if key.Some? && now <= key.value.expires then key else None
  }

  function SetNx(key: Key, token: Token, ttl: nat, now: int): Key {
    if Live(key, now).None? then Some(Lease(token, now + ttl)) else key
  }

  function Unlock(key: Key, token: Token, now: int): Key {
    if Live(key, now).Some? && key.value.token == token then None else key
  }

  class RedisKey {
    var key: Key

    constructor ()
      ensures key == None
    {
      key := None;
    }

    method SetNxPx(token: Token, ttl: nat, now: int) returns (got: bool)
      modifies this
      ensures key == SetNx(old(key), token, ttl, now)
      ensures got <==> Live(old(key), now).None?
    {
      if key.Some? && key.value.expires < now {
        key := None;
      }
      got := key.None?;
      if got {
        key := Some(Lease(token, now + ttl));
      }
    }

    method CompareAndDelete(token: Token, now: int) returns (deleted: bool)
      modifies this
      ensures Live(key, now) == Live(Unlock(old(key), token, now), now)
      ensures deleted <==> Live(old(key), now).Some? && old(key).value.token == token
    {
      if key.Some? && key.value.expires < now {
        key := None;
      }
      deleted := key.Some? && key.value.token == token;
      if deleted {
        key := None;
      }
    }
  }

  // ---- The acquire loop ----

  function Ceil(x: real): int {
    -((-x).Floor)
  }

  // The time n sleeps take at least.
  ghost function Delays(n: nat, retryDelay: real): real {
    if n == 0 then 0.0 else Delays(n - 1, retryDelay) + retryDelay
  }

  lemma {:induction false} DelaysMultiply(n: nat, retryDelay: real)
    ensures Delays(n, retryDelay) == n as real * retryDelay
  {
    if n > 0 {
      DelaysMultiply(n - 1, retryDelay);
      assert n as real * retryDelay == (n - 1) as real * retryDelay + retryDelay;
    }
  }

  lemma DelaysFit(timeout: real, retryDelay: real, k: nat)
    requires retryDelay > 0.0 && Delays(k, retryDelay) < timeout
    ensures k + 1 <= Ceil(timeout / retryDelay)
  {
    DelaysMultiply(k, retryDelay);
    QuotientExceeds(timeout, retryDelay, k as real);
  }

  lemma QuotientExceeds(x: real, y: real, k: real)
    requires y > 0.0 && k * y < x
    ensures k < x / y
  {
    var q := x / y;
    assert q * y == x;
    assert (q - k) * y == q * y - k * y;
    PositiveFactor(q - k, y);
  }

  lemma PositiveFactor(d: real, y: real)
    requires y > 0.0 && d * y > 0.0
    ensures d > 0.0
  {
  }

  /** The waiting loop of acquire(). clock(k) is the monotonic clock at the k-th loop test, and
      free(k) says whether the k-th SET NX finds the key absent. */
  method Acquire(start: real, timeout: real, retryDelay: real, clock: nat -> real, free: nat -> bool)
    returns (got: bool, attempts: nat)
    requires retryDelay > 0.0
    requires clock(0) >= start
    requires forall k: nat :: clock(k + 1) >= clock(k) + retryDelay
    // it tries as long as the deadline has not passed and stops at the first free key
    ensures forall k: nat :: k < attempts ==> clock(k) < start + timeout
    ensures forall k: nat :: k + 1 < attempts ==> !free(k)
    ensures got ==> attempts > 0 && free(attempts - 1)
    ensures !got ==> clock(attempts) >= start + timeout && forall k: nat :: k < attempts ==> !free(k)
    // and so it never tries more often than the delays fit into the timeout
    ensures timeout > 0.0 ==> attempts <= Ceil(timeout / retryDelay)
    ensures timeout <= 0.0 ==> attempts == 0 && !got
  {
    var deadline := start + timeout;
    got, attempts := false, 0;
    while clock(attempts) < deadline
      invariant forall k: nat :: k < attempts ==> clock(k) < deadline && !free(k)
      invariant clock(attempts) >= start + Delays(attempts, retryDelay)
      invariant timeout > 0.0 ==> attempts <= Ceil(timeout / retryDelay)
      invariant timeout <= 0.0 ==> attempts == 0
      decreases Ceil(timeout / retryDelay) - attempts
    {
      DelaysFit(timeout, retryDelay, attempts);
      attempts := attempts + 1;
      if free(attempts - 1) {
        return true, attempts;
      }
    }
  }
}
