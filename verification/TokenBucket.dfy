/** The token bucket script (shared/redis_client.py), over exact reals: what it grants, for any
    sequence of requests and any clock. */
module TokenBucket {
  import opened Messages

  datatype Limit = Limit(capacity: real, refill: real)

  predicate Valid(limit: Limit) {
    limit.capacity >= 0.0 && limit.refill >= 0.0
  }

  // The stored hash.
  datatype Level = Level(tokens: real, ts: real)

  datatype Request = Request(time: real, amount: real)

  function Min(a: real, b: real): real { if a <= b then a else b }
  function Max(a: real, b: real): real { if a <= b then b else a }

  // The refill between two moments, as the script computes it.
  function Gain(limit: Limit, from: real, to: real): real {
    Max(0.0, to - from) * limit.refill
  }

  // The tokens on hand when a request comes in: full if there is no hash.
  function OnHand(limit: Limit, stored: Option<Level>, now: real): real {
    match stored
    case None => limit.capacity
    case Some(level) => Min(limit.capacity, level.tokens + Gain(limit, level.ts, now))
  }

  function Allowed(limit: Limit, stored: Option<Level>, r: Request): bool {
    OnHand(limit, stored, r.time) >= r.amount
  }

  function Stored(limit: Limit, stored: Option<Level>, r: Request): Level {
    var tokens := OnHand(limit, stored, r.time);
    Level(if tokens >= r.amount then tokens - r.amount else tokens, r.time)
  }

  class Bucket {
    const limit: Limit
    var stored: Option<Level>
    var expires: real        // EXPIRE key 60

    constructor (limit: Limit)
      ensures this.limit == limit && stored == None
    {
      this.limit := limit;
      stored, expires := None, 0.0;
    }

    // The script; serverNow is Redis' own clock, which drives the expiry: a key is gone once the clock
    // has passed its deadline.
    method Allow(now: real, requested: real, serverNow: real) returns (allowed: bool)
      modifies this
      ensures var seen := if serverNow > old(expires) then None else old(stored);
              && allowed == Allowed(limit, seen, Request(now, requested))
              && stored == Some(Stored(limit, seen, Request(now, requested)))
      ensures expires == serverNow + 60.0
    {
      if serverNow > expires {
        stored := None;
      }
      var tokens, ts;
      match stored {
        case None =>
          tokens, ts := limit.capacity, now;
        case Some(level) =>
          tokens, ts := level.tokens, level.ts;
      }
      var delta := if now - ts > 0.0 then now - ts else 0.0;
      assert delta * limit.refill == Gain(limit, ts, now);
      tokens := Min(limit.capacity, tokens + delta * limit.refill);
      allowed := false;
      if tokens >= requested {
        tokens := tokens - requested;
        allowed := true;
      }
      stored := Some(Level(tokens, now));
      expires := serverNow + 60.0;
    }
  }

  // ---- Runs of a bucket that never expires ----

  // The hash after a run of requests, granted or not.
  ghost function Run(limit: Limit, requests: seq<Request>): Option<Level> {
    if requests == [] then None else
      Some(Stored(limit, Run(limit, requests[..|requests| - 1]), requests[|requests| - 1]))
  }

  ghost function Decision(limit: Limit, requests: seq<Request>, k: nat): bool
    requires k < |requests|
  {
    Allowed(limit, Run(limit, requests[..k]), requests[k])
  }

  ghost predicate AllGranted(limit: Limit, requests: seq<Request>) {
    forall k :: 0 <= k < |requests| ==> Decision(limit, requests, k)
  }

  ghost predicate Monotone(requests: seq<Request>) {
    forall i, j :: 0 <= i <= j < |requests| ==> requests[i].time <= requests[j].time
  }

  ghost function Total(requests: seq<Request>, i: nat, j: nat): real
    requires i <= j <= |requests|
  {
    if i == j then 0.0 else Total(requests, i, j - 1) + requests[j - 1].amount
  }

  // What the window from request i to request j leaves of a bucket that was full at i.
  ghost function Slack(limit: Limit, requests: seq<Request>, i: nat, j: nat): real
    requires i <= j < |requests|
  {
    limit.capacity + Gain(limit, requests[i].time, requests[j].time) - Total(requests, i, j + 1)
  }

  lemma GainAdds(limit: Limit, a: real, b: real, c: real)
    requires a <= b <= c
    ensures Gain(limit, a, c) == Gain(limit, a, b) + Gain(limit, b, c)
  {
    assert (c - a) * limit.refill == (b - a) * limit.refill + (c - b) * limit.refill;
  }

  lemma SlackStep(limit: Limit, requests: seq<Request>, i: nat, j: nat)
    requires i < j < |requests| && Monotone(requests)
    ensures Slack(limit, requests, i, j) ==
            Slack(limit, requests, i, j - 1) + Gain(limit, requests[j - 1].time, requests[j].time) - requests[j].amount
  {
    GainAdds(limit, requests[i].time, requests[j - 1].time, requests[j].time);
  }

  lemma SlackOfOne(limit: Limit, requests: seq<Request>, j: nat)
    requires j < |requests|
    ensures Slack(limit, requests, j, j) == limit.capacity - requests[j].amount
  {
    assert Total(requests, j, j + 1) == Total(requests, j, j) + requests[j].amount;
  }

  // The tokens that request j would leave if it were granted.
  ghost function Left(limit: Limit, requests: seq<Request>, j: nat): real
    requires j < |requests|
  {
    OnHand(limit, Run(limit, requests[..j]), requests[j].time) - requests[j].amount
  }

  lemma LeftStep(limit: Limit, requests: seq<Request>, j: nat)
    requires 0 < j < |requests| && Left(limit, requests, j - 1) >= 0.0
    ensures Left(limit, requests, j) ==
            Min(limit.capacity, Left(limit, requests, j - 1) + Gain(limit, requests[j - 1].time, requests[j].time)) - requests[j].amount
  {
    assert requests[..j][..j - 1] == requests[..j - 1];
    assert Run(limit, requests[..j]) == Some(Level(Left(limit, requests, j - 1), requests[j - 1].time));
  }

  /** The stored tokens in closed form: as long as everything was granted, they are the minimum
      slack over all windows that end here. Returns a window that attains it. */
  lemma {:induction false} TokensAreTheLeastSlack(limit: Limit, requests: seq<Request>, j: nat) returns (w: nat)
    requires Monotone(requests) && j < |requests|
    requires forall k :: 0 <= k < j ==> Left(limit, requests, k) >= 0.0
    ensures forall i :: 0 <= i <= j ==> Left(limit, requests, j) <= Slack(limit, requests, i, j)
    ensures w <= j && Left(limit, requests, j) == Slack(limit, requests, w, j)
  {
    SlackOfOne(limit, requests, j);
    w := j;
    if j > 0 {
      var v := TokensAreTheLeastSlack(limit, requests, j - 1);
      LeftStep(limit, requests, j);
      forall i | 0 <= i < j
        ensures Left(limit, requests, j) <= Slack(limit, requests, i, j)
      {
        SlackStep(limit, requests, i, j);
      }
      SlackStep(limit, requests, v, j);
      if Left(limit, requests, j) != limit.capacity - requests[j].amount {
        w := v;
      }
    }
  }

  lemma {:induction false} NoSlackMissingMeansGranted(limit: Limit, requests: seq<Request>, n: nat)
    requires Monotone(requests) && n <= |requests|
    requires forall i, j :: 0 <= i <= j < |requests| ==> Slack(limit, requests, i, j) >= 0.0
    ensures forall k :: 0 <= k < n ==> Left(limit, requests, k) >= 0.0
  {
    if n > 0 {
      NoSlackMissingMeansGranted(limit, requests, n - 1);
      var w := TokensAreTheLeastSlack(limit, requests, n - 1);
    }
  }

  // What may be granted from one moment to another.
  function Room(limit: Limit, from: real, to: real): real {
    limit.capacity + limit.refill * (to - from)
  }

  // The window condition of GrantedIffEveryWindowFits.
  ghost predicate Fits(limit: Limit, requests: seq<Request>, i: nat, j: nat)
    requires i <= j < |requests|
  {
    Total(requests, i, j + 1) <= Room(limit, requests[i].time, requests[j].time)
  }

  lemma FitsIsSlack(limit: Limit, requests: seq<Request>, i: nat, j: nat)
    requires i <= j < |requests| && Monotone(requests)
    ensures Fits(limit, requests, i, j) <==> Slack(limit, requests, i, j) >= 0.0
  {
    var elapsed := requests[j].time - requests[i].time;
    assert elapsed >= 0.0;
    assert Gain(limit, requests[i].time, requests[j].time) == elapsed * limit.refill;
    assert Room(limit, requests[i].time, requests[j].time) == limit.capacity + elapsed * limit.refill;
  }

  /** Conformance, both ways: with a monotone clock a whole sequence of requests is granted if and
      only if no window of it asks for more than capacity + refill * its duration. */
  lemma GrantedIffEveryWindowFits(limit: Limit, requests: seq<Request>)
    requires Monotone(requests)
    ensures AllGranted(limit, requests) <==> forall i, j :: 0 <= i <= j < |requests| ==> Fits(limit, requests, i, j)
  {
    forall i, j | 0 <= i <= j < |requests|
      ensures Fits(limit, requests, i, j) <==> Slack(limit, requests, i, j) >= 0.0
    {
      FitsIsSlack(limit, requests, i, j);
    }
    forall k | 0 <= k < |requests|
      ensures Decision(limit, requests, k) <==> Left(limit, requests, k) >= 0.0
    {
    }
    if AllGranted(limit, requests) {
      forall i, j | 0 <= i <= j < |requests|
        ensures Slack(limit, requests, i, j) >= 0.0
      {
        var w := TokensAreTheLeastSlack(limit, requests, j);
      }
    } else if forall i, j :: 0 <= i <= j < |requests| ==> Slack(limit, requests, i, j) >= 0.0 {
      NoSlackMissingMeansGranted(limit, requests, |requests|);
    }
  }

  // ---- Any clock, with expiry ----

  // One request as Redis sees it: its hash may have expired by then.
  datatype Event = Event(request: Request, expired: bool)

  ghost function RunEvents(limit: Limit, events: seq<Event>): Option<Level> {
    if events == [] then None else
      var last := events[|events| - 1];
      Some(Stored(limit, if last.expired then None else RunEvents(limit, events[..|events| - 1]), last.request))
  }

  ghost function Granted(limit: Limit, events: seq<Event>): real {
    if events == [] then 0.0 else
      var rest, last := events[..|events| - 1], events[|events| - 1];
      var seen := if last.expired then None else RunEvents(limit, rest);
      Granted(limit, rest) + if Allowed(limit, seen, last.request) then last.request.amount else 0.0
  }

  // How far the callers' clocks moved forward, steps back not counted.
  ghost function Forward(events: seq<Event>): real {
    if |events| <= 1 then 0.0 else
      var rest := events[..|events| - 1];
      Forward(rest) + Max(0.0, events[|events| - 1].request.time - rest[|rest| - 1].request.time)
  }

  ghost function Expiries(events: seq<Event>): nat {
    if events == [] then 0 else Expiries(events[..|events| - 1]) + if events[|events| - 1].expired then 1 else 0
  }

  lemma TokensStayInRange(limit: Limit, stored: Option<Level>, r: Request)
    requires Valid(limit) && r.amount >= 0.0
    requires stored.Some? ==> 0.0 <= stored.value.tokens <= limit.capacity
    ensures 0.0 <= Stored(limit, stored, r).tokens <= limit.capacity
  {
    if stored.Some? {
      GainIsNonNegative(limit, stored.value.ts, r.time);
    }
  }

  // The bound of AdmissionIsBounded, linear in each part.
  ghost function Allowance(limit: Limit, events: seq<Event>): real {
    if |events| <= 1 then limit.capacity + (if events != [] && events[0].expired then limit.capacity else 0.0) else
      var rest, last := events[..|events| - 1], events[|events| - 1];
      Allowance(limit, rest)
      + (if last.expired then limit.capacity else 0.0)
      + Gain(limit, rest[|rest| - 1].request.time, last.request.time)
  }

  lemma {:induction false} AllowanceInFull(limit: Limit, events: seq<Event>)
    ensures Allowance(limit, events) == Bound(limit, Expiries(events), Forward(events))
  {
    if |events| > 1 {
      var rest, last := events[..|events| - 1], events[|events| - 1];
      AllowanceInFull(limit, rest);
      var step := Max(0.0, last.request.time - rest[|rest| - 1].request.time);
      BoundGrows(limit, Expiries(rest), if last.expired then 1 else 0, Forward(rest), step);
    } else if |events| == 1 {
      assert Expiries(events[..0]) == 0;
    }
  }

  lemma BoundGrows(limit: Limit, expiries: nat, more: nat, elapsed: real, step: real)
    requires more <= 1
    ensures Bound(limit, expiries + more, elapsed + step) ==
            Bound(limit, expiries, elapsed) + (if more == 1 then limit.capacity else 0.0) + step * limit.refill
  {
    assert (expiries + more) as real == expiries as real + more as real;
    assert limit.refill * (elapsed + step) == limit.refill * elapsed + step * limit.refill;
  }

  lemma {:induction false} GrantedPlusStored(limit: Limit, events: seq<Event>)
    requires Valid(limit) && forall e :: e in events ==> e.request.amount >= 0.0
    ensures var level := RunEvents(limit, events);
            if events == [] then Granted(limit, events) + limit.capacity <= Allowance(limit, events)
            else && 0.0 <= level.value.tokens <= limit.capacity
                 && level.value.ts == events[|events| - 1].request.time
                 && Granted(limit, events) + level.value.tokens <= Allowance(limit, events)
  {
    if events != [] {
      var rest, last := events[..|events| - 1], events[|events| - 1];
      GrantedPlusStored(limit, rest);
      TokensStayInRange(limit, if last.expired then None else RunEvents(limit, rest), last.request);
      if rest != [] {
        GainIsNonNegative(limit, rest[|rest| - 1].request.time, last.request.time);
      }
    }
  }

  lemma GainIsNonNegative(limit: Limit, from: real, to: real)
    requires Valid(limit)
    ensures Gain(limit, from, to) >= 0.0
  {
  }

  // A full bucket, once more for every expiry, and the refill over the given time.
  function Bound(limit: Limit, expiries: nat, elapsed: real): real {
    limit.capacity + expiries as real * limit.capacity + limit.refill * elapsed
  }

  /** Admission bound for arbitrary clocks: whatever the callers' clocks do, backwards included, the
      tokens granted never exceed the capacity, once more for every expiry of the key, plus what
      the forward movement of the clock refills. */
  lemma AdmissionIsBounded(limit: Limit, events: seq<Event>)
    requires Valid(limit) && forall e :: e in events ==> e.request.amount >= 0.0
    ensures Granted(limit, events) <= Bound(limit, Expiries(events), Forward(events))
  {
    GrantedPlusStored(limit, events);
    AllowanceInFull(limit, events);
  }

  lemma {:induction false} ForwardTelescopes(events: seq<Event>)
    requires events != [] && forall e :: e in events ==> !e.expired
    requires forall i, j :: 0 <= i <= j < |events| ==> events[i].request.time <= events[j].request.time
    ensures Expiries(events) == 0
    ensures Forward(events) == events[|events| - 1].request.time - events[0].request.time
  {
    if |events| > 1 {
      ForwardTelescopes(events[..|events| - 1]);
    } else {
      assert Expiries(events[..0]) == 0;
    }
  }

  /** On a monotone clock and without expiry the bound is the usual one: the capacity, and the
      refill over the time that passed. */
  lemma MonotoneAdmission(limit: Limit, events: seq<Event>)
    requires Valid(limit) && events != [] && forall e :: e in events ==> !e.expired && e.request.amount >= 0.0
    requires forall i, j :: 0 <= i <= j < |events| ==> events[i].request.time <= events[j].request.time
    ensures Granted(limit, events) <= Bound(limit, 0, events[|events| - 1].request.time - events[0].request.time)
  {
    AdmissionIsBounded(limit, events);
    ForwardTelescopes(events);
  }

  // ---- The sixty-second expiry ----

  // What request n sees of a bucket whose key expires sixty seconds after the request before it.
  // server[n] is Redis' clock when the request arrives; requests[n].time is the caller's.
  ghost function Seen(limit: Limit, requests: seq<Request>, server: seq<real>, n: nat): Option<Level>
    requires n < |requests| == |server|
  {
    if n == 0 || server[n] > server[n - 1] + 60.0 then None
    else Some(Stored(limit, Seen(limit, requests, server, n - 1), requests[n - 1]))
  }

  ghost function ExpiringDecision(limit: Limit, requests: seq<Request>, server: seq<real>, k: nat): bool
    requires k < |requests| == |server|
  {
    Allowed(limit, Seen(limit, requests, server, k), requests[k])
  }

  // Between two requests Redis' clock advances no more than the callers' do.
  ghost predicate ServerIsNotFast(requests: seq<Request>, server: seq<real>) {
    && |server| == |requests|
    && forall n :: 0 < n < |server| ==> server[n] - server[n - 1] <= requests[n].time - requests[n - 1].time
  }

  lemma FullAfterAMinute(limit: Limit, level: Level, now: real)
    requires Valid(limit) && limit.capacity <= 60.0 * limit.refill && level.tokens >= 0.0 && now >= level.ts + 60.0
    ensures OnHand(limit, Some(level), now) == limit.capacity
  {
    LongGain(limit, level.ts, now);
  }

  lemma {:induction false} ExpiryHidden(limit: Limit, requests: seq<Request>, server: seq<real>, n: nat)
    requires Valid(limit) && limit.capacity <= 60.0 * limit.refill
    requires Monotone(requests) && forall r :: r in requests ==> r.amount >= 0.0
    requires ServerIsNotFast(requests, server) && n < |requests|
    ensures OnHand(limit, Seen(limit, requests, server, n), requests[n].time)
         == OnHand(limit, Run(limit, requests[..n]), requests[n].time)
    ensures n > 0 ==> 0.0 <= Run(limit, requests[..n]).value.tokens
  {
    if n > 0 {
      var m := n - 1;
      ExpiryHidden(limit, requests, server, m);
      assert requests[..n][..m] == requests[..m] && requests[..n][m] == requests[m];
      var level := Stored(limit, Run(limit, requests[..m]), requests[m]);
      assert Run(limit, requests[..n]) == Some(level);
      assert level.tokens >= 0.0 by {
        assert requests[m] in requests;
        OnHandIsNonNegative(limit, Run(limit, requests[..m]), requests[m].time);
      }
      if server[n] > server[m] + 60.0 {
        FullAfterAMinute(limit, level, requests[n].time);
      }
    }
  }

  lemma LongGain(limit: Limit, from: real, to: real)
    requires Valid(limit) && to >= from + 60.0
    ensures Gain(limit, from, to) >= 60.0 * limit.refill
  {
    var spare := to - from - 60.0;
    assert spare * limit.refill >= 0.0;
    assert (to - from) * limit.refill == spare * limit.refill + 60.0 * limit.refill;
  }

  lemma OnHandIsNonNegative(limit: Limit, stored: Option<Level>, now: real)
    requires Valid(limit) && (stored.Some? ==> stored.value.tokens >= 0.0)
    ensures OnHand(limit, stored, now) >= 0.0
  {
    if stored.Some? {
      GainIsNonNegative(limit, stored.value.ts, now);
    }
  }

  ghost predicate ExpiryIsInvisible(limit: Limit) {
    forall requests: seq<Request>, server: seq<real>, k: nat ::
      Monotone(requests) && (forall r :: r in requests ==> r.amount >= 0.0) && ServerIsNotFast(requests, server) && k < |requests| ==>
        ExpiringDecision(limit, requests, server, k) == Decision(limit, requests, k)
  }

  // Drain the bucket and come back a little later: the expired bucket is full again.
  lemma ExpiryShows(limit: Limit, time: real, server: real)
    requires Valid(limit) && time >= 0.0 && Gain(limit, 0.0, time) < limit.capacity && server > 60.0
    ensures var requests := [Request(0.0, limit.capacity), Request(time, limit.capacity)];
            !Decision(limit, requests, 1) && ExpiringDecision(limit, requests, [0.0, server], 1)
  {
    var requests := [Request(0.0, limit.capacity), Request(time, limit.capacity)];
    assert requests[..1] == [requests[0]] && requests[..1][..0] == [];
    assert Run(limit, requests[..1]) == Some(Level(0.0, 0.0));
    assert Seen(limit, requests, [0.0, server], 1) == None;
  }

  // A time just past the expiry at which the bucket is not full yet.
  lemma NotFullYet(limit: Limit) returns (time: real)
    requires Valid(limit) && limit.capacity > 60.0 * limit.refill
    ensures time > 60.0 && Gain(limit, 0.0, time) < limit.capacity
  {
    var r, missing := limit.refill, limit.capacity - 60.0 * limit.refill;
    var e := missing / (r + 1.0);
    assert e * (r + 1.0) == missing;
    assert e > 0.0;
    time := 60.0 + e;
    assert e * (r + 1.0) == e * r + e;
    assert time * r == 60.0 * r + e * r;
  }

  /** The expiry of the key never changes a decision, for any sequence of requests on a monotone clock
      that Redis' own clock does not outrun, if and only if sixty seconds are enough to refill the
      bucket. */
  lemma ExpiryInvisibleIffRefilled(limit: Limit)
    requires Valid(limit)
    ensures ExpiryIsInvisible(limit) <==> limit.capacity <= 60.0 * limit.refill
  {
    if limit.capacity <= 60.0 * limit.refill {
      forall requests: seq<Request>, server: seq<real>, k: nat
        | Monotone(requests) && (forall r :: r in requests ==> r.amount >= 0.0) && ServerIsNotFast(requests, server) && k < |requests|
        ensures ExpiringDecision(limit, requests, server, k) == Decision(limit, requests, k)
      {
        ExpiryHidden(limit, requests, server, k);
      }
    } else {
      var time := NotFullYet(limit);
      ExpiryShows(limit, time, time);
      var requests := [Request(0.0, limit.capacity), Request(time, limit.capacity)];
      assert Monotone(requests) && ServerIsNotFast(requests, [0.0, time]);
    }
  }

  /** The condition on the clocks is needed: if Redis' clock runs ahead by more than a minute, every
      bucket of positive capacity shows its expiry. */
  lemma FastServersShowTheExpiry(limit: Limit) returns (requests: seq<Request>, server: seq<real>)
    requires Valid(limit) && limit.capacity > 0.0
    ensures |requests| == |server| == 2 && Monotone(requests) && forall r :: r in requests ==> r.amount >= 0.0
    ensures ExpiringDecision(limit, requests, server, 1) != Decision(limit, requests, 1)
  {
    requests, server := [Request(0.0, limit.capacity), Request(0.0, limit.capacity)], [0.0, 61.0];
    ExpiryShows(limit, 0.0, 61.0);
  }

  /** A bucket that is not there is full: its first request is turned away only if it asks for more
      than the capacity. */
  lemma FreshBucketsAdmit(limit: Limit, r: Request)
    ensures Decision(limit, [r], 0) <==> r.amount <= limit.capacity
  {
    assert [r][..0] == [];
  }

  // ---- Lazy refill ----

  // A request for nothing, just before another request, leaves the same level behind.
  lemma RefillingTwiceIsRefillingOnce(limit: Limit, stored: Option<Level>, between: real, r: Request)
    requires Valid(limit)
    requires stored.Some? ==> stored.value.ts <= between && 0.0 <= stored.value.tokens
    requires between <= r.time
    ensures Stored(limit, Some(Stored(limit, stored, Request(between, 0.0))), r) == Stored(limit, stored, r)
  {
    OnHandIsNonNegative(limit, stored, between);
    GainIsNonNegative(limit, between, r.time);
    if stored.Some? {
      GainAdds(limit, stored.value.ts, between, r.time);
    }
  }

  lemma {:induction false} LevelsAreNonNegative(limit: Limit, requests: seq<Request>)
    requires Valid(limit) && requests != [] && Monotone(requests)
    requires forall r :: r in requests ==> r.amount >= 0.0
    ensures Run(limit, requests).value.tokens >= 0.0
    ensures Run(limit, requests).value.ts == requests[|requests| - 1].time
  {
    var n := |requests| - 1;
    if n > 0 {
      LevelsAreNonNegative(limit, requests[..n]);
    }
    OnHandIsNonNegative(limit, Run(limit, requests[..n]), requests[n].time);
  }

  lemma MonotoneParts(before: seq<Request>, probe: Request, after: seq<Request>)
    requires after != [] && Monotone(before + [probe] + after)
    ensures Monotone(before)
    ensures before != [] ==> before[|before| - 1].time <= probe.time
    ensures probe.time <= after[0].time
    ensures forall n :: 0 <= n <= |after| ==> Monotone(before + [probe] + after[..n])
  {
    var all := before + [probe] + after;
    assert forall i :: 0 <= i < |before| ==> all[i] == before[i];
    assert all[|before|] == probe && all[|before| + 1] == after[0];
    forall n | 0 <= n <= |after|
      ensures Monotone(before + [probe] + after[..n])
    {
      assert before + [probe] + after[..n] == all[..|before| + 1 + n];
    }
  }

  // The first request after the probe sees as much as it would have seen without it.
  lemma ProbeIsInvisibleToTheNext(limit: Limit, before: seq<Request>, now: real, next: Request)
    requires Valid(limit) && Monotone(before + [Request(now, 0.0)] + [next])
    requires forall r :: r in before ==> r.amount >= 0.0
    ensures OnHand(limit, Run(limit, before + [Request(now, 0.0)]), next.time) == OnHand(limit, Run(limit, before), next.time)
  {
    var probe := Request(now, 0.0);
    MonotoneParts(before, probe, [next]);
    assert (before + [probe])[..|before|] == before;
    if before != [] {
      LevelsAreNonNegative(limit, before);
    }
    RefillingTwiceIsRefillingOnce(limit, Run(limit, before), now, Request(next.time, 0.0));
    OnHandIsNonNegative(limit, Run(limit, before), now);
    OnHandIsNonNegative(limit, Run(limit, before + [probe]), next.time);
    OnHandIsNonNegative(limit, Run(limit, before), next.time);
  }

  // A request for nothing changes no later level.
  lemma {:induction false} ProbeLeavesNoTrace(limit: Limit, before: seq<Request>, now: real, after: seq<Request>)
    requires Valid(limit) && after != [] && Monotone(before + [Request(now, 0.0)] + after)
    requires forall r :: r in before ==> r.amount >= 0.0
    ensures Run(limit, before + [Request(now, 0.0)] + after) == Run(limit, before + after)
  {
    var probed, n := before + [Request(now, 0.0)], |after| - 1;
    MonotoneParts(before, Request(now, 0.0), after);
    RunOfTail(limit, probed, after);
    RunOfTail(limit, before, after);
    if n == 0 {
      assert after == [after[0]] && probed + after[..n] == probed && before + after[..n] == before;
      ProbeIsInvisibleToTheNext(limit, before, now, after[0]);
    } else {
      ProbeLeavesNoTrace(limit, before, now, after[..n]);
    }
  }

  lemma RunOfTail(limit: Limit, head: seq<Request>, tail: seq<Request>)
    requires tail != []
    ensures Run(limit, head + tail) == Some(Stored(limit, Run(limit, head + tail[..|tail| - 1]), tail[|tail| - 1]))
  {
    assert (head + tail)[..|head + tail| - 1] == head + tail[..|tail| - 1];
  }

  lemma ProbeKeepsTheFirstDecision(limit: Limit, before: seq<Request>, now: real, after: seq<Request>)
    requires Valid(limit) && after != [] && Monotone(before + [Request(now, 0.0)] + after)
    requires forall r :: r in before ==> r.amount >= 0.0
    ensures Allowed(limit, Run(limit, before + [Request(now, 0.0)]), after[0]) == Allowed(limit, Run(limit, before), after[0])
  {
    MonotoneParts(before, Request(now, 0.0), after);
    assert after[..1] == [after[0]];
    ProbeIsInvisibleToTheNext(limit, before, now, after[0]);
  }

  lemma ProbeKeepsLaterLevels(limit: Limit, before: seq<Request>, now: real, after: seq<Request>, k: nat)
    requires Valid(limit) && 0 < k < |after| && Monotone(before + [Request(now, 0.0)] + after)
    requires forall r :: r in before ==> r.amount >= 0.0
    ensures Run(limit, before + [Request(now, 0.0)] + after[..k]) == Run(limit, before + after[..k])
  {
    MonotoneParts(before, Request(now, 0.0), after);
    ProbeLeavesNoTrace(limit, before, now, after[..k]);
  }

  lemma DecisionOfTail(limit: Limit, head: seq<Request>, tail: seq<Request>, k: nat)
    requires k < |tail|
    ensures Decision(limit, head + tail, |head| + k) == Allowed(limit, Run(limit, head + tail[..k]), tail[k])
  {
    assert (head + tail)[..|head| + k] == head + tail[..k];
    assert (head + tail)[|head| + k] == tail[k];
  }

  lemma ProbeKeepsDecisions(limit: Limit, before: seq<Request>, now: real, after: seq<Request>, k: nat)
    requires Valid(limit) && k < |after| && Monotone(before + [Request(now, 0.0)] + after)
    requires forall r :: r in before ==> r.amount >= 0.0
    ensures Allowed(limit, Run(limit, before + [Request(now, 0.0)] + after[..k]), after[k])
            == Allowed(limit, Run(limit, before + after[..k]), after[k])
  {
    if k == 0 {
      var probed := before + [Request(now, 0.0)];
      assert probed + after[..0] == probed && before + after[..0] == before;
      ProbeKeepsTheFirstDecision(limit, before, now, after);
    } else {
      ProbeKeepsLaterLevels(limit, before, now, after, k);
    }
  }

  /** Lazy refill is exact: refilling only when a request comes in is the same as refilling at any
      moments in between. A request for nothing, slipped in anywhere on a monotone clock, changes no
      later decision. */
  lemma LazyRefillIsExact(limit: Limit, before: seq<Request>, now: real, after: seq<Request>, k: nat)
    requires Valid(limit) && k < |after| && Monotone(before + [Request(now, 0.0)] + after)
    requires forall r :: r in before ==> r.amount >= 0.0
    ensures Decision(limit, before + [Request(now, 0.0)] + after, |before| + 1 + k) == Decision(limit, before + after, |before| + k)
  {
    ProbeKeepsDecisions(limit, before, now, after, k);
    DecisionOfTail(limit, before + [Request(now, 0.0)], after, k);
    DecisionOfTail(limit, before, after, k);
  }

  // ---- Refusals ----

  // A refused request leaves what a request for nothing leaves.
  lemma RefusedIsAProbe(limit: Limit, stored: Option<Level>, r: Request)
    requires Valid(limit) && (stored.Some? ==> stored.value.tokens >= 0.0) && !Allowed(limit, stored, r)
    ensures Stored(limit, stored, r) == Stored(limit, stored, Request(r.time, 0.0))
  {
    OnHandIsNonNegative(limit, stored, r.time);
  }

  // What comes later depends on the level only.
  lemma {:induction false} SameLevelSameFuture(limit: Limit, a: seq<Request>, b: seq<Request>, after: seq<Request>)
    requires Run(limit, a) == Run(limit, b)
    ensures Run(limit, a + after) == Run(limit, b + after)
  {
    if after == [] {
      assert a + after == a && b + after == b;
    } else {
      SameLevelSameFuture(limit, a, b, after[..|after| - 1]);
      RunOfTail(limit, a, after);
      RunOfTail(limit, b, after);
    }
  }

  lemma RunOfOneMore(limit: Limit, before: seq<Request>, r: Request)
    ensures Run(limit, before + [r]) == Some(Stored(limit, Run(limit, before), r))
  {
    assert (before + [r])[..|before|] == before;
  }

  lemma ReachedLevels(limit: Limit, requests: seq<Request>)
    requires Valid(limit) && Monotone(requests) && forall r :: r in requests ==> r.amount >= 0.0
    ensures Run(limit, requests).Some? ==> Run(limit, requests).value.tokens >= 0.0
  {
    if requests != [] {
      LevelsAreNonNegative(limit, requests);
    }
  }

  lemma RefusedAmongOthersIsAProbe(limit: Limit, before: seq<Request>, r: Request, after: seq<Request>)
    requires Valid(limit) && Monotone(before + [r] + after) && forall x :: x in before ==> x.amount >= 0.0
    requires !Allowed(limit, Run(limit, before), r)
    ensures Run(limit, before + [r] + after) == Run(limit, before + [Request(r.time, 0.0)] + after)
    ensures Monotone(before + [Request(r.time, 0.0)] + after)
  {
    var all, probed := before + [r] + after, before + [Request(r.time, 0.0)] + after;
    assert forall i :: 0 <= i < |all| ==> all[i].time == probed[i].time;
    assert Monotone(before) by {
      assert forall i :: 0 <= i < |before| ==> all[i] == before[i];
    }
    ReachedLevels(limit, before);
    RefusedIsAProbe(limit, Run(limit, before), r);
    RunOfOneMore(limit, before, r);
    RunOfOneMore(limit, before, Request(r.time, 0.0));
    SameLevelSameFuture(limit, before + [r], before + [Request(r.time, 0.0)], after);
  }

  lemma PrefixesAreMonotone(before: seq<Request>, r: Request, after: seq<Request>, k: nat)
    requires Monotone(before + [r] + after) && k <= |after|
    ensures Monotone(before + [r] + after[..k])
  {
    assert before + [r] + after[..k] == (before + [r] + after)[..|before| + 1 + k];
  }

  /** A refused request costs nothing: on a monotone clock it can be left out, and no later level
      changes. */
  lemma RefusalsLeaveNoTrace(limit: Limit, before: seq<Request>, r: Request, after: seq<Request>)
    requires Valid(limit) && after != [] && Monotone(before + [r] + after) && forall x :: x in before ==> x.amount >= 0.0
    requires !Decision(limit, before + [r] + after, |before|)
    ensures Run(limit, before + [r] + after) == Run(limit, before + after)
  {
    DecisionAt(limit, before, r, after);
    RefusedAmongOthersIsAProbe(limit, before, r, after);
    ProbeLeavesNoTrace(limit, before, r.time, after);
  }

  lemma DecisionAt(limit: Limit, before: seq<Request>, r: Request, after: seq<Request>)
    ensures Decision(limit, before + [r] + after, |before|) == Allowed(limit, Run(limit, before), r)
  {
    assert (before + [r] + after)[..|before|] == before && (before + [r] + after)[|before|] == r;
  }

  /** And no later decision changes. */
  lemma RefusalsChangeNoDecision(limit: Limit, before: seq<Request>, r: Request, after: seq<Request>, k: nat)
    requires Valid(limit) && k < |after| && Monotone(before + [r] + after) && forall x :: x in before ==> x.amount >= 0.0
    requires !Decision(limit, before + [r] + after, |before|)
    ensures Decision(limit, before + [r] + after, |before| + 1 + k) == Decision(limit, before + after, |before| + k)
  {
    DecisionAt(limit, before, r, after);
    DecisionOfTail(limit, before + [r], after, k);
    DecisionOfTail(limit, before, after, k);
    PrefixesAreMonotone(before, r, after, k);
    RefusedAmongOthersIsAProbe(limit, before, r, after);
    RefusedAmongOthersIsAProbe(limit, before, r, after[..k]);
    ProbeKeepsDecisions(limit, before, r.time, after, k);
  }

  // ---- Conformance of every run ----

  // What was granted of the requests from i up to j.
  ghost function GrantedIn(limit: Limit, requests: seq<Request>, i: nat, j: nat): real
    requires i <= j <= |requests|
  {
    if i == j then 0.0 else
      GrantedIn(limit, requests, i, j - 1) + if Decision(limit, requests, j - 1) then requests[j - 1].amount else 0.0
  }

  // The requests, each for what it was granted.
  ghost function Settled(limit: Limit, requests: seq<Request>): (s: seq<Request>)
    ensures |s| == |requests|
  {
    if requests == [] then [] else
      var n := |requests| - 1;
      Settled(limit, requests[..n]) + [Request(requests[n].time, if Decision(limit, requests, n) then requests[n].amount else 0.0)]
  }

  lemma {:induction false} SettledParts(limit: Limit, requests: seq<Request>, k: nat)
    requires k <= |requests|
    ensures Settled(limit, requests)[..k] == Settled(limit, requests[..k])
    ensures k < |requests| ==>
              Settled(limit, requests)[k] == Request(requests[k].time, if Decision(limit, requests, k) then requests[k].amount else 0.0)
  {
    var n := |requests| - 1;
    if k == |requests| {
      assert requests[..k] == requests && Settled(limit, requests)[..k] == Settled(limit, requests);
    } else {
      assert requests[..n][..k] == requests[..k];
      SettledParts(limit, requests[..n], k);
      assert Settled(limit, requests)[..k] == Settled(limit, requests[..n])[..k];
      assert k < n ==> Decision(limit, requests[..n], k) == Decision(limit, requests, k);
    }
  }

  // Settling changes no level, and everything in it is granted.
  lemma {:induction false} SettledRuns(limit: Limit, requests: seq<Request>)
    requires Valid(limit) && Monotone(requests) && forall r :: r in requests ==> r.amount >= 0.0
    ensures Run(limit, Settled(limit, requests)) == Run(limit, requests)
  {
    if requests != [] {
      var n := |requests| - 1;
      var rest, r := requests[..n], requests[n];
      SettledRuns(limit, rest);
      ReachedLevels(limit, rest);
      SettledParts(limit, requests, n);
      RunOfOneMore(limit, Settled(limit, rest), Settled(limit, requests)[n]);
      assert requests == rest + [r];
      RunOfOneMore(limit, rest, r);
      if !Decision(limit, requests, n) {
        RefusedIsAProbe(limit, Run(limit, rest), r);
      }
    }
  }

  // The granted history, and then request k as it was asked.
  ghost function Asked(limit: Limit, requests: seq<Request>, k: nat): (s: seq<Request>)
    requires k < |requests|
    ensures |s| == k + 1
  {
    Settled(limit, requests[..k]) + [requests[k]]
  }

  lemma AskedIsMonotone(limit: Limit, requests: seq<Request>, k: nat)
    requires k < |requests| && Monotone(requests)
    ensures Monotone(Asked(limit, requests, k))
    ensures forall j :: 0 <= j <= k ==> Asked(limit, requests, k)[j].time == requests[j].time
  {
    forall j | 0 <= j <= k
      ensures Asked(limit, requests, k)[j].time == requests[j].time
    {
      if j < k {
        SettledParts(limit, requests[..k], j);
      }
    }
  }

  // Every granted amount is left over when its turn comes.
  lemma AskedLeaves(limit: Limit, requests: seq<Request>, k: nat, j: nat)
    requires Valid(limit) && Monotone(requests) && forall r :: r in requests ==> r.amount >= 0.0
    requires j <= k < |requests|
    ensures var asked := Asked(limit, requests, k);
            Left(limit, asked, j) == OnHand(limit, Run(limit, requests[..j]), requests[j].time) - asked[j].amount
    ensures j < k ==> Left(limit, Asked(limit, requests, k), j) >= 0.0
    ensures j == k ==> (Left(limit, Asked(limit, requests, k), j) >= 0.0 <==> Decision(limit, requests, k))
  {
    var asked := Asked(limit, requests, k);
    AskedIsMonotone(limit, requests, k);
    SettledParts(limit, requests[..k], j);
    assert requests[..k][..j] == requests[..j];
    assert asked[..j] == Settled(limit, requests[..j]) by {
      assert asked[..j] == Settled(limit, requests[..k])[..j];
    }
    SettledRuns(limit, requests[..j]);
    ReachedLevels(limit, requests[..j]);
    OnHandIsNonNegative(limit, Run(limit, requests[..j]), requests[j].time);
  }

  lemma {:induction false} AskedTotals(limit: Limit, requests: seq<Request>, k: nat, i: nat, j: nat)
    requires i <= j <= k < |requests|
    ensures Total(Asked(limit, requests, k), i, j) == GrantedIn(limit, requests, i, j)
  {
    if i < j {
      AskedTotals(limit, requests, k, i, j - 1);
      SettledParts(limit, requests[..k], j - 1);
      assert requests[..k][..j - 1] == requests[..j - 1];
    }
  }

  // The window condition of GrantedIffTheWindowsFit.
  ghost predicate WindowFits(limit: Limit, requests: seq<Request>, i: nat, k: nat)
    requires i <= k < |requests|
  {
    GrantedIn(limit, requests, i, k) + requests[k].amount <= Room(limit, requests[i].time, requests[k].time)
  }

  lemma WindowIsSlack(limit: Limit, requests: seq<Request>, i: nat, k: nat)
    requires i <= k < |requests| && Monotone(requests)
    ensures WindowFits(limit, requests, i, k) <==> Slack(limit, Asked(limit, requests, k), i, k) >= 0.0
  {
    var asked := Asked(limit, requests, k);
    AskedIsMonotone(limit, requests, k);
    AskedTotals(limit, requests, k, i, k);
    FitsIsSlack(limit, asked, i, k);
    assert Total(asked, i, k + 1) == Total(asked, i, k) + asked[k].amount;
  }

  /** Conformance of every run, refusals included: with a monotone clock a request is granted if and
      only if, for every window that ends with it, what was granted in the window and what it asks for
      together stay within capacity + refill * the window's duration. */
  lemma GrantedIffTheWindowsFit(limit: Limit, requests: seq<Request>, k: nat)
    requires Valid(limit) && Monotone(requests) && forall r :: r in requests ==> r.amount >= 0.0
    requires k < |requests|
    ensures Decision(limit, requests, k) <==> forall i :: 0 <= i <= k ==> WindowFits(limit, requests, i, k)
  {
    var asked := Asked(limit, requests, k);
    AskedIsMonotone(limit, requests, k);
    forall j | 0 <= j <= k
      ensures j < k ==> Left(limit, asked, j) >= 0.0
    {
      AskedLeaves(limit, requests, k, j);
    }
    AskedLeaves(limit, requests, k, k);
    var w := TokensAreTheLeastSlack(limit, asked, k);
    forall i | 0 <= i <= k
      ensures WindowFits(limit, requests, i, k) <==> Slack(limit, asked, i, k) >= 0.0
    {
      WindowIsSlack(limit, requests, i, k);
    }
  }
}
