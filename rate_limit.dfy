// The gateway's per-client sliding-window rate limiter and its client key
// (internal/gateway/ratelimit.go). Times are integers in nanoseconds supplied by the caller.
module RateLimit {
  import opened Strs
  import opened Wrappers

  const Minute := 60_000_000_000

  /** The timestamps a client keeps: those strictly after the cutoff, in their original order. */
  function Pruned(ts: seq<int>, cutoff: int): (r: seq<int>)
    ensures |r| <= |ts|
    ensures forall k :: 0 <= k < |r| ==> r[k] > cutoff && r[k] in ts
    ensures forall t :: t in ts && t > cutoff ==> t in r
  {
    if ts == [] then [] else (if ts[0] > cutoff then [ts[0]] else []) + Pruned(ts[1..], cutoff)
  }

  lemma {:induction false} PrunedSnoc(ts: seq<int>, t: int, cutoff: int)
    ensures Pruned(ts + [t], cutoff) == Pruned(ts, cutoff) + (if t > cutoff then [t] else [])
    decreases |ts|
  {
    if ts == [] {
      assert [t][1..] == [];
    } else {
      assert (ts + [t])[1..] == ts[1..] + [t];
      PrunedSnoc(ts[1..], t, cutoff);
    }
  }

  /** Pruning twice with the same cutoff is pruning once. */
  lemma {:induction false} PrunedIdempotent(ts: seq<int>, cutoff: int)
    ensures Pruned(Pruned(ts, cutoff), cutoff) == Pruned(ts, cutoff)
    decreases |ts|
  {
    if ts != [] {
      PrunedIdempotent(ts[1..], cutoff);
      var p := Pruned(ts[1..], cutoff);
      if ts[0] > cutoff {
        assert Pruned(ts, cutoff) == [ts[0]] + p;
        assert ([ts[0]] + p)[0] == ts[0];
        assert ([ts[0]] + p)[1..] == p;
        assert Pruned([ts[0]] + p, cutoff) == [ts[0]] + Pruned(p, cutoff);
      } else {
        assert Pruned(ts, cutoff) == [] + p == p;
      }
    }
  }

  /** The window a client has after pruning; a new client starts empty. It holds exactly
      the client's timestamps less than a minute old. */
  function Window(clients: map<string, seq<int>>, key: string, now: int): (r: seq<int>)
    ensures forall t :: t in r <==> key in clients && t in clients[key] && t > now - Minute
  { Pruned(if key in clients then clients[key] else [], now - Minute) }

  /** Every client's window holds at most `n` timestamps. */
  predicate Bounded(m: map<string, seq<int>>, n: int)
  {
    forall k :: k in m ==> |m[k]| <= n
  }

  /** Storing a window within the bound keeps every window within it. */
  lemma BoundedUpdate(m: map<string, seq<int>>, key: string, w: seq<int>, n: int)
    requires Bounded(m, n) && |w| <= n
    ensures Bounded(m[key := w], n)
  {
  }

  class RateLimiter {
    var clients: map<string, seq<int>>
    const maxPerMin: int

    /** No client ever holds more timestamps than the limit. */
    ghost predicate Valid()
      reads this
    {
      maxPerMin > 0 ==> Bounded(clients, maxPerMin)
    }

    /** `NewRateLimiter`: no clients yet; a limit of zero or less disables limiting. */
    constructor(maxPerMinute: int)
      ensures clients == map[] && maxPerMin == maxPerMinute && Valid()
    {
      clients := map[];
      maxPerMin := maxPerMinute;
    }

    /** `Allow`: prune the client's window to the last minute, then admit the request when the
        window has room, recording its time. Other clients' windows are not touched. */
    method Allow(key: string, now: int) returns (allowed: bool)
      requires Valid()
      modifies this
      ensures Valid()
      ensures maxPerMin <= 0 ==> allowed && clients == old(clients)
      ensures maxPerMin > 0 ==>
        (allowed <==> |Window(old(clients), key, now)| < maxPerMin)
        && clients == old(clients)[key := Window(old(clients), key, now) + (if allowed then [now] else [])]
    {
      if maxPerMin <= 0 {
        return true;
      }
      var cutoff := now - Minute;
      var ts := if key in clients then clients[key] else [];
      var valid := PruneWindow(ts, cutoff);
      assert valid == Window(clients, key, now) && |valid| <= |ts|;
      BoundedUpdate(clients, key, valid, maxPerMin);
      clients := clients[key := valid];
      if |valid| >= maxPerMin {
        assert valid + [] == valid;
        return false;
      }
      BoundedUpdate(clients, key, valid + [now], maxPerMin);
      clients := clients[key := valid + [now]];
      return true;
    }
  }

  /** The pruning loop of `Allow`: keep the timestamps strictly after the cutoff. */
  method PruneWindow(ts: seq<int>, cutoff: int) returns (valid: seq<int>)
    ensures valid == Pruned(ts, cutoff)
  {
    valid := [];
    var i := 0;
    while i < |ts|
      invariant 0 <= i <= |ts|
      invariant valid == Pruned(ts[..i], cutoff)
    {
      PrunedSnoc(ts[..i], ts[i], cutoff);
      assert ts[..i + 1] == ts[..i] + [ts[i]];
      if ts[i] > cutoff {
        valid := valid + [ts[i]];
      }
      i := i + 1;
    }
    assert ts[..|ts|] == ts;
  }

  /** `Allow` on a possibly nil limiter: a nil limiter admits everything. */
  method AllowMaybeNil(rl: RateLimiter?, key: string, now: int) returns (allowed: bool)
    requires rl != null ==> rl.Valid()
    modifies rl
    ensures rl == null ==> allowed
    ensures rl != null ==> rl.Valid()
    ensures rl != null && rl.maxPerMin <= 0 ==> allowed && rl.clients == old(rl.clients)
    ensures rl != null && rl.maxPerMin > 0 ==>
      (allowed <==> |Window(old(rl.clients), key, now)| < rl.maxPerMin)
      && rl.clients == old(rl.clients)[key := Window(old(rl.clients), key, now) + (if allowed then [now] else [])]
  {
    if rl == null {
      return true;
    }
    allowed := rl.Allow(key, now);
  }

  // ---------------------------------------------------------------- configuration

  /** `DefaultRateLimiter`'s limit: the variable when it is a positive integer, else 10. */
  function DefaultLimit(env: string): (limit: int)
    ensures limit > 0
    ensures (env != "" && Atoi(env).Some? && Atoi(env).value > 0) ==> limit == Atoi(env).value
    ensures !(env != "" && Atoi(env).Some? && Atoi(env).value > 0) ==> limit == 10
  {
    if env != "" && Atoi(env).Some? && Atoi(env).value > 0 then Atoi(env).value else 10
  }

  // ---------------------------------------------------------------- ClientKey

  /** The request headers `ClientKey` reads (an absent header is ""). */
  datatype Request = Request(authorization: string, forwardedFor: string, remoteAddr: string)

  /** `ClientKey`: the Bearer token (RFC 6750 section 2.1) when present, else the first
      X-Forwarded-For entry, else the remote address. */
  function ClientKey(r: Request): (key: string)
    ensures StartsWith(r.authorization, "Bearer ") ==> key == "token:" + r.authorization[7..]
    ensures !StartsWith(r.authorization, "Bearer ") && r.forwardedFor != "" ==> key == "ip:" + Trim(Split(r.forwardedFor, ',')[0])
    ensures !StartsWith(r.authorization, "Bearer ") && r.forwardedFor == "" ==> key == "ip:" + r.remoteAddr
  {
    if StartsWith(r.authorization, "Bearer ") then "token:" + r.authorization[7..]
    else if r.forwardedFor != "" then "ip:" + Trim(Split(r.forwardedFor, ',')[0])
    else "ip:" + r.remoteAddr
  }

  /** Token keys and address keys never collide, and two Bearer requests share a window exactly
      when their tokens are equal. */
  lemma ClientKeySeparates(a: Request, b: Request)
    requires StartsWith(a.authorization, "Bearer ")
    ensures StartsWith(b.authorization, "Bearer ") ==>
      (ClientKey(a) == ClientKey(b) <==> a.authorization[7..] == b.authorization[7..])
    ensures !StartsWith(b.authorization, "Bearer ") ==> ClientKey(a) != ClientKey(b)
  {
    var ka, kb := ClientKey(a), ClientKey(b);
    assert ka[..6] == "token:";
    if StartsWith(b.authorization, "Bearer ") {
      assert ka[6..] == a.authorization[7..] && kb[6..] == b.authorization[7..];
    } else {
      assert kb[..3] == "ip:";
      assert ka[0] == 't' && kb[0] == 'i';
    }
  }
}
