/** The fixed-window rate limiter of the request middleware: a per-ip Redis counter,
    whose expiry is armed by the first increment of a window. */
module RateLimit {
  import opened Wrappers
  import opened Json
  import opened Redis

  const WINDOW_SIZE := 60 * 1000
  const MAX_REQUESTS := 60
  const DEFAULT_IP := "127.0.0.1"
  const TOO_MANY_REQUESTS := "Too many requests"

  /** `NextResponse.next()`, the 429 response, or a Redis error the middleware lets escape. */
  datatype Decision = Next | Rejected(status: int, message: string) | Failed(error: Thrown)

  function ClientIp(ip: Option<string>): string {
    if ip.Some? then ip.value else DEFAULT_IP
  }

  function RateKey(ip: string): string {
    "rate-limit:" + ip
  }

  lemma RateKeyInjective(a: string, b: string)
    ensures RateKey(a) == RateKey(b) ==> a == b
  {
    if RateKey(a) == RateKey(b) {
      assert a == RateKey(a)[11..] && b == RateKey(b)[11..];
    }
  }

  /** One admission check against the counter state `m` at instant `now`. */
  function Step(m: map<string, Entry>, ip: Option<string>, now: int): (map<string, Entry>, Decision) {
    var key := RateKey(ClientIp(ip));
    match IncrValue(m, key, now)
    case None => (m, Failed(NOT_AN_INTEGER))
    case Some(n) =>
      var counted := IncrEntries(m, key, now);
      var armed := if n == 1 then PExpireEntries(counted, key, WINDOW_SIZE, now) else counted;
      (armed, if n > MAX_REQUESTS then Rejected(429, TOO_MANY_REQUESTS) else Next)
  }

  /** `rateLimit(req)`, with `req.ip` as `ip`. */
  method RateLimitRequest(redis: RedisStore, ip: Option<string>, now: int) returns (d: Decision)
    modifies redis
    ensures redis.up == old(redis.up)
    ensures old(redis.up) ==> (redis.entries, d) == Step(old(redis.entries), ip, now)
    ensures !old(redis.up) ==> d == Failed(CONNECTION_ERROR) && redis.entries == old(redis.entries)
  {
    var key := RateKey(ClientIp(ip));
    var requests := redis.Incr(key, now);
    if requests.Err? { return Failed(requests.error); }
    if requests.value == 1 {
      // The connection state is fixed for the call, so PEXPIRE after a successful INCR succeeds.
      var armed := redis.PExpire(key, WINDOW_SIZE, now);
    }
    if requests.value > MAX_REQUESTS {
      return Rejected(429, TOO_MANY_REQUESTS);
    }
    return Next;
  }

  /** A request with no live counter (none yet, or its window expired) counts as 1,
      arms a fresh window from `now`, and is admitted. */
  lemma FreshWindow(m: map<string, Entry>, ip: Option<string>, now: int)
    requires Lookup(m, RateKey(ClientIp(ip)), now).None?
    ensures Step(m, ip, now).1 == Next
    ensures Step(m, ip, now).0 == m[RateKey(ClientIp(ip)) := Entry(JNum(1), Some(now + WINDOW_SIZE))]
  {
  }

  /** Later increments of a window leave its expiry where the first one put it. */
  lemma ExpiryArmedOnlyOnFirst(m: map<string, Entry>, ip: Option<string>, now: int)
    requires IncrValue(m, RateKey(ClientIp(ip)), now).Some?
    requires IncrValue(m, RateKey(ClientIp(ip)), now).value != 1
    ensures Step(m, ip, now).0[RateKey(ClientIp(ip))].expiresAt == m[RateKey(ClientIp(ip))].expiresAt
  {
  }

  /** A check for one ip never touches another ip's counter. */
  lemma IpsAreIndependent(m: map<string, Entry>, ip: Option<string>, other: string, now: int)
    requires other != ClientIp(ip)
    ensures var m' := Step(m, ip, now).0;
            (RateKey(other) in m' <==> RateKey(other) in m) &&
            (RateKey(other) in m ==> m'[RateKey(other)] == m[RateKey(other)])
  {
    RateKeyInjective(other, ClientIp(ip));
  }

  /** The checks at `times`, in order: final state and the decisions. */
  function Run(m: map<string, Entry>, ip: Option<string>, times: seq<int>): (r: (map<string, Entry>, seq<Decision>))
    ensures |r.1| == |times|
    decreases |times|
  {
    if |times| == 0 then (m, [])
    else
      var prev := Run(m, ip, times[..|times| - 1]);
      var next := Step(prev.0, ip, times[|times| - 1]);
      (next.0, prev.1 + [next.1])
  }

  /** Within one window opened at `t0`, the k-th request (from 1) leaves the counter
      at k and is admitted iff k <= 60; rejected requests still count. */
  lemma {:induction false} OneWindow(m: map<string, Entry>, ip: Option<string>, t0: int, times: seq<int>)
    requires Lookup(m, RateKey(ClientIp(ip)), t0).None?
    requires |times| > 0 && times[0] == t0
    requires forall j :: 0 <= j < |times| ==> t0 <= times[j] < t0 + WINDOW_SIZE
    ensures var key := RateKey(ClientIp(ip));
            key in Run(m, ip, times).0 &&
            Run(m, ip, times).0[key] == Entry(JNum(|times|), Some(t0 + WINDOW_SIZE))
    ensures forall j :: 0 <= j < |times| ==>
              (Run(m, ip, times).1[j] == Next <==> j < MAX_REQUESTS)
    ensures forall j :: MAX_REQUESTS <= j < |times| ==>
              Run(m, ip, times).1[j] == Rejected(429, TOO_MANY_REQUESTS)
    decreases |times|
  {
    var key := RateKey(ClientIp(ip));
    var init := times[..|times| - 1];
    if |times| == 1 {
      assert init == [];
      FreshWindow(m, ip, t0);
    } else {
      assert init[0] == t0;
      OneWindow(m, ip, t0, init);
      var prev := Run(m, ip, init);
      var t := times[|times| - 1];
      assert Lookup(prev.0, key, t) == Some(JNum(|init|));
      var next := Step(prev.0, ip, t);
      assert next.0[key] == Entry(JNum(|times|), Some(t0 + WINDOW_SIZE));
      assert Run(m, ip, times).1 == prev.1 + [next.1];
      forall j | 0 <= j < |times|
        ensures (Run(m, ip, times).1[j] == Next <==> j < MAX_REQUESTS)
      {
        if j < |init| { assert Run(m, ip, times).1[j] == prev.1[j]; }
      }
    }
  }
}
