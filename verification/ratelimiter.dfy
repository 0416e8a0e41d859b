/** The fixed-window rate limiter (server/src/rateLimiter.ts): a table of
    per-key counters shared by the configured limiters, the accept/reject
    decision with its headers, the sweep of expired entries and the default
    request key.  The clock is the `now` parameter (milliseconds); the
    periodic sweep is the explicit `Sweep` operation.  The Retry-After value
    is the delay-seconds form of section 10.2.3 of RFC 9110. */
module RateLimiter {
  import opened Wrappers
  import opened Text

  datatype Entry = Entry(count: nat, resetTime: int)

  type Table = map<string, Entry>

  datatype Config = Config(windowMs: nat, maxRequests: nat)

  /** `{ ...defaultConfig, ...config }` for the two numeric options. */
  function CreateConfig(windowMs: Option<nat>, maxRequests: Option<nat>): (c: Config)
    ensures c.windowMs == windowMs.GetOr(60000)
    ensures c.maxRequests == maxRequests.GetOr(60)
  {
    Config(windowMs.GetOr(DefaultConfig.windowMs), maxRequests.GetOr(DefaultConfig.maxRequests))
  }

  const DefaultConfig := Config(60 * 1000, 60)
  const AiLimiter := CreateConfig(Some(60 * 1000), Some(10))
  const StandardLimiter := CreateConfig(Some(60 * 1000), Some(60))
  const LenientLimiter := CreateConfig(Some(60 * 1000), Some(120))

  /** `Math.ceil(a / b)` for a positive divisor. */
  function CeilDiv(a: int, b: nat): (r: int)
    requires b > 0
    ensures b * (r - 1) < a <= b * r
  {
    -((-a) / b)
  }

  /** The X-RateLimit-* headers. */
  datatype Headers = Headers(limit: nat, remaining: nat, reset: int)

  datatype Decision =
    | Allowed(headers: Headers)
    | Rejected(retryAfter: int, headers: Headers)

  datatype Outcome = Outcome(table: Table, decision: Decision)

  /** The entry the check works on: a missing or expired entry is replaced
      by a fresh one whose window starts now. */
  function Refreshed(table: Table, key: string, now: int, cfg: Config): (e: Entry)
    ensures key !in table || table[key].resetTime <= now ==> e == Entry(0, now + cfg.windowMs)
    ensures key in table && table[key].resetTime > now ==> e == table[key]
  {
    if key !in table || table[key].resetTime <= now then Entry(0, now + cfg.windowMs) else table[key]
  }

  /** One request through a limiter: reject when the refreshed count has
      reached the maximum, otherwise count it. */
  function Check(table: Table, key: string, now: int, cfg: Config): (o: Outcome)
    ensures var e := Refreshed(table, key, now, cfg);
      && (o.decision.Rejected? <==> e.count >= cfg.maxRequests)
      && (o.decision.Rejected? ==> o.table == table[key := e])
      && (o.decision.Rejected? ==> o.decision.retryAfter == CeilDiv(e.resetTime - now, 1000))
      && (o.decision.Allowed? ==> o.table == table[key := Entry(e.count + 1, e.resetTime)])
      && (o.decision.Allowed? ==> o.decision.headers.remaining == cfg.maxRequests - (e.count + 1))
    ensures o.table.Keys == table.Keys + {key}
    ensures forall k :: k in table && k != key ==> o.table[k] == table[k]
  {
    var e := Refreshed(table, key, now, cfg);
    var reset := CeilDiv(e.resetTime, 1000);
    if e.count >= cfg.maxRequests then
      Outcome(table[key := e], Rejected(CeilDiv(e.resetTime - now, 1000), Headers(cfg.maxRequests, 0, reset)))
    else
      var counted := Entry(e.count + 1, e.resetTime);
      var remaining := if cfg.maxRequests - counted.count > 0 then cfg.maxRequests - counted.count else 0;
      Outcome(table[key := counted], Allowed(Headers(cfg.maxRequests, remaining, reset)))
  }

  /** Every counter is at most the maximum. */
  predicate Bounded(table: Table, cfg: Config) {
    forall k :: k in table ==> table[k].count <= cfg.maxRequests
  }

  /** No window reaches further than one window length past `now`. */
  predicate WindowsWithin(table: Table, now: int, cfg: Config) {
    forall k :: k in table ==> table[k].resetTime <= now + cfg.windowMs
  }

  /** A request counts exactly once when accepted, and rejection changes no
      counter; the bound on counters is kept. */
  lemma CheckCounts(table: Table, key: string, now: int, cfg: Config)
    requires Bounded(table, cfg)
    ensures var o := Check(table, key, now, cfg);
      var before := if key in table && table[key].resetTime > now then table[key].count else 0;
      && (o.decision.Allowed? ==> o.table[key].count == before + 1)
      && (o.decision.Rejected? ==> o.table[key].count == before)
      && Bounded(o.table, cfg)
  {
  }

  /** Time only moves forward: the windows stay within one window length of
      the later clock. */
  lemma CheckKeepsWindows(table: Table, key: string, now: int, later: int, cfg: Config)
    requires WindowsWithin(table, now, cfg) && now <= later
    ensures WindowsWithin(Check(table, key, later, cfg).table, later, cfg)
  {
  }

  /** On rejection the client is told to wait at least one second and no
      longer than the window, rounded up to whole seconds. */
  lemma RetryAfterBounds(table: Table, key: string, now: int, cfg: Config)
    requires cfg.windowMs > 0 && WindowsWithin(table, now, cfg)
    requires Check(table, key, now, cfg).decision.Rejected?
    ensures 1 <= Check(table, key, now, cfg).decision.retryAfter <= CeilDiv(cfg.windowMs, 1000)
  {
    var e := Refreshed(table, key, now, cfg);
    assert 0 < e.resetTime - now <= cfg.windowMs;
    CeilDivMonotone(e.resetTime - now, cfg.windowMs, 1000);
  }

  lemma CeilDivMonotone(a: int, b: int, d: nat)
    requires d > 0 && a <= b
    ensures CeilDiv(a, d) <= CeilDiv(b, d)
  {
  }

  /** `n` requests from one key at the same instant: the table afterwards and
      how many were accepted. */
  function Burst(table: Table, key: string, now: int, cfg: Config, n: nat): (r: (Table, nat))
    ensures r.1 <= n
    decreases n
  {
    if n == 0 then (table, 0)
    else
      var previous := Burst(table, key, now, cfg, n - 1);
      var o := Check(previous.0, key, now, cfg);
      (o.table, if o.decision.Allowed? then previous.1 + 1 else previous.1)
  }

  /** Within one window at most `maxRequests` requests of a key get
      through: starting from count `c`, exactly `min(n, maxRequests - c)`
      of `n` requests are accepted, and the counter ends there. */
  lemma {:induction false} BurstAccepts(table: Table, key: string, now: int, cfg: Config, n: nat)
    requires Refreshed(table, key, now, cfg).count <= cfg.maxRequests && cfg.windowMs > 0
    ensures var e := Refreshed(table, key, now, cfg);
      var r := Burst(table, key, now, cfg, n);
      && r.1 == (if n <= cfg.maxRequests - e.count then n else cfg.maxRequests - e.count)
      && (n > 0 ==> key in r.0 && r.0[key] == Entry(e.count + r.1, e.resetTime))
    decreases n
  {
    if n > 0 {
      BurstAccepts(table, key, now, cfg, n - 1);
      BurstStep(table, key, now, cfg, n);
    }
  }

  /** The inductive step of `BurstAccepts`. */
  lemma BurstStep(table: Table, key: string, now: int, cfg: Config, n: nat)
    requires n > 0 && cfg.windowMs > 0
    requires var e := Refreshed(table, key, now, cfg);
      var r := Burst(table, key, now, cfg, n - 1);
      && e.count <= cfg.maxRequests
      && r.1 == (if n - 1 <= cfg.maxRequests - e.count then n - 1 else cfg.maxRequests - e.count)
      && (n > 1 ==> key in r.0 && r.0[key] == Entry(e.count + r.1, e.resetTime))
    ensures var e := Refreshed(table, key, now, cfg);
      var r := Burst(table, key, now, cfg, n);
      && r.1 == (if n <= cfg.maxRequests - e.count then n else cfg.maxRequests - e.count)
      && key in r.0 && r.0[key] == Entry(e.count + r.1, e.resetTime)
  {
    var t, a := Burst(table, key, now, cfg, n - 1).0, Burst(table, key, now, cfg, n - 1).1;
    var e := Refreshed(table, key, now, cfg);
    if n > 1 {
      assert Refreshed(t, key, now, cfg) == Entry(e.count + a, e.resetTime);
    } else {
      assert t == table;
    }
    CheckWithinWindow(t, key, now, cfg);
  }

  /** One more request in a live window: accepted exactly while the count
      is below the maximum. */
  lemma CheckWithinWindow(t: Table, key: string, now: int, cfg: Config)
    ensures var e := Refreshed(t, key, now, cfg);
      var o := Check(t, key, now, cfg);
      && (o.decision.Allowed? <==> e.count < cfg.maxRequests)
      && o.table[key] == Entry(if e.count < cfg.maxRequests then e.count + 1 else e.count, e.resetTime)
  {
  }

  /** A fresh key gets exactly `maxRequests` requests through in one
      window; the next one is rejected and told to wait the whole window,
      in seconds rounded up. */
  lemma FullWindowThenRejected(table: Table, key: string, now: int, cfg: Config)
    requires key !in table && cfg.windowMs > 0
    ensures Burst(table, key, now, cfg, cfg.maxRequests).1 == cfg.maxRequests
    ensures Check(Burst(table, key, now, cfg, cfg.maxRequests).0, key, now, cfg).decision
            == Rejected(CeilDiv(cfg.windowMs, 1000), Headers(cfg.maxRequests, 0, CeilDiv(now + cfg.windowMs, 1000)))
  {
    assert Refreshed(table, key, now, cfg) == Entry(0, now + cfg.windowMs);
    BurstAccepts(table, key, now, cfg, cfg.maxRequests);
    var t := Burst(table, key, now, cfg, cfg.maxRequests).0;
    if cfg.maxRequests == 0 {
      assert Refreshed(t, key, now, cfg) == Entry(0, now + cfg.windowMs);
    } else {
      assert Refreshed(t, key, now, cfg) == Entry(cfg.maxRequests, now + cfg.windowMs);
    }
  }

  /** The three limiters allow 10, 60 and 120 requests per one-minute
      window. */
  lemma LimiterConfigs()
    ensures AiLimiter == Config(60000, 10)
    ensures StandardLimiter == Config(60000, 60)
    ensures LenientLimiter == Config(60000, 120)
  {
  }

  lemma CeilSeconds()
    ensures CeilDiv(60000, 1000) == 60
  {
  }

  /** The AI limiter lets ten requests of a fresh key through in one window
      and rejects the eleventh, telling the client to retry in 60 seconds. */
  lemma EleventhAiRequestRejected(table: Table, key: string, now: int)
    requires key !in table
    ensures Burst(table, key, now, AiLimiter, 10).1 == 10
    ensures Check(Burst(table, key, now, AiLimiter, 10).0, key, now, AiLimiter).decision
            == Rejected(60, Headers(10, 0, CeilDiv(now + 60000, 1000)))
  {
    LimiterConfigs();
    FullWindowThenRejected(table, key, now, AiLimiter);
    CeilSeconds();
  }

  /** The periodic clean-up: drops every entry whose window has ended. */
  function Sweep(table: Table, now: int): (r: Table)
    ensures forall k :: k in r <==> k in table && table[k].resetTime > now
    ensures forall k :: k in r ==> r[k] == table[k]
  {
    map k | k in table && table[k].resetTime > now :: table[k]
  }

  /** Sweeping never changes what a later request is told. */
  lemma SweepInvisible(table: Table, key: string, now: int, later: int, cfg: Config)
    requires now <= later
    ensures Refreshed(Sweep(table, now), key, later, cfg) == Refreshed(table, key, later, cfg)
    ensures Check(Sweep(table, now), key, later, cfg).decision == Check(table, key, later, cfg).decision
  {
  }

  /** `defaultKeyGenerator`: the client is the first item of
      X-Forwarded-For, trimmed, else the request ip, else the socket
      address, else 'unknown' (empty strings count as missing); the key is
      `<client>:<path>`. */
  function DefaultKey(forwardedFor: Option<string>, ip: Option<string>, remoteAddress: Option<string>, path: string): (k: string)
    ensures forwardedFor.Some? && Trim(Split(forwardedFor.value, ',')[0]) != ""
            ==> k == Trim(Split(forwardedFor.value, ',')[0]) + ":" + path
    ensures ClientCandidate(forwardedFor).None? && ip.Some? && ip.value != "" ==> k == ip.value + ":" + path
    ensures (ClientCandidate(forwardedFor).None? && (ip.None? || ip.value == "")
             && remoteAddress.Some? && remoteAddress.value != "") ==> k == remoteAddress.value + ":" + path
    ensures (ClientCandidate(forwardedFor).None? && (ip.None? || ip.value == "")
             && (remoteAddress.None? || remoteAddress.value == "")) ==> k == "unknown:" + path
  {
    FirstNonEmpty([ClientCandidate(forwardedFor), ip, remoteAddress]).GetOr("unknown") + ":" + path
  }

  /** The trimmed first X-Forwarded-For item, when present and non-empty. */
  function ClientCandidate(forwardedFor: Option<string>): (r: Option<string>)
    ensures r.Some? <==> forwardedFor.Some? && Trim(Split(forwardedFor.value, ',')[0]) != ""
  {
    match forwardedFor
    case None => None
    case Some(h) =>
      var first := Trim(Split(h, ',')[0]);
      if first == "" then None else Some(first)
  }

  /** `a || b || c`: the first defined non-empty string. */
  function FirstNonEmpty(candidates: seq<Option<string>>): (r: Option<string>)
    ensures r.Some? ==> r.value != ""
    ensures |candidates| > 0 && candidates[0].Some? && candidates[0].value != "" ==> r == candidates[0]
    ensures |candidates| > 0 && !(candidates[0].Some? && candidates[0].value != "") ==> r == FirstNonEmpty(candidates[1..])
    ensures r.None? <==> forall i :: 0 <= i < |candidates| ==> candidates[i].None? || candidates[i].value == ""
  {
    if |candidates| == 0 then None
    else if candidates[0].Some? && candidates[0].value != "" then candidates[0]
    else
      var rest := FirstNonEmpty(candidates[1..]);
      assert forall i :: 1 <= i < |candidates| ==> candidates[i] == candidates[1..][i - 1];
      rest
  }

  /** Whatever the client part, the key ends with ':' and the path, so two
      routes never share a counter unless their paths are equal. */
  lemma DefaultKeyEndsWithPath(forwardedFor: Option<string>, ip: Option<string>, remoteAddress: Option<string>, path: string)
    ensures var k := DefaultKey(forwardedFor, ip, remoteAddress, path);
      |k| > |path| && k[|k| - |path| - 1..] == ":" + path
  {
    var client := FirstNonEmpty([ClientCandidate(forwardedFor), ip, remoteAddress]).GetOr("unknown");
    assert DefaultKey(forwardedFor, ip, remoteAddress, path) == client + (":" + path);
  }
}
