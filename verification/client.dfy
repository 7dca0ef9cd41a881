/**
 * The XpltAI handle: its connection flag, the first-call readiness loop shared by
 * Chat and Complete, WaitUntilLoaded, and the request/response round of Chat and
 * Complete. HTTP, the clock and the JSON decoder are parameters:
 *   - `probe(url, i)` is the outcome of the i-th HEAD request to `url` (the health endpoint);
 *   - `delay` gives the time, in nanoseconds, spent outside the one-second sleeps;
 *   - `exchange(url, payload)` is the body the server answers a POST with, or the
 *     transport error;
 *   - `decode` is json.Unmarshal.
 */
module Client {
  import opened Wrappers
  import opened Json
  import opened Request
  import opened Response

  /** time.Second and time.Minute in nanoseconds, the unit of time.Duration. */
  const Second: int := 1_000_000_000
  const Minute: int := 60 * Second
  /** The deadline WaitUntilLoaded uses when given a timeout under one millisecond. */
  const DefaultTimeout: int := 99 * Minute

  const ReadinessAttempts: nat := 10
  const ReadinessTimedOut: string := "timed out while waiting for llama.cpp"
  const LoadTimedOut: string := "time out"

  /** The outcome of one HEAD /health request: a transport error or a status code. */
  datatype Probe = Failed(msg: string) | Status(code: int)

  /** The server counts as up when the probe got through and the status is below 500. */
  predicate Ready(p: Probe)
    ensures p.Failed? ==> !Ready(p)
    ensures p.Status? ==> (Ready(p) <==> p.code < 500)
  {
    p.Status? && p.code < 500
  }

  function BaseUrl(port: string): string {
    "http://127.0.0.1:" + port
  }

  function HealthUrl(port: string): string {
    BaseUrl(port) + "/health"
  }

  function ChatUrl(port: string): string {
    BaseUrl(port) + "/v1/chat/completions"
  }

  function CompletionUrl(port: string): string {
    BaseUrl(port) + "/completion"
  }

  /** time.Duration.Milliseconds: the nanosecond count divided by 10^6, truncated toward zero. */
  function Milliseconds(d: int): (ms: int)
    ensures ms <= 0 <==> d < 1_000_000
    ensures d >= 0 ==> ms * 1_000_000 <= d < (ms + 1) * 1_000_000
    ensures d < 0 ==> (ms - 1) * 1_000_000 < d <= ms * 1_000_000
  {
    if d >= 0 then d / 1_000_000 else -((-d) / 1_000_000)
  }

  /** A timeout of at most zero whole milliseconds becomes 99 minutes; any other is kept. */
  function EffectiveTimeout(d: int): (t: int)
    ensures t >= 1_000_000
    ensures d >= 1_000_000 ==> t == d
    ensures d < 1_000_000 ==> t == DefaultTimeout
  {
    if Milliseconds(d) <= 0 then DefaultTimeout else d
  }

  /**
   * The clock reading at the k-th deadline check of WaitUntilLoaded: `delay(0)` after
   * the deadline was computed, then for each probe its own duration plus the one-second sleep.
   */
  function Now(start: int, delay: nat -> nat, k: nat): (t: int)
    ensures t >= start + k * Second
  {
    if k == 0 then start + delay(0) else Now(start, delay, k - 1) + delay(k) + Second
  }

  /** Total seconds slept before probe n of the readiness loop: 0 + 1 + ... + (n - 1). */
  function SleepBefore(n: nat): nat {
    if n == 0 then 0 else SleepBefore(n - 1) + (n - 1)
  }

  lemma {:induction false} SleepBeforeClosedForm(n: nat)
    ensures 2 * SleepBefore(n) == n * (n - 1)
  {
    if n > 0 {
      SleepBeforeClosedForm(n - 1);
      assert n * (n - 1) == (n - 1) * (n - 2) + 2 * (n - 1);
    }
  }

  /** The whole readiness loop sleeps at most 45 seconds. */
  lemma SleepBeforeBound(n: nat)
    requires n <= ReadinessAttempts
    ensures SleepBefore(n) <= 45
  {
    SleepBeforeClosedForm(n);
    assert n * (n - 1) <= 10 * 9 by {
      assert n * (n - 1) <= n * 9;
      assert n * 9 <= 10 * 9;
    }
  }

  /** None of the ten readiness probes to `url` got through with a status below 500. */
  predicate NoneReady(probe: (string, nat) -> Probe, url: string) {
    forall i :: 0 <= i < ReadinessAttempts ==> !Ready(probe(url, i))
  }

  /** The first `n` probes to `url` were all unready except possibly the last one. */
  predicate UnreadyBefore(probe: (string, nat) -> Probe, url: string, n: nat) {
    forall j :: 0 <= j < n - 1 ==> !Ready(probe(url, j))
  }

  class XpltAI {
    const port: string
    /** Set once a reply has been extracted successfully; never reset. */
    var isConn: bool

    /** The handle New returns: not yet connected. */
    constructor (port: string)
      ensures this.port == port && !isConn
    {
      this.port := port;
      isConn := false;
    }

    /**
     * The readiness loop Chat and Complete run while not connected: probe i is
     * preceded by a sleep of i seconds, the loop stops at the first ready probe
     * and gives up after ten.
     */
    method AwaitServer(probe: (string, nat) -> Probe) returns (ready: bool, probes: nat, slept: nat)
      ensures ready <==> !NoneReady(probe, HealthUrl(port))
      ensures 1 <= probes <= ReadinessAttempts
      ensures UnreadyBefore(probe, HealthUrl(port), probes)
      ensures ready ==> Ready(probe(HealthUrl(port), probes - 1))
      ensures !ready ==> probes == ReadinessAttempts && !Ready(probe(HealthUrl(port), probes - 1)) && slept == 45
      ensures slept == SleepBefore(probes) && slept <= 45
    {
      ready, probes, slept := false, 0, 0;
      while probes < ReadinessAttempts && !ready
        invariant probes <= ReadinessAttempts
        invariant ready ==> 1 <= probes && Ready(probe(HealthUrl(port), probes - 1))
        invariant forall j :: 0 <= j < (if ready then probes - 1 else probes) ==> !Ready(probe(HealthUrl(port), j))
        invariant slept == SleepBefore(probes)
      {
        slept := slept + probes;
        ready := Ready(probe(HealthUrl(port), probes));
        probes := probes + 1;
      }
      SleepBeforeBound(probes);
      SleepBeforeClosedForm(probes);
    }

    /**
     * The guard Chat and Complete open with: no probe at all once connected,
     * otherwise the readiness loop.
     */
    method Connect(probe: (string, nat) -> Probe) returns (ready: bool, probes: nat, slept: nat)
      ensures isConn ==> ready && probes == 0
      ensures !isConn ==> 1 <= probes <= ReadinessAttempts && UnreadyBefore(probe, HealthUrl(port), probes)
      ensures !isConn && ready ==> Ready(probe(HealthUrl(port), probes - 1))
      ensures !ready <==> !isConn && NoneReady(probe, HealthUrl(port))
      ensures !ready ==> probes == ReadinessAttempts && slept == 45
      ensures slept == SleepBefore(probes) && slept <= 45
    {
      ready, probes, slept := true, 0, 0;
      if !isConn {
        ready, probes, slept := AwaitServer(probe);
      }
    }

    /**
     * Polls /health until a probe is ready or the deadline start + timeout passes.
     * Every probe is made before the deadline, and probes are at least a second apart,
     * so there are at most timeout/1s + 1 of them.
     */
    method WaitUntilLoaded(timeout: int, start: int, delay: nat -> nat, probe: (string, nat) -> Probe)
      returns (r: Result<()>, probes: nat)
      ensures forall j :: 0 <= j < probes ==> Now(start, delay, j) < start + EffectiveTimeout(timeout)
      ensures forall j :: 0 <= j < probes - 1 ==> !Ready(probe(HealthUrl(port), j))
      ensures r.Ok? ==> 1 <= probes && Ready(probe(HealthUrl(port), probes - 1))
      ensures r.Err? ==> r.msg == LoadTimedOut && Now(start, delay, probes) >= start + EffectiveTimeout(timeout)
                         && (probes == 0 || !Ready(probe(HealthUrl(port), probes - 1)))
      ensures probes == 0 || (probes - 1) * Second < EffectiveTimeout(timeout)
      ensures delay(0) < EffectiveTimeout(timeout) ==> probes >= 1
      ensures timeout < 1_000_000 ==> probes <= 99 * 60
    {
      var deadline := start + EffectiveTimeout(timeout);
      var now := start + delay(0);
      probes := 0;
      while now < deadline
        invariant now == Now(start, delay, probes)
        invariant forall j :: 0 <= j < probes ==> Now(start, delay, j) < deadline
        invariant forall j :: 0 <= j < probes ==> !Ready(probe(HealthUrl(port), j))
        decreases deadline - now
      {
        var p := probe(HealthUrl(port), probes);
        probes := probes + 1;
        if Ready(p) {
          return Ok(()), probes;
        }
        now := now + delay(probes) + Second;
      }
      r := Err(LoadTimedOut);
    }

    /**
     * Chat: while not connected, runs the readiness loop and gives up without
     * sending anything if it fails; the request goes out only after a ready probe
     * (or with no probe once connected). It posts the chat payload and extracts
     * the reply. The connection flag is set exactly when extraction succeeds.
     */
    method Chat(messages: seq<Message>, maxTokens: int, probe: (string, nat) -> Probe,
                exchange: (string, Json) -> Result<string>, decode: Decoder)
      returns (r: Result<string>, sent: Option<Json>, probes: nat, slept: nat)
      modifies this`isConn
      ensures old(isConn) ==> probes == 0
      ensures slept == SleepBefore(probes) && slept <= 45
      ensures !old(isConn) ==> 1 <= probes <= ReadinessAttempts && UnreadyBefore(probe, HealthUrl(port), probes)
      ensures sent.Some? && !old(isConn) ==> Ready(probe(HealthUrl(port), probes - 1))
      ensures sent.None? <==> !old(isConn) && NoneReady(probe, HealthUrl(port))
      ensures sent.None? ==> r == Err(ReadinessTimedOut) && probes == ReadinessAttempts && slept == 45
      ensures sent.Some? ==> sent.value == ChatPayload(messages, maxTokens)
                             && r == ChatOutcome(exchange(ChatUrl(port), sent.value), decode)
      ensures isConn == (old(isConn) || r.Ok?)
    {
      var ready;
      ready, probes, slept := Connect(probe);
      if !ready {
        r, sent := Err(ReadinessTimedOut), None;
      } else {
        var payload := ChatPayload(messages, maxTokens);
        sent := Some(payload);
        r := ChatOutcome(exchange(ChatUrl(port), payload), decode);
        if r.Ok? {
          isConn := true;
        }
      }
    }

    /** Complete: as Chat, with the completion payload, endpoint and reply shape. */
    method Complete(prompt: string, maxTokens: int, probe: (string, nat) -> Probe,
                    exchange: (string, Json) -> Result<string>, decode: Decoder)
      returns (r: Result<string>, sent: Option<Json>, probes: nat, slept: nat)
      modifies this`isConn
      ensures old(isConn) ==> probes == 0
      ensures slept == SleepBefore(probes) && slept <= 45
      ensures !old(isConn) ==> 1 <= probes <= ReadinessAttempts && UnreadyBefore(probe, HealthUrl(port), probes)
      ensures sent.Some? && !old(isConn) ==> Ready(probe(HealthUrl(port), probes - 1))
      ensures sent.None? <==> !old(isConn) && NoneReady(probe, HealthUrl(port))
      ensures sent.None? ==> r == Err(ReadinessTimedOut) && probes == ReadinessAttempts && slept == 45
      ensures sent.Some? ==> sent.value == CompletionPayload(prompt, maxTokens)
                             && r == CompletionOutcome(exchange(CompletionUrl(port), sent.value), decode)
      ensures isConn == (old(isConn) || r.Ok?)
    {
      var ready;
      ready, probes, slept := Connect(probe);
      if !ready {
        r, sent := Err(ReadinessTimedOut), None;
      } else {
        var payload := CompletionPayload(prompt, maxTokens);
        sent := Some(payload);
        r := CompletionOutcome(exchange(CompletionUrl(port), payload), decode);
        if r.Ok? {
          isConn := true;
        }
      }
    }
  }
}
