/** The quick-bid script: it polls the spot-deploy gas auction until the
    current gas price is at or below the configured ceiling (or the auction
    is over), queries the auction once more, optionally asks for
    confirmation, and then calls `spot_deploy_register_token` once. */
module QuickBidToken {
  import opened Common

  /** Seconds between polls. */
  const PollInterval := 5
  /** Wei per HYPE: the ceiling is in wei, the auction price in HYPE. */
  const GasScale: real := 1000000000000.0

  // ---------------------------------------------------------------------
  // One pass of the poll loop
  // ---------------------------------------------------------------------

  /** The `gasAuction` entry of one status query (both fields absent when
      the entry itself is missing). Gas is an exact number of HYPE. */
  datatype Snapshot = Snapshot(currentGas: Option<real>, startTimeSeconds: Option<int>)

  /** What one pass sees: the snapshot it fetched and the clock, in whole seconds. */
  datatype Observation = Observation(snapshot: Snapshot, now: int)

  datatype WaitReason = NotStartedYet | NoStartTime | PriceTooHigh

  /** What one pass decides: sleep and poll again, give up, or bid. */
  datatype Decision = Sleep(seconds: int, reason: WaitReason) | Completed | Ready

  /** Python truthiness of `startTimeSeconds`: absent and 0 are false. */
  predicate Truthy(t: Option<int>)
  {
    t.Some? && t.value != 0
  }

  function Min(a: int, b: int): int
  {
    if a <= b then a else b
  }

  /** True when a price passes the script's gate `gas * 1e12 <= MAX_GAS`. */
  predicate Affordable(gas: real, maxGas: int)
  {
    gas * GasScale <= maxGas as real
  }

  /** The body of the `while True` loop, from the fetched snapshot and the clock. */
  function Step(maxGas: int, obs: Observation): (d: Decision)
    // a sleep is never longer than the poll interval, and never zero
    ensures d.Sleep? ==> 0 < d.seconds <= PollInterval
    // it is cut short by a known future start and never overshoots it
    ensures d.Sleep? && d.reason == NotStartedYet ==>
      obs.snapshot.startTimeSeconds.Some? && d.seconds <= obs.snapshot.startTimeSeconds.value - obs.now
    ensures d == Ready <==> obs.snapshot.currentGas.Some? && Affordable(obs.snapshot.currentGas.value, maxGas)
    ensures d == Completed ==> obs.snapshot.currentGas.None?
  {
    var snap := obs.snapshot;
    match snap.currentGas
    case None =>
      if Truthy(snap.startTimeSeconds) then
        if obs.now < snap.startTimeSeconds.value then
          Sleep(Min(PollInterval, snap.startTimeSeconds.value - obs.now), NotStartedYet)
        else
          Completed
      else
        Sleep(PollInterval, NoStartTime)
    case Some(gas) =>
      if gas * GasScale > maxGas as real then Sleep(PollInterval, PriceTooHigh) else Ready
  }

  /** No gas price and a start time in the future: sleep until the start or
      for one interval, whichever is sooner, and poll again. */
  lemma WaitsUntilStart(maxGas: int, obs: Observation)
    requires obs.snapshot.currentGas.None? && Truthy(obs.snapshot.startTimeSeconds)
    requires obs.now < obs.snapshot.startTimeSeconds.value
    ensures Step(maxGas, obs) == Sleep(Min(PollInterval, obs.snapshot.startTimeSeconds.value - obs.now), NotStartedYet)
  {
  }

  /** No gas price and a start time that has passed: the auction is over. */
  lemma CompletedOnceStarted(maxGas: int, obs: Observation)
    ensures Step(maxGas, obs) == Completed <==>
      obs.snapshot.currentGas.None? && Truthy(obs.snapshot.startTimeSeconds)
      && obs.snapshot.startTimeSeconds.value <= obs.now
  {
  }

  /** No gas price and no usable start time (absent or 0): wait a full
      interval; this is not treated as the end of the auction. */
  lemma WaitsWithoutStartTime(maxGas: int, obs: Observation)
    requires obs.snapshot.currentGas.None? && !Truthy(obs.snapshot.startTimeSeconds)
    ensures Step(maxGas, obs) == Sleep(PollInterval, NoStartTime)
  {
  }

  /** A price over the ceiling waits a full interval. */
  lemma WaitsWhilePriceTooHigh(maxGas: int, obs: Observation)
    requires obs.snapshot.currentGas.Some? && !Affordable(obs.snapshot.currentGas.value, maxGas)
    ensures Step(maxGas, obs) == Sleep(PollInterval, PriceTooHigh)
  {
  }

  /** The gate is inclusive: a price exactly at the ceiling is accepted. */
  lemma ReadyAtCeiling(maxGas: int, obs: Observation)
    requires obs.snapshot.currentGas == Some(maxGas as real / GasScale)
    ensures Step(maxGas, obs) == Ready
  {
  }

  /** The gate is monotone in the price: once a price is accepted, every
      lower one is too. */
  lemma ReadyBelowAcceptedPrice(maxGas: int, obs: Observation, lower: real)
    requires Step(maxGas, obs) == Ready
    requires obs.snapshot.currentGas.Some? && lower <= obs.snapshot.currentGas.value
    ensures Step(maxGas, obs.(snapshot := obs.snapshot.(currentGas := Some(lower)))) == Ready
  {
  }

  // ---------------------------------------------------------------------
  // The poll loop over a scripted feed
  // ---------------------------------------------------------------------

  /** How the loop ends. `ScriptEnded` means the scripted feed ran out of
      snapshots: the script itself would keep polling. */
  datatype PollExit = ExitReady | ExitCompleted | ScriptEnded

  /** The loop's trace: how it ended, the sleeps in order, and how many
      snapshots it fetched. */
  datatype PollRun = PollRun(exit: PollExit, waits: seq<int>, passes: nat)

  /** The loop as a function of the snapshots it will be served. */
  function Poll(maxGas: int, script: seq<Observation>): (run: PollRun)
    ensures run.passes <= |script|
    ensures |run.waits| == if run.exit == ScriptEnded then run.passes else run.passes - 1
    ensures run.exit == ScriptEnded ==> run.passes == |script|
    ensures run.exit != ScriptEnded ==> run.passes >= 1
  {
    if script == [] then PollRun(ScriptEnded, [], 0)
    else
      match Step(maxGas, script[0])
      case Ready => PollRun(ExitReady, [], 1)
      case Completed => PollRun(ExitCompleted, [], 1)
      case Sleep(seconds, _) =>
        var rest := Poll(maxGas, script[1..]);
        PollRun(rest.exit, [seconds] + rest.waits, rest.passes + 1)
  }

  /** Pass `k` is the first one whose snapshot is ready: every earlier pass slept. */
  ghost predicate FirstReadyAt(maxGas: int, script: seq<Observation>, k: nat)
  {
    k < |script| && Step(maxGas, script[k]) == Ready
    && forall j :: 0 <= j < k ==> Step(maxGas, script[j]).Sleep?
  }

  /** The loop leaves ready exactly at the first ready snapshot, never
      earlier and never later. */
  lemma {:induction false} PollReadyIffFirstReady(maxGas: int, script: seq<Observation>, k: nat)
    ensures Poll(maxGas, script).exit == ExitReady && Poll(maxGas, script).passes == k + 1
      <==> FirstReadyAt(maxGas, script, k)
  {
    if script != [] {
      match Step(maxGas, script[0])
      case Ready =>
      case Completed =>
      case Sleep(_, _) =>
        if k > 0 {
          PollReadyIffFirstReady(maxGas, script[1..], k - 1);
          assert FirstReadyAt(maxGas, script, k) <==> FirstReadyAt(maxGas, script[1..], k - 1) by {
            if FirstReadyAt(maxGas, script[1..], k - 1) {
              forall j | 0 <= j < k ensures Step(maxGas, script[j]).Sleep? {
                if j > 0 { assert script[j] == script[1..][j - 1]; }
              }
            }
            if FirstReadyAt(maxGas, script, k) {
              forall j | 0 <= j < k - 1 ensures Step(maxGas, script[1..][j]).Sleep? {
                assert script[1..][j] == script[j + 1];
              }
            }
          }
        }
    }
  }

  /** Every sleep the loop takes is the one its own pass decided from the
      snapshot fetched in that pass. */
  lemma {:induction false} PollWaitsFollowSteps(maxGas: int, script: seq<Observation>, j: nat)
    requires j < |Poll(maxGas, script).waits|
    ensures Step(maxGas, script[j]).Sleep?
    ensures Poll(maxGas, script).waits[j] == Step(maxGas, script[j]).seconds
    ensures 0 < Poll(maxGas, script).waits[j] <= PollInterval
  {
    if j > 0 {
      PollWaitsFollowSteps(maxGas, script[1..], j - 1);
    }
  }

  /** Once the loop has stopped, snapshots the feed would serve later do
      not change anything it did. */
  lemma {:induction false} PollIgnoresLaterSnapshots(maxGas: int, script: seq<Observation>, later: seq<Observation>)
    requires Poll(maxGas, script).exit != ScriptEnded
    ensures Poll(maxGas, script + later) == Poll(maxGas, script)
  {
    assert (script + later)[0] == script[0];
    if Step(maxGas, script[0]).Sleep? {
      assert (script + later)[1..] == script[1..] + later;
      PollIgnoresLaterSnapshots(maxGas, script[1..], later);
    }
  }

  /** Prefix the loop's trace with passes that slept. */
  function Extend(waits: seq<int>, run: PollRun): PollRun
  {
    PollRun(run.exit, waits + run.waits, |waits| + run.passes)
  }

  /** The `while True` loop: fetch, decide, sleep or leave. */
  method PollUntilReady(maxGas: int, script: seq<Observation>) returns (run: PollRun)
    ensures run == Poll(maxGas, script)
    ensures run.exit == ExitReady ==> FirstReadyAt(maxGas, script, run.passes - 1)
    ensures run.exit == ExitCompleted ==> Step(maxGas, script[run.passes - 1]) == Completed
    ensures forall j :: 0 <= j < |run.waits| ==> Step(maxGas, script[j]).Sleep? && run.waits[j] == Step(maxGas, script[j]).seconds
  {
    var i := 0;
    var waits: seq<int> := [];
    while i < |script|
      invariant 0 <= i <= |script| && |waits| == i
      invariant forall j :: 0 <= j < i ==> Step(maxGas, script[j]).Sleep? && waits[j] == Step(maxGas, script[j]).seconds
      invariant Poll(maxGas, script) == Extend(waits, Poll(maxGas, script[i..]))
      decreases |script| - i
    {
      var decision := Step(maxGas, script[i]);
      match decision
      case Ready =>
        return PollRun(ExitReady, waits, i + 1);
      case Completed =>
        return PollRun(ExitCompleted, waits, i + 1);
      case Sleep(seconds, _) =>
        assert script[i..][1..] == script[i + 1..];
        waits := waits + [seconds];
        i := i + 1;
    }
    return PollRun(ScriptEnded, waits, i);
  }

  // ---------------------------------------------------------------------
  // After the loop: confirmation, the bid, and its result
  // ---------------------------------------------------------------------

  /** The configuration constants of the script. */
  datatype BidConfig = BidConfig(tokenName: string, szDecimals: int, weiDecimals: int, maxGas: int, fullName: string)

  /** The keyword arguments of `spot_deploy_register_token`. */
  datatype RegisterRequest = RegisterRequest(tokenName: string, szDecimals: int, weiDecimals: int, maxGas: int, fullName: string)

  function RequestFor(cfg: BidConfig): RegisterRequest
  {
    RegisterRequest(cfg.tokenName, cfg.szDecimals, cfg.weiDecimals, cfg.maxGas, cfg.fullName)
  }

  /** What `spot_deploy_register_token` does: return a decoded result or raise. */
  datatype CallOutcome = Returned(result: Json) | Raised

  /** How a run of the script ends. */
  datatype BidOutcome =
    | AuctionCompleted        // the loop saw a finished auction; no bid
    | FeedEnded               // the scripted feed ran out
    | RequeryCrashed          // the re-query had no gas price: `float(None)`
    | Cancelled               // manual confirmation was not "yes"
    | CallRaised              // the register call raised
    | Registered(tokenIndex: Json)
    | BidFailed               // a result whose status is not "ok"
    | ResultCrashed           // the result lacks a key the script indexes

  /** `str.lower` on one character; only ASCII letters are folded. */
  function LowerChar(c: char): char
  {
    if 'A' <= c <= 'Z' then (c as int + 32) as char else c
  }

  function Lower(s: string): (t: string)
    ensures |t| == |s|
    ensures forall i :: 0 <= i < |s| ==> t[i] == LowerChar(s[i])
  {
    if s == [] then [] else [LowerChar(s[0])] + Lower(s[1..])
  }

  /** The one character that `LowerChar` maps to a lower-case ASCII letter
      besides the letter itself is its upper-case form. */
  lemma LowerCharTo(c: char, l: char)
    requires 'a' <= l <= 'z'
    ensures LowerChar(c) == l <==> c == l || c as int == l as int - 32
  {
  }

  /** The prompt accepts "yes" in any mix of cases and nothing else. */
  lemma ConfirmedIff(answer: string)
    ensures Lower(answer) == "yes" <==>
      && |answer| == 3
      && (answer[0] == 'y' || answer[0] == 'Y')
      && (answer[1] == 'e' || answer[1] == 'E')
      && (answer[2] == 's' || answer[2] == 'S')
  {
  }

  /** `if result["status"] == "ok": token_index = result["response"]["data"]`.
      Indexing a key that is not there (or a value that is not an object)
      raises, which ends the script. */
  function InterpretResult(result: Json): (o: BidOutcome)
    ensures o.Registered? || o == BidFailed || o == ResultCrashed
    ensures o.Registered? ==> HasEntry(result, "status", JString("ok"))
    ensures o.Registered? ==>
      && "response" in result.obj && result.obj["response"].JObject? && "data" in result.obj["response"].obj
      && o.tokenIndex == result.obj["response"].obj["data"]
    ensures o == BidFailed <==> result.JObject? && "status" in result.obj && result.obj["status"] != JString("ok")
    ensures (HasEntry(result, "status", JString("ok")) && "response" in result.obj
      && result.obj["response"].JObject? && "data" in result.obj["response"].obj) ==> o.Registered?
  {
    if !result.JObject? || "status" !in result.obj then ResultCrashed
    else if result.obj["status"] != JString("ok") then BidFailed
    else if "response" !in result.obj then ResultCrashed
    else
      var response := result.obj["response"];
      if response.JObject? && "data" in response.obj then Registered(response.obj["data"])
      else ResultCrashed
  }

  /** One run: the loop's trace, the re-queried snapshot, the register
      calls made, and how it ended. */
  datatype BidRun = BidRun(poll: PollRun, requery: Option<Snapshot>, calls: seq<RegisterRequest>, outcome: BidOutcome)

  /** `main` after `setup`. `script` serves the auction-status queries in
      order, each with the clock reading of that pass; `autoBid` is the
      `AUTO_BID` switch, `answer` what the prompt would read, and
      `register` stands for `spot_deploy_register_token`. */
  method QuickBid(
    cfg: BidConfig, script: seq<Observation>, autoBid: bool, answer: string,
    register: RegisterRequest -> CallOutcome)
    returns (run: BidRun)
    ensures run.poll == Poll(cfg.maxGas, script)
    // the re-query is the next snapshot of the feed, and only after a ready exit
    ensures run.requery.Some? <==> run.poll.exit == ExitReady && run.poll.passes < |script|
    ensures run.requery.Some? ==> run.requery.value == script[run.poll.passes].snapshot
    // the register call is made at most once, with the configuration, and only
    // after a ready exit, a re-query with a price, and (without auto-bid) a "yes"
    ensures run.calls == [] || run.calls == [RequestFor(cfg)]
    ensures run.calls != [] <==>
      run.requery.Some? && run.requery.value.currentGas.Some? && (autoBid || Lower(answer) == "yes")
    ensures run.poll.exit == ExitCompleted <==> run.outcome == AuctionCompleted
    ensures run.poll.exit == ExitCompleted ==> run.calls == []
    ensures run.outcome == FeedEnded <==>
      run.poll.exit == ScriptEnded || (run.poll.exit == ExitReady && run.poll.passes == |script|)
    // `float(None)` on a re-query without a price ends the script
    ensures run.requery.Some? && run.requery.value.currentGas.None? ==> run.outcome == RequeryCrashed
    ensures run.outcome == RequeryCrashed ==> run.requery.Some? && run.requery.value.currentGas.None?
    ensures run.outcome == Cancelled <==>
      run.requery.Some? && run.requery.value.currentGas.Some? && !autoBid && Lower(answer) != "yes"
    ensures run.calls != [] ==>
      run.outcome == match register(RequestFor(cfg)) case Raised => CallRaised case Returned(r) => InterpretResult(r)
  {
    var poll := PollUntilReady(cfg.maxGas, script);
    if poll.exit == ExitCompleted {
      return BidRun(poll, None, [], AuctionCompleted);
    }
    if poll.exit == ScriptEnded || poll.passes == |script| {
      return BidRun(poll, None, [], FeedEnded);
    }
    var requery := script[poll.passes].snapshot;
    if requery.currentGas.None? {
      return BidRun(poll, Some(requery), [], RequeryCrashed);
    }
    if !autoBid && Lower(answer) != "yes" {
      return BidRun(poll, Some(requery), [], Cancelled);
    }
    var request := RequestFor(cfg);
    var outcome := register(request);
    var result := match outcome case Raised => CallRaised case Returned(r) => InterpretResult(r);
    return BidRun(poll, Some(requery), [request], result);
  }
}
