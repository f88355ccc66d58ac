/** Integer facts behind the pool-refresh schedule. */
module Arith {
  function Abs(n: int): nat {
    if n < 0 then -n else n
  }

  /** A non-zero multiple of n is at least as large as n in magnitude. */
  lemma MulAtLeast(k: int, n: int)
    requires k != 0
    ensures Abs(k * n) >= Abs(n)
    decreases Abs(k)
  {
    if k > 1 {
      MulAtLeast(k - 1, n);
      assert k * n == (k - 1) * n + n;
    } else if k < -1 {
      MulAtLeast(k + 1, n);
      assert k * n == (k + 1) * n - n;
    }
  }

  /** Euclidean division is unique: a remainder in range is the remainder. */
  lemma ModUnique(m: int, n: int, a: int, b: int)
    requires n != 0 && m == a * n + b && 0 <= b < Abs(n)
    ensures m % n == b
  {
    var q, r := m / n, m % n;
    assert m == q * n + r;
    assert (q - a) * n == q * n - a * n;
    if q != a {
      MulAtLeast(q - a, n);
    }
  }

  /** Adding the divisor's magnitude leaves the remainder unchanged. */
  lemma ModShift(m: int, n: int)
    requires n != 0
    ensures (m + Abs(n)) % n == m % n
  {
    var q, r := m / n, m % n;
    var s := if n > 0 then 1 else -1;
    assert m == q * n + r;
    assert (q + s) * n == q * n + Abs(n);
    ModUnique(m + Abs(n), n, q + s, r);
  }
}

/** The bot's main loop (main.py): startup checks, one scan as a step over
    (scan count, active pools), best-cycle selection, the profit gate, the
    dry-run figures and the sequential, non-atomic submission of the hops. */
module Bot {
  import opened Wrappers
  import opened Config
  import opened GalaApi
  import opened Discovery
  import opened Triangles
  import opened Simulation
  import opened Arith

  // ---------------------------------------------------------------- startup

  /** The exit code main() returns before scanning, if any. */
  function StartupExitCode(cfg: Config): (r: Option<int>)
    ensures r.Some? ==> r.value == 2
  {
    if cfg.userAddress == "" then Some(2)
    else if !cfg.dryRun && cfg.privateKeyHex == "" then Some(2)
    else None
  }

  /** A missing user address aborts even a dry run; an empty key aborts a
      live run; a live run that starts has a key, so signing can only fail
      when the signer rejects the key material. */
  lemma StartupGuards(cfg: Config, env: Env, payload: Payload)
    ensures cfg.userAddress == "" ==> StartupExitCode(cfg) == Some(2)
    ensures !cfg.dryRun && cfg.privateKeyHex == "" ==> StartupExitCode(cfg) == Some(2)
    ensures StartupExitCode(cfg).None? ==> cfg.userAddress != "" && (cfg.dryRun || cfg.privateKeyHex != "")
    ensures StartupExitCode(cfg).None? && !cfg.dryRun ==>
              (SignPayload(env, payload, cfg.privateKeyHex).Ok? <==> env.sign(Sanitize(payload), cfg.privateKeyHex).Some?)
  {
  }

  // -------------------------------------------------------------- selection

  /** The slice triangles[:MAX_CYCLES_PER_SCAN]. */
  function Examined(cfg: Config, triangles: seq<Triple>): (s: seq<Triple>)
    ensures |s| <= cfg.maxCyclesPerScan && s <= triangles
    ensures |triangles| <= cfg.maxCyclesPerScan ==> s == triangles
    ensures |triangles| > cfg.maxCyclesPerScan ==> |s| == cfg.maxCyclesPerScan
  {
    if |triangles| <= cfg.maxCyclesPerScan then triangles else triangles[..cfg.maxCyclesPerScan]
  }

  /** What one examined cycle contributes: its simulation, when the cycle
      begins with the start token and the simulation neither raised nor
      gave None. */
  function Candidate(cfg: Config, env: Env, cycle: Triple): Option<CycleResult> {
    if cycle.0 != cfg.startToken then None
    else
      match SimulateSpec(cfg, env, cycle, cfg.startToken, cfg.startAmount)
      case Ok(Some(res)) => Some(res)
      case _ => None
  }

  /** A candidate is a cycle simulated from its own first token, unrotated. */
  lemma CandidateFromStart(cfg: Config, env: Env, cycle: Triple)
    requires Candidate(cfg, env, cycle).Some?
    ensures cycle.0 == cfg.startToken
    ensures Candidate(cfg, env, cycle).value.startToken == cfg.startToken
    ensures Candidate(cfg, env, cycle).value.startAmount == cfg.startAmount
    ensures (Candidate(cfg, env, cycle).value.path[0].tokenIn,
             Candidate(cfg, env, cycle).value.path[1].tokenIn,
             Candidate(cfg, env, cycle).value.path[2].tokenIn) == cycle
  {
    SimulatedCycleShape(cfg, env, cycle, cfg.startToken, cfg.startAmount);
  }

  /** What each examined cycle contributes, in order. */
  function Candidates(cfg: Config, env: Env, cycles: seq<Triple>): (cands: seq<Option<CycleResult>>)
    ensures |cands| == |cycles|
    ensures forall i :: 0 <= i < |cycles| ==> cands[i] == Candidate(cfg, env, cycles[i])
  {
    seq(|cycles|, i requires 0 <= i < |cycles| => Candidate(cfg, env, cycles[i]))
  }

  /** The `best` of the selection loop after the given candidates: replaced
      only by a strictly greater gross profit. */
  function BestOf(cands: seq<Option<CycleResult>>): Option<CycleResult>
    decreases |cands|
  {
    if cands == [] then None
    else
      var best := BestOf(cands[..|cands| - 1]);
      match cands[|cands| - 1]
      case None => best
      case Some(res) => if best.None? || res.grossProfitBps > best.value.grossProfitBps then Some(res) else best
  }

  function SelectSpec(cfg: Config, env: Env, cycles: seq<Triple>): Option<CycleResult> {
    BestOf(Candidates(cfg, env, cycles))
  }

  /** There is a selection exactly when some cycle is a candidate. */
  lemma {:induction false} BestOfExists(cands: seq<Option<CycleResult>>)
    ensures BestOf(cands).Some? <==> exists i :: 0 <= i < |cands| && cands[i].Some?
    decreases |cands|
  {
    if cands != [] {
      var n := |cands| - 1;
      BestOfExists(cands[..n]);
      assert forall i :: 0 <= i < n ==> cands[..n][i] == cands[i];
    }
  }

  /** cands[j] is a candidate, strictly better than every earlier one and
      at least as good as every later one. */
  ghost predicate IsEarliestMax(cands: seq<Option<CycleResult>>, j: int) {
    && 0 <= j < |cands| && cands[j].Some?
    && (forall i :: 0 <= i < j && cands[i].Some? ==> cands[i].value.grossProfitBps < cands[j].value.grossProfitBps)
    && (forall i :: j < i < |cands| && cands[i].Some? ==> cands[i].value.grossProfitBps <= cands[j].value.grossProfitBps)
  }

  /** The selection is the earliest candidate with the strictly greatest
      gross profit. */
  lemma {:induction false} BestOfIsEarliestMax(cands: seq<Option<CycleResult>>)
    ensures BestOf(cands).Some? ==> exists j :: IsEarliestMax(cands, j) && cands[j] == BestOf(cands)
    decreases |cands|
  {
    if cands != [] {
      var n := |cands| - 1;
      var pre := cands[..n];
      BestOfIsEarliestMax(pre);
      var c := cands[n];
      if BestOf(pre).Some? {
        var j :| IsEarliestMax(pre, j) && pre[j] == BestOf(pre);
        if c.Some? && c.value.grossProfitBps > pre[j].value.grossProfitBps {
          EarliestMaxReplaced(cands, j);
        } else {
          EarliestMaxKept(cands, j);
        }
      } else if c.Some? {
        BestOfExists(pre);
        assert forall i :: 0 <= i < n ==> cands[i] == pre[i];
        assert IsEarliestMax(cands, n);
      }
    }
  }

  /** A strictly better last candidate becomes the new earliest maximum. */
  lemma EarliestMaxReplaced(cands: seq<Option<CycleResult>>, j: int)
    requires |cands| > 0 && IsEarliestMax(cands[..|cands| - 1], j)
    requires cands[j] == BestOf(cands[..|cands| - 1])
    requires cands[|cands| - 1].Some? && cands[|cands| - 1].value.grossProfitBps > cands[j].value.grossProfitBps
    ensures IsEarliestMax(cands, |cands| - 1) && cands[|cands| - 1] == BestOf(cands)
  {
    var n := |cands| - 1;
    assert forall i :: 0 <= i < n ==> cands[i] == cands[..n][i];
  }

  /** Otherwise the earliest maximum so far stays. */
  lemma EarliestMaxKept(cands: seq<Option<CycleResult>>, j: int)
    requires |cands| > 0 && IsEarliestMax(cands[..|cands| - 1], j)
    requires cands[j] == BestOf(cands[..|cands| - 1])
    requires !(cands[|cands| - 1].Some? && cands[|cands| - 1].value.grossProfitBps > cands[j].value.grossProfitBps)
    ensures IsEarliestMax(cands, j) && cands[j] == BestOf(cands)
  {
    var n := |cands| - 1;
    assert forall i :: 0 <= i < n ==> cands[i] == cands[..n][i];
  }

  /** There is a selection exactly when some examined cycle is a candidate. */
  lemma SelectExists(cfg: Config, env: Env, cycles: seq<Triple>)
    ensures SelectSpec(cfg, env, cycles).Some? <==> exists i :: 0 <= i < |cycles| && Candidate(cfg, env, cycles[i]).Some?
  {
    var cands := Candidates(cfg, env, cycles);
    BestOfExists(cands);
    assert forall i :: 0 <= i < |cycles| ==> cands[i] == Candidate(cfg, env, cycles[i]);
  }

  /** The selection loop over triangles[:MAX_CYCLES_PER_SCAN]; a simulation
      that raises is skipped like one that gives None. */
  method SelectBest(cfg: Config, env: Env, triangles: seq<Triple>) returns (best: Option<CycleResult>)
    ensures best == SelectSpec(cfg, env, Examined(cfg, triangles))
  {
    var cycles := Examined(cfg, triangles);
    best := None;
    for i := 0 to |cycles|
      invariant best == BestOf(Candidates(cfg, env, cycles[..i]))
    {
      var cycle := cycles[i];
      assert Candidates(cfg, env, cycles[..i + 1])[..i] == Candidates(cfg, env, cycles[..i]);
      if cycle.0 != cfg.startToken {
        continue;
      }
      var res := SimulateCycle(cfg, env, cycle, cfg.startToken, cfg.startAmount);
      if res.Err? || res.value.None? {
        continue;
      }
      if best.None? || res.value.value.grossProfitBps > best.value.grossProfitBps {
        best := res.value;
      }
    }
    assert cycles[..|cycles|] == cycles;
  }

  // ------------------------------------------------------------------- gate

  /** The profit gate: at least MIN_PROFIT_BPS + PROFIT_BUFFER_BPS. */
  function Threshold(cfg: Config): int {
    cfg.minProfitBps + cfg.profitBufferBps
  }

  predicate Proceeds(cfg: Config, grossProfitBps: int) {
    grossProfitBps >= Threshold(cfg)
  }

  /** With the shipped thresholds (20 + 10), 29 bps is rejected and 30 passes. */
  lemma DefaultGate(userAddress: string, privateKeyHex: string, dryRun: bool)
    ensures Threshold(DefaultConfig(userAddress, privateKeyHex, dryRun)) == 30
    ensures !Proceeds(DefaultConfig(userAddress, privateKeyHex, dryRun), 29)
    ensures Proceeds(DefaultConfig(userAddress, privateKeyHex, dryRun), 30)
  {
  }

  /** For a positive stake and a threshold of at least one basis point, the
      gate passes exactly when the final amount reaches
      stake * (1 + threshold / 10000). */
  lemma GateOnAmounts(cfg: Config, startAmount: real, finalAmount: real)
    requires startAmount > 0.0 && Threshold(cfg) >= 1
    ensures Proceeds(cfg, GrossBps(startAmount, finalAmount)) <==>
              finalAmount >= startAmount * (1.0 + Threshold(cfg) as real / 10000.0)
  {
    GrossBpsThreshold(startAmount, finalAmount, Threshold(cfg));
  }

  /** The minOut figure printed for a hop in dry-run mode. */
  function DryRunMinOut(hop: Hop, slippageBps: int): real {
    hop.quoteOut * (1.0 - slippageBps as real / 10000.0)
  }

  /** The dry-run figure is the amountOutMinimum the swap body would carry. */
  lemma DryRunMinOutIsPayloadBound(cfg: Config, hop: Hop, slippageBps: int)
    requires SwapBodyFor(cfg, hop.tokenIn, hop.tokenOut, hop.quoteIn, hop.quoteOut, hop.fee, slippageBps).Ok?
    ensures SwapBodyFor(cfg, hop.tokenIn, hop.tokenOut, hop.quoteIn, hop.quoteOut, hop.fee, slippageBps).value.amountOutMinimum
            == DryRunMinOut(hop, slippageBps)
  {
  }

  // ------------------------------------------------------------- submission

  /** BUNDLE_SWAP_TYPE_CANDIDATES, in the order tried. */
  const BundleSwapTypes: seq<string> := ["swap", "Swap"]

  /** The outcome of the label loop for one hop: the id of the first send
      that did not raise (JSON may make it null), and how many sends ran. */
  datatype Delivery = Delivery(txId: Option<string>, sends: nat)

  function SendWithLabels(env: Env, payload: Payload, signature: string, user: string, labels: seq<string>): (d: Delivery)
    ensures d.sends <= |labels|
    ensures labels != [] ==> d.sends >= 1
    decreases |labels|
  {
    if labels == [] then Delivery(None, 0)
    else
      match env.send(payload, labels[0], signature, user)
      case Sent(id) => Delivery(id, 1)
      case SendFailed =>
        var rest := SendWithLabels(env, payload, signature, user, labels[1..]);
        Delivery(rest.txId, rest.sends + 1)
  }

  /** "swap" is tried first, "Swap" only when that send raised; an empty id
      is an id like any other. */
  lemma LabelFallback(env: Env, payload: Payload, signature: string, user: string)
    ensures env.send(payload, "swap", signature, user).Sent? ==>
              SendWithLabels(env, payload, signature, user, BundleSwapTypes)
              == Delivery(env.send(payload, "swap", signature, user).txId, 1)
    ensures env.send(payload, "swap", signature, user).SendFailed? && env.send(payload, "Swap", signature, user).Sent? ==>
              SendWithLabels(env, payload, signature, user, BundleSwapTypes)
              == Delivery(env.send(payload, "Swap", signature, user).txId, 2)
    ensures env.send(payload, "swap", signature, user).SendFailed? && env.send(payload, "Swap", signature, user).SendFailed? ==>
              SendWithLabels(env, payload, signature, user, BundleSwapTypes) == Delivery(None, 2)
    ensures env.send(payload, "swap", signature, user) == Sent(Some("")) ==>
              SendWithLabels(env, payload, signature, user, BundleSwapTypes).txId == Some("")
  {
    assert BundleSwapTypes[1..] == ["Swap"];
    assert BundleSwapTypes[1..][1..] == [];
  }

  /** The label loop of one hop. */
  method SendBundle(env: Env, payload: Payload, signature: string, user: string) returns (txId: Option<string>, sends: nat)
    ensures Delivery(txId, sends) == SendWithLabels(env, payload, signature, user, BundleSwapTypes)
  {
    txId := None;
    sends := 0;
    var i := 0;
    while i < |BundleSwapTypes|
      invariant 0 <= i <= |BundleSwapTypes| && sends == i
      invariant SendWithLabels(env, payload, signature, user, BundleSwapTypes)
                == (var rest := SendWithLabels(env, payload, signature, user, BundleSwapTypes[i..]);
                    Delivery(rest.txId, rest.sends + i))
    {
      sends := sends + 1;
      assert BundleSwapTypes[i..][1..] == BundleSwapTypes[i + 1..];
      var response := env.send(payload, BundleSwapTypes[i], signature, user);
      if response.Sent? {
        txId := response.txId;
        return;
      }
      i := i + 1;
    }
  }

  /** One hop: sign (a failure raises out of the bot), then the label loop. */
  function HopDelivery(cfg: Config, env: Env, hop: Hop): Result<Option<string>, ApiError>
    requires hop.payload.Some?
  {
    match SignPayload(env, hop.payload.value, cfg.privateKeyHex)
    case Err(e) => Err(e)
    case Ok(signature) => Ok(SendWithLabels(env, hop.payload.value, signature, cfg.userAddress, BundleSwapTypes).txId)
  }

  predicate AllPrepared(hops: seq<Hop>) {
    forall i :: 0 <= i < |hops| ==> hops[i].payload.Some?
  }

  function Prepend(ids: seq<string>, r: Result<seq<string>, ApiError>): Result<seq<string>, ApiError> {
    match r
    case Ok(rest) => Ok(ids + rest)
    case Err(e) => Err(e)
  }

  /** The ids collected by the hop loop, or the signing error that escapes
      it; the loop stops at the first hop whose bundle got no id. */
  function SubmitSpec(cfg: Config, env: Env, hops: seq<Hop>): Result<seq<string>, ApiError>
    requires AllPrepared(hops)
    decreases |hops|
  {
    if hops == [] then Ok([])
    else
      match HopDelivery(cfg, env, hops[0])
      case Err(e) => Err(e)
      case Ok(None) => Ok([])
      case Ok(Some(id)) => Prepend([id], SubmitSpec(cfg, env, hops[1..]))
  }

  /** Submission is sequential and not atomic: the ids are those of a prefix
      of the hops, in order, and a shorter list means the next hop got no
      id. */
  lemma {:induction false} SubmitIsPrefix(cfg: Config, env: Env, hops: seq<Hop>)
    requires AllPrepared(hops)
    ensures SubmitSpec(cfg, env, hops).Ok? ==>
              && |SubmitSpec(cfg, env, hops).value| <= |hops|
              && (forall k :: 0 <= k < |SubmitSpec(cfg, env, hops).value| ==>
                    HopDelivery(cfg, env, hops[k]) == Ok(Some(SubmitSpec(cfg, env, hops).value[k])))
              && (|SubmitSpec(cfg, env, hops).value| < |hops| ==>
                    HopDelivery(cfg, env, hops[|SubmitSpec(cfg, env, hops).value|]) == Ok(None))
    decreases |hops|
  {
    if hops != [] {
      var rest := hops[1..];
      assert AllPrepared(rest) by {
        forall i | 0 <= i < |rest| ensures rest[i].payload.Some? { assert rest[i] == hops[i + 1]; }
      }
      if HopDelivery(cfg, env, hops[0]).Ok? && HopDelivery(cfg, env, hops[0]).value.Some? {
        var id := HopDelivery(cfg, env, hops[0]).value.value;
        SubmitIsPrefix(cfg, env, rest);
        var r := SubmitSpec(cfg, env, rest);
        if r.Ok? {
          var ids := [id] + r.value;
          assert SubmitSpec(cfg, env, hops) == Ok(ids);
          forall k | 0 <= k < |ids| ensures HopDelivery(cfg, env, hops[k]) == Ok(Some(ids[k])) {
            if k > 0 { assert ids[k] == r.value[k - 1] && hops[k] == rest[k - 1]; }
          }
          if |ids| < |hops| {
            assert hops[|ids|] == rest[|r.value|];
          }
        }
      }
    }
  }

  /** Each of the first k hops was signed and delivered with an id. */
  ghost predicate DeliveredBefore(cfg: Config, env: Env, hops: seq<Hop>, k: int)
    requires AllPrepared(hops) && 0 <= k <= |hops|
  {
    forall j :: 0 <= j < k ==> HopDelivery(cfg, env, hops[j]).Ok? && HopDelivery(cfg, env, hops[j]).value.Some?
  }

  /** A signing error escapes from the first hop that failed to sign, every
      earlier hop having been delivered with an id. */
  lemma {:induction false} SubmitSignError(cfg: Config, env: Env, hops: seq<Hop>)
    requires AllPrepared(hops)
    ensures SubmitSpec(cfg, env, hops).Err? ==>
              exists k :: 0 <= k < |hops| && DeliveredBefore(cfg, env, hops, k)
                && HopDelivery(cfg, env, hops[k]) == Err(SubmitSpec(cfg, env, hops).error)
    decreases |hops|
  {
    if hops != [] {
      var rest := hops[1..];
      assert AllPrepared(rest) by {
        forall i | 0 <= i < |rest| ensures rest[i].payload.Some? { assert rest[i] == hops[i + 1]; }
      }
      if HopDelivery(cfg, env, hops[0]).Err? {
        assert DeliveredBefore(cfg, env, hops, 0);
      } else if HopDelivery(cfg, env, hops[0]).value.Some? {
        SubmitSignError(cfg, env, rest);
        var r := SubmitSpec(cfg, env, rest);
        if r.Err? {
          var k :| 0 <= k < |rest| && DeliveredBefore(cfg, env, rest, k) && HopDelivery(cfg, env, rest[k]) == Err(r.error);
          assert DeliveredBefore(cfg, env, hops, k + 1) by {
            forall j | 0 <= j < k + 1 ensures HopDelivery(cfg, env, hops[j]).Ok? && HopDelivery(cfg, env, hops[j]).value.Some? {
              if j > 0 { assert hops[j] == rest[j - 1]; }
            }
          }
          assert hops[k + 1] == rest[k];
        }
      }
    }
  }

  /** Once a hop gets no id, the hops after it are never signed or sent:
      appending any further hops leaves the outcome unchanged. */
  lemma {:induction false} SubmitStopsAtFailedHop(cfg: Config, env: Env, hops: seq<Hop>, later: seq<Hop>)
    requires AllPrepared(hops) && AllPrepared(later)
    requires SubmitSpec(cfg, env, hops).Ok? && |SubmitSpec(cfg, env, hops).value| < |hops|
    ensures AllPrepared(hops + later)
    ensures SubmitSpec(cfg, env, hops + later) == SubmitSpec(cfg, env, hops)
    decreases |hops|
  {
    var all := hops + later;
    assert AllPrepared(all) by {
      forall i | 0 <= i < |all| ensures all[i].payload.Some? {
        if i < |hops| { assert all[i] == hops[i]; } else { assert all[i] == later[i - |hops|]; }
      }
    }
    assert all[0] == hops[0];
    var rest := hops[1..];
    assert AllPrepared(rest) by {
      forall i | 0 <= i < |rest| ensures rest[i].payload.Some? { assert rest[i] == hops[i + 1]; }
    }
    if HopDelivery(cfg, env, hops[0]).Ok? && HopDelivery(cfg, env, hops[0]).value.Some? {
      assert all[1..] == rest + later;
      SubmitStopsAtFailedHop(cfg, env, rest, later);
    }
  }

  /** The status poll after each hop only prints: whatever it answers, the
      ids collected are the same. A framing fact: SubmitSpec never reads the
      status oracle. */
  lemma {:induction false} SubmitIgnoresStatus(cfg: Config, env: Env, hops: seq<Hop>, status: string -> StatusResponse)
    requires AllPrepared(hops)
    ensures SubmitSpec(cfg, env.(status := status), hops) == SubmitSpec(cfg, env, hops)
    decreases |hops|
  {
    if hops != [] {
      var rest := hops[1..];
      assert AllPrepared(rest) by {
        forall i | 0 <= i < |rest| ensures rest[i].payload.Some? { assert rest[i] == hops[i + 1]; }
      }
      SubmitIgnoresStatus(cfg, env, rest, status);
      assert HopDelivery(cfg, env.(status := status), hops[0]) == HopDelivery(cfg, env, hops[0]);
    }
  }

  /** The hop loop: sign, try the labels, stop at the first hop without an
      id, poll the status (printed only) after each success. */
  method SubmitHops(cfg: Config, env: Env, hops: seq<Hop>) returns (r: Result<seq<string>, ApiError>)
    requires AllPrepared(hops)
    ensures r == SubmitSpec(cfg, env, hops)
  {
    var txIds: seq<string> := [];
    assert hops[0..] == hops;
    if SubmitSpec(cfg, env, hops).Ok? {
      assert [] + SubmitSpec(cfg, env, hops).value == SubmitSpec(cfg, env, hops).value;
    }
    for i := 0 to |hops|
      invariant Prepend(txIds, SubmitSpec(cfg, env, hops[i..])) == SubmitSpec(cfg, env, hops)
    {
      var hop := hops[i];
      assert hops[i..][0] == hop && hops[i..][1..] == hops[i + 1..];
      var signature := SignPayload(env, hop.payload.value, cfg.privateKeyHex);
      if signature.Err? {
        return Err(signature.error);
      }
      var txId, sends := SendBundle(env, hop.payload.value, signature.value, cfg.userAddress);
      if txId.None? {
        assert txIds + [] == txIds;
        return Ok(txIds);
      }
      ghost var tail := SubmitSpec(cfg, env, hops[i + 1..]);
      if tail.Ok? {
        assert txIds + ([txId.value] + tail.value) == (txIds + [txId.value]) + tail.value;
      }
      txIds := txIds + [txId.value];
      var status := env.status(txId.value);
    }
    assert hops[|hops|..] == [];
    assert txIds + [] == txIds;
    return Ok(txIds);
  }

  // ------------------------------------------------------------------- scan

  datatype ScanOutcome =
    | NoActivePools
    | NoTriangles
    | NoViableCycle
    | NotProfitable(best: CycleResult)
    | DryRun(best: CycleResult, prepared: seq<Hop>)
    | Executed(best: CycleResult, prepared: seq<Hop>, txIds: seq<string>)
    /** an exception escaped the loop: the process ends */
    | Crashed(error: ApiError)

  /** Pools are rediscovered on scans 0, interval, 2 * interval, ... A
      negative interval divides like its magnitude: Python's remainder then
      takes the divisor's sign and Dafny's is never negative, so the two
      agree on when it is zero. */
  predicate RefreshDue(cfg: Config, scanCount: nat)
    requires cfg.poolRefreshInterval != 0
  {
    scanCount % cfg.poolRefreshInterval == 0
  }

  /** The first scan refreshes, and the schedule repeats every interval. */
  lemma RefreshSchedule(cfg: Config, scanCount: nat)
    requires cfg.poolRefreshInterval != 0
    ensures RefreshDue(cfg, 0)
    ensures RefreshDue(cfg, scanCount + Abs(cfg.poolRefreshInterval)) <==> RefreshDue(cfg, scanCount)
    ensures 0 < scanCount < Abs(cfg.poolRefreshInterval) ==> !RefreshDue(cfg, scanCount)
  {
    ModShift(scanCount, cfg.poolRefreshInterval);
  }

  /** The active pools a scan works with: replaced wholesale when due. */
  function PoolsForScan(cfg: Config, env: Env, scanCount: nat, pools: seq<ActivePool>): seq<ActivePool>
    requires cfg.poolRefreshInterval != 0
  {
    if RefreshDue(cfg, scanCount) then Discovered(cfg, env).active else pools
  }

  /** triangles is a possible answer of enumerate_triangles for the pools:
      the de-duplication of some listing of every triangle in rotation
      groups, which the order of set iteration picks. */
  ghost predicate EnumerationOf(pools: seq<ActivePool>, triangles: seq<Triple>) {
    && (forall t :: t in triangles <==> IsTriangle(pools, t)) && NoDuplicates(triangles)
    && exists rotations :: && Grouped(rotations)
                           && (forall t :: t in rotations <==> IsTriangle(pools, t))
                           && triangles == Dedup(rotations)
  }

  /** What EnumerateTriangles returns is an EnumerationOf its pools. */
  lemma Enumerated(pools: seq<ActivePool>, triangles: seq<Triple>, rotations: seq<Triple>)
    requires (forall t :: t in triangles <==> IsTriangle(pools, t)) && NoDuplicates(triangles)
    requires Grouped(rotations) && (forall t :: t in rotations <==> IsTriangle(pools, t))
    requires triangles == Dedup(rotations)
    ensures EnumerationOf(pools, triangles)
  {
  }

  /** Without pools the empty listing is the enumeration. */
  lemma NoEnumeration(pools: seq<ActivePool>)
    requires pools == []
    ensures EnumerationOf(pools, [])
  {
    var none: seq<Triple> := [];
    assert Grouped(none) && Dedup(none) == [];
  }

  /** The outcome of a scan, given the pools it works with and the order in
      which enumerate_triangles listed their triangles. */
  function ScanSpec(cfg: Config, env: Env, pools: seq<ActivePool>, triangles: seq<Triple>): ScanOutcome {
    if pools == [] then NoActivePools
    else if triangles == [] then NoTriangles
    else
      match SelectSpec(cfg, env, Examined(cfg, triangles))
      case None => NoViableCycle
      case Some(best) => TradeSpec(cfg, env, best)
  }

  /** What the scan does with its best cycle: the gate, the payloads, then
      the dry-run report or the submission. */
  function TradeSpec(cfg: Config, env: Env, best: CycleResult): ScanOutcome {
    if !Proceeds(cfg, best.grossProfitBps) then NotProfitable(best)
    else
      match PrepareSpec(cfg, env, best.path, cfg.slippageBps)
      case Err(e) => Crashed(e)
      case Ok(prepared) =>
        if cfg.dryRun then DryRun(best, prepared)
        else
          PreparedCarryPayloads(cfg, env, best.path, cfg.slippageBps);
          match SubmitSpec(cfg, env, prepared)
          case Err(e) => Crashed(e)
          case Ok(ids) => Executed(best, prepared, ids)
  }

  /** A scan trades only a selected cycle that starts at the start token and
      clears the gate; a dry run never reaches submission, a live run never
      stops at the dry-run report. */
  lemma ScanGate(cfg: Config, env: Env, pools: seq<ActivePool>, triangles: seq<Triple>)
    ensures ScanSpec(cfg, env, pools, triangles).NotProfitable? || ScanSpec(cfg, env, pools, triangles).DryRun?
            || ScanSpec(cfg, env, pools, triangles).Executed? ==>
              && Some(ScanSpec(cfg, env, pools, triangles).best) == SelectSpec(cfg, env, Examined(cfg, triangles))
              && ScanSpec(cfg, env, pools, triangles).best.startToken == cfg.startToken
              && (Proceeds(cfg, ScanSpec(cfg, env, pools, triangles).best.grossProfitBps) <==> !ScanSpec(cfg, env, pools, triangles).NotProfitable?)
    ensures ScanSpec(cfg, env, pools, triangles).DryRun? ==> cfg.dryRun
    ensures ScanSpec(cfg, env, pools, triangles).Executed? ==> !cfg.dryRun
    ensures ScanSpec(cfg, env, pools, triangles).DryRun? || ScanSpec(cfg, env, pools, triangles).Executed? ==>
              PrepareSpec(cfg, env, ScanSpec(cfg, env, pools, triangles).best.path, cfg.slippageBps)
              == Ok(ScanSpec(cfg, env, pools, triangles).prepared)
  {
    var best := SelectSpec(cfg, env, Examined(cfg, triangles));
    if pools != [] && triangles != [] && best.Some? {
      var cands := Candidates(cfg, env, Examined(cfg, triangles));
      BestOfIsEarliestMax(cands);
      var j :| IsEarliestMax(cands, j) && cands[j] == best;
      CandidateFromStart(cfg, env, Examined(cfg, triangles)[j]);
    }
  }

  // --------------------------------------------------- dry runs never sign

  // The lemmas below are framing facts: each holds because the function it
  // speaks of never reads the oracle that the lemma replaces. The evidence
  // of what the loops do is in the methods' ensures against those functions.

  lemma FoldQuotesQuoteOnly(cfg: Config, env: Env, env2: Env, tokenIn: string, tokenOut: string, amountIn: real, fees: seq<int>)
    requires env2.quote == env.quote
    ensures FoldQuotes(cfg, env2, tokenIn, tokenOut, amountIn, fees) == FoldQuotes(cfg, env, tokenIn, tokenOut, amountIn, fees)
  {
    assert Attempts(cfg, env2, tokenIn, tokenOut, amountIn, fees) == Attempts(cfg, env, tokenIn, tokenOut, amountIn, fees);
  }

  lemma SafeQuoteQuoteOnly(cfg: Config, env: Env, env2: Env, tokenIn: string, tokenOut: string)
    requires env2.quote == env.quote
    ensures forall amount :: SafeQuoteSpec(cfg, env2, tokenIn, tokenOut, amount) == SafeQuoteSpec(cfg, env, tokenIn, tokenOut, amount)
  {
    forall amount ensures SafeQuoteSpec(cfg, env2, tokenIn, tokenOut, amount) == SafeQuoteSpec(cfg, env, tokenIn, tokenOut, amount) {
      var amounts := LadderAmounts(cfg, amount);
      forall k | 0 <= k < |Ladder|
        ensures BestQuoteSpec(cfg, env2, tokenIn, tokenOut, amounts[k]) == BestQuoteSpec(cfg, env, tokenIn, tokenOut, amounts[k])
      {
        FoldQuotesQuoteOnly(cfg, env, env2, tokenIn, tokenOut, amounts[k], FeesForPair(cfg, tokenIn, tokenOut));
      }
      assert LadderQuotes(cfg, env2, tokenIn, tokenOut, amount) == LadderQuotes(cfg, env, tokenIn, tokenOut, amount);
    }
  }

  /** A cycle's simulation consults the quote endpoint and nothing else. */
  lemma SimulateQuoteOnly(cfg: Config, env: Env, env2: Env, cycle: Triple, start: string, amount: real)
    requires env2.quote == env.quote
    ensures SimulateSpec(cfg, env2, cycle, start, amount) == SimulateSpec(cfg, env, cycle, start, amount)
  {
    if start == cycle.0 || start == cycle.1 || start == cycle.2 {
      var t := Rotate(cycle, start);
      SafeQuoteQuoteOnly(cfg, env, env2, t.0, t.1);
      SafeQuoteQuoteOnly(cfg, env, env2, t.1, t.2);
      SafeQuoteQuoteOnly(cfg, env, env2, t.2, t.0);
    }
  }

  lemma SelectQuoteOnly(cfg: Config, env: Env, env2: Env, cycles: seq<Triple>)
    requires env2.quote == env.quote
    ensures SelectSpec(cfg, env2, cycles) == SelectSpec(cfg, env, cycles)
  {
    forall i | 0 <= i < |cycles| ensures Candidate(cfg, env2, cycles[i]) == Candidate(cfg, env, cycles[i]) {
      SimulateQuoteOnly(cfg, env, env2, cycles[i], cfg.startToken, cfg.startAmount);
    }
    assert Candidates(cfg, env2, cycles) == Candidates(cfg, env, cycles);
  }

  lemma PrepareSwapOnly(cfg: Config, env: Env, env2: Env, path: seq<Hop>, slippageBps: int)
    requires env2.swap == env.swap
    ensures PrepareSpec(cfg, env2, path, slippageBps) == PrepareSpec(cfg, env, path, slippageBps)
  {
    assert PreparedHops(cfg, env2, path, slippageBps) == PreparedHops(cfg, env, path, slippageBps);
  }

  /** Dry-run never signs or sends: whatever the signer, the bundle endpoint
      and the status endpoint would do, a dry-run scan ends the same way. */
  lemma DryRunNeverSigns(cfg: Config, env: Env, pools: seq<ActivePool>, triangles: seq<Triple>,
                         sign: (Payload, string) -> Option<string>,
                         send: (Payload, string, string, string) -> SendResponse,
                         status: string -> StatusResponse)
    requires cfg.dryRun
    ensures ScanSpec(cfg, env.(sign := sign, send := send, status := status), pools, triangles) == ScanSpec(cfg, env, pools, triangles)
  {
    var env2 := env.(sign := sign, send := send, status := status);
    SelectQuoteOnly(cfg, env, env2, Examined(cfg, triangles));
    var best := SelectSpec(cfg, env, Examined(cfg, triangles));
    if best.Some? {
      PrepareSwapOnly(cfg, env, env2, best.value.path, cfg.slippageBps);
    }
  }

  // ---------------------------------------------------------------- scanner

  /** The state the loop of main() carries from one scan to the next. */
  class Scanner {
    const cfg: Config
    var scanCount: nat
    var activePools: seq<ActivePool>

    ghost predicate Valid()
      reads this
    {
      cfg.poolRefreshInterval != 0
    }

    constructor (cfg: Config)
      requires cfg.poolRefreshInterval != 0
      ensures Valid() && this.cfg == cfg
      ensures scanCount == 0 && activePools == []
    {
      this.cfg := cfg;
      scanCount := 0;
      activePools := [];
    }

    /** One pass of the loop. Every pass that does not raise counts one
        scan; the pools are replaced when a refresh is due and kept
        otherwise. ScanLogged spells the pass out: its pools are
        PoolsForScan of the count and pools it started from, its triangles
        an EnumerationOf them, and its outcome ScanSpec of both. */
    method Scan(env: Env) returns (outcome: ScanOutcome, triangles: seq<Triple>)
      requires Valid()
      modifies this
      ensures Valid()
      ensures ScanLogged(cfg, env, old(scanCount), old(activePools), activePools, triangles, outcome)
      ensures scanCount == if outcome.Crashed? then old(scanCount) else old(scanCount) + 1
    {
      if scanCount % cfg.poolRefreshInterval == 0 {
        var discovered;
        ghost var issued;
        discovered, issued := DiscoverActivePools(cfg, env);
        activePools := discovered;
      }
      outcome, triangles := ScanPools(cfg, env, activePools);
      if !outcome.Crashed? {
        scanCount := scanCount + 1;
      }
    }
  }

  /** The rest of one pass, on the pools it works with: stop without pools
      or triangles, stop when no cycle simulates, and trade otherwise. */
  method ScanPools(cfg: Config, env: Env, pools: seq<ActivePool>) returns (outcome: ScanOutcome, triangles: seq<Triple>)
    ensures EnumerationOf(pools, triangles)
    ensures outcome == ScanSpec(cfg, env, pools, triangles)
  {
    if pools == [] {
      triangles := [];
      NoEnumeration(pools);
      return NoActivePools, triangles;
    }
    var rotations;
    triangles, rotations := EnumerateTriangles(pools);
    Enumerated(pools, triangles, rotations);
    if triangles == [] {
      return NoTriangles, triangles;
    }
    var best := SelectBest(cfg, env, triangles);
    if best.None? {
      return NoViableCycle, triangles;
    }
    outcome := Trade(cfg, env, best.value);
  }

  /** The gate, prepare_payloads, and the dry-run report or the hop loop. */
  method Trade(cfg: Config, env: Env, best: CycleResult) returns (outcome: ScanOutcome)
    ensures outcome == TradeSpec(cfg, env, best)
  {
    if best.grossProfitBps < cfg.minProfitBps + cfg.profitBufferBps {
      return NotProfitable(best);
    }
    var prepared := PreparePayloads(cfg, env, best, cfg.slippageBps);
    if prepared.Err? {
      return Crashed(prepared.error);
    }
    if cfg.dryRun {
      return DryRun(best, prepared.value);
    }
    PreparedCarryPayloads(cfg, env, best.path, cfg.slippageBps);
    var submitted := SubmitHops(cfg, env, prepared.value);
    if submitted.Err? {
      return Crashed(submitted.error);
    }
    return Executed(best, prepared.value, submitted.value);
  }

  /** Scan number scanCount ran in env, starting from the pools prev that
      the previous scan left: it worked with the pools PoolsForScan gives,
      listed their triangles as tris, and ended with outcome. */
  ghost predicate ScanLogged(cfg: Config, env: Env, scanCount: nat, prev: seq<ActivePool>,
                             pools: seq<ActivePool>, tris: seq<Triple>, outcome: ScanOutcome)
    requires cfg.poolRefreshInterval != 0
  {
    && pools == PoolsForScan(cfg, env, scanCount, prev)
    && EnumerationOf(pools, tris)
    && outcome == ScanSpec(cfg, env, pools, tris)
  }

  /** Entry i of a run's log: scan i ran in envs[i] with scan count i,
      starting from the pools scan i - 1 left (none for the first scan). */
  ghost predicate LoggedAt(cfg: Config, envs: seq<Env>, outcomes: seq<ScanOutcome>,
                           pools: seq<seq<ActivePool>>, tris: seq<seq<Triple>>, i: nat)
    requires cfg.poolRefreshInterval != 0
    requires i < |outcomes| <= |envs| && |pools| == |outcomes| && |tris| == |outcomes|
  {
    ScanLogged(cfg, envs[i], i, if i == 0 then [] else pools[i - 1], pools[i], tris[i], outcomes[i])
  }

  /** Every scan of a run is logged. */
  ghost predicate RunLog(cfg: Config, envs: seq<Env>, outcomes: seq<ScanOutcome>,
                         pools: seq<seq<ActivePool>>, tris: seq<seq<Triple>>)
    requires cfg.poolRefreshInterval != 0
    requires |outcomes| <= |envs| && |pools| == |outcomes| && |tris| == |outcomes|
  {
    forall i :: 0 <= i < |outcomes| ==> LoggedAt(cfg, envs, outcomes, pools, tris, i)
  }

  /** One more logged scan extends the log. */
  lemma RunLogSnoc(cfg: Config, envs: seq<Env>, outcomes: seq<ScanOutcome>,
                   pools: seq<seq<ActivePool>>, tris: seq<seq<Triple>>,
                   prev: seq<ActivePool>, outcome: ScanOutcome, p: seq<ActivePool>, t: seq<Triple>)
    requires cfg.poolRefreshInterval != 0
    requires |outcomes| < |envs| && |pools| == |outcomes| && |tris| == |outcomes|
    requires RunLog(cfg, envs, outcomes, pools, tris)
    requires prev == if outcomes == [] then [] else pools[|outcomes| - 1]
    requires ScanLogged(cfg, envs[|outcomes|], |outcomes|, prev, p, t, outcome)
    ensures RunLog(cfg, envs, outcomes + [outcome], pools + [p], tris + [t])
  {
    var n := |outcomes|;
    var outcomes', pools', tris' := outcomes + [outcome], pools + [p], tris + [t];
    forall i | 0 <= i < n + 1
      ensures LoggedAt(cfg, envs, outcomes', pools', tris', i)
    {
      if i < n {
        assert LoggedAt(cfg, envs, outcomes, pools, tris, i);
        assert pools'[i] == pools[i] && tris'[i] == tris[i] && outcomes'[i] == outcomes[i];
        assert i > 0 ==> pools'[i - 1] == pools[i - 1];
      } else {
        assert pools'[n] == p && tris'[n] == t && outcomes'[n] == outcome;
        assert n > 0 ==> pools'[n - 1] == pools[n - 1];
      }
    }
  }

  /** main() over a finite run of scans, one environment per scan: the exit
      code 2 before any scan when startup fails; otherwise scans until one
      raises (the process ends there) or the environments run out. Scan i
      runs in envs[i] with scan count i, on the pools the previous scan left
      (none before the first); pools[i] and tris[i] are the pools and the
      listing of their triangles that scan i worked with. */
  method RunBot(cfg: Config, envs: seq<Env>)
    returns (exitCode: Option<int>, outcomes: seq<ScanOutcome>, scans: nat,
             ghost pools: seq<seq<ActivePool>>, ghost tris: seq<seq<Triple>>)
    requires cfg.poolRefreshInterval != 0
    ensures exitCode == StartupExitCode(cfg)
    ensures exitCode.Some? ==> outcomes == [] && scans == 0
    ensures |outcomes| <= |envs| && |pools| == |outcomes| && |tris| == |outcomes|
    ensures RunLog(cfg, envs, outcomes, pools, tris)
    ensures forall i :: 0 <= i < |outcomes| - 1 ==> !outcomes[i].Crashed?
    ensures exitCode.None? && |outcomes| < |envs| ==> |outcomes| > 0 && outcomes[|outcomes| - 1].Crashed?
    ensures scans == |outcomes| - (if |outcomes| > 0 && outcomes[|outcomes| - 1].Crashed? then 1 else 0)
  {
    exitCode := StartupExitCode(cfg);
    outcomes := [];
    scans := 0;
    pools, tris := [], [];
    if exitCode.Some? {
      return;
    }
    var scanner := new Scanner(cfg);
    for i := 0 to |envs|
      invariant scanner.Valid() && scanner.cfg == cfg
      invariant |outcomes| == i && scans == i && scanner.scanCount == i
      invariant |pools| == i && |tris| == i
      invariant i == 0 ==> scanner.activePools == []
      invariant i > 0 ==> scanner.activePools == pools[i - 1]
      invariant forall j :: 0 <= j < |outcomes| ==> !outcomes[j].Crashed?
      invariant RunLog(cfg, envs, outcomes, pools, tris)
    {
      ghost var prev := scanner.activePools;
      var outcome, triangles := scanner.Scan(envs[i]);
      RunLogSnoc(cfg, envs, outcomes, pools, tris, prev, outcome, scanner.activePools, triangles);
      outcomes := outcomes + [outcome];
      pools, tris := pools + [scanner.activePools], tris + [triangles];
      if outcome.Crashed? {
        return;
      }
      scans := scans + 1;
    }
  }
}
