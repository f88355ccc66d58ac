/** Cycle simulation (strategies.py): quoting with an input cap and a
    back-off ladder, simulating a triangle from the start token, and
    building the swap payloads of a simulated cycle. */
module Simulation {
  import opened Wrappers
  import opened Config
  import opened GalaApi
  import opened Triangles

  datatype Hop = Hop(tokenIn: string, tokenOut: string, fee: int, quoteIn: real, quoteOut: real, payload: Option<Payload>)

  datatype CycleResult = CycleResult(path: seq<Hop>, startToken: string, startAmount: real, finalAmount: real, grossProfitBps: int)

  // ------------------------------------------------------------ quantisation

  /** One unit of the last place kept by quantize(Decimal("0.00000001")), inverted. */
  const Scale: real := 100000000.0

  /** A multiple of 10^-8. */
  predicate OnGrid(x: real) {
    (x * Scale).Floor as real == x * Scale
  }

  /** Decimal.quantize to 8 places under the default rounding ROUND_HALF_EVEN:
      a nearest multiple of 10^-8, the even one on a tie. */
  function Quantize8(x: real): (r: real)
    ensures OnGrid(r)
    ensures x - 0.5 / Scale <= r <= x + 0.5 / Scale
  {
    var y := x * Scale;
    var f := y.Floor;
    var d := y - f as real;
    var n := if d < 0.5 then f else if d > 0.5 then f + 1 else if f % 2 == 0 then f else f + 1;
    n as real / Scale
  }

  /** Amounts already on the grid are kept as they are. */
  lemma QuantizeKeepsGrid(x: real)
    requires OnGrid(x)
    ensures Quantize8(x) == x
  {
    var y := x * Scale;
    assert y.Floor as real == y;
  }

  /** A tie goes to the even neighbour. */
  lemma QuantizeTiesToEven(n: int)
    ensures Quantize8((n as real + 0.5) / Scale) == (if n % 2 == 0 then n else n + 1) as real / Scale
  {
    var x := (n as real + 0.5) / Scale;
    assert x * Scale == n as real + 0.5;
    assert (x * Scale).Floor == n;
  }

  lemma QuantizeExamples()
    ensures Quantize8(0.000000125) == 0.00000012
    ensures Quantize8(0.000000135) == 0.00000014
  {
    QuantizeTiesToEven(12);
    QuantizeTiesToEven(13);
  }

  // ------------------------------------------------------------- safe quote

  /** The cap on a hop's input; a cap of 0 (or less) means no cap. */
  function ClampHop(maxIn: real, amount: real): (r: real)
    ensures maxIn > 0.0 ==> r <= maxIn
    ensures r <= amount
    ensures r == amount || r == maxIn
    ensures maxIn <= 0.0 || amount <= maxIn ==> r == amount
  {
    if maxIn > 0.0 && amount > maxIn then maxIn else amount
  }

  /** The back-off factors applied to the (capped) input, in order. */
  const Ladder: seq<real> := [1.0, 0.5, 0.2, 0.1, 0.05]

  /** The amounts _best_quote_safe tries, in order. */
  function LadderAmounts(cfg: Config, amount: real): (amounts: seq<real>)
    ensures |amounts| == |Ladder|
    ensures forall k :: 0 <= k < |amounts| ==> amounts[k] == Quantize8(ClampHop(cfg.maxHopInput, amount) * Ladder[k])
  {
    seq(|Ladder|, k requires 0 <= k < |Ladder| => Quantize8(ClampHop(cfg.maxHopInput, amount) * Ladder[k]))
  }

  /** best_quote's answer for each ladder amount, in order. */
  function LadderQuotes(cfg: Config, env: Env, tokenIn: string, tokenOut: string, amount: real): (quotes: seq<Result<Quote, ApiError>>)
    ensures |quotes| == |Ladder|
    ensures forall k :: 0 <= k < |Ladder| ==> quotes[k] == BestQuoteSpec(cfg, env, tokenIn, tokenOut, LadderAmounts(cfg, amount)[k])
  {
    var amounts := LadderAmounts(cfg, amount);
    seq(|Ladder|, k requires 0 <= k < |Ladder| => BestQuoteSpec(cfg, env, tokenIn, tokenOut, amounts[k]))
  }

  /** The first success of a non-empty run of attempts, or the error of
      the last attempt once every attempt failed. */
  function FirstOk(attempts: seq<Result<Quote, ApiError>>): Result<Quote, ApiError>
    requires |attempts| >= 1
    decreases |attempts|
  {
    if attempts[0].Ok? || |attempts| == 1 then attempts[0] else FirstOk(attempts[1..])
  }

  /** If the attempts before k all fail and attempt k succeeds, its quote is the answer. */
  lemma {:induction false} FirstOkAt(attempts: seq<Result<Quote, ApiError>>, k: nat)
    requires k < |attempts|
    requires forall j :: 0 <= j < k ==> attempts[j].Err?
    requires attempts[k].Ok?
    ensures FirstOk(attempts) == attempts[k]
    decreases k
  {
    if k > 0 {
      var rest := attempts[1..];
      assert forall j :: 0 <= j < k - 1 ==> rest[j] == attempts[j + 1];
      assert rest[k - 1] == attempts[k];
      FirstOkAt(rest, k - 1);
    }
  }

  /** The answer fails exactly when every attempt fails, and then it is
      the last attempt's error. */
  lemma {:induction false} FirstOkAllFail(attempts: seq<Result<Quote, ApiError>>)
    requires |attempts| >= 1
    ensures FirstOk(attempts).Err? <==> forall j :: 0 <= j < |attempts| ==> attempts[j].Err?
    ensures FirstOk(attempts).Err? ==> FirstOk(attempts) == attempts[|attempts| - 1]
    decreases |attempts|
  {
    if |attempts| > 1 {
      var rest := attempts[1..];
      FirstOkAllFail(rest);
      assert forall j :: 0 <= j < |rest| ==> rest[j] == attempts[j + 1];
      assert forall j :: 1 <= j < |attempts| ==> attempts[j] == rest[j - 1];
    }
  }

  /** A successful answer is one of the attempts, every earlier one having failed. */
  lemma {:induction false} FirstOkIsFirstSuccess(attempts: seq<Result<Quote, ApiError>>)
    requires |attempts| >= 1 && FirstOk(attempts).Ok?
    ensures exists k :: 0 <= k < |attempts| && (forall j :: 0 <= j < k ==> attempts[j].Err?) && FirstOk(attempts) == attempts[k]
    decreases |attempts|
  {
    if attempts[0].Err? {
      var rest := attempts[1..];
      FirstOkIsFirstSuccess(rest);
      var k :| 0 <= k < |rest| && (forall j :: 0 <= j < k ==> rest[j].Err?) && FirstOk(rest) == rest[k];
      assert rest[k] == attempts[k + 1];
      assert forall j :: 1 <= j < k + 1 ==> attempts[j] == rest[j - 1];
    }
  }

  /** One more attempt after a run of failures: it is the answer of the
      longer run, and the answer of the whole run when it succeeds. */
  lemma FirstOkStep(attempts: seq<Result<Quote, ApiError>>, k: nat)
    requires k < |attempts|
    requires k == 0 || FirstOk(attempts[..k]).Err?
    ensures FirstOk(attempts[..k + 1]) == attempts[k]
    ensures attempts[k].Ok? ==> FirstOk(attempts) == attempts[k]
  {
    var before := attempts[..k];
    var upTo := attempts[..k + 1];
    if k > 0 {
      FirstOkAllFail(before);
    }
    assert forall j :: 0 <= j < k ==> attempts[j] == before[j] && upTo[j] == before[j];
    if attempts[k].Ok? {
      FirstOkAt(upTo, k);
      FirstOkAt(attempts, k);
    } else {
      FirstOkAllFail(upTo);
    }
  }

  /** What _best_quote_safe returns or raises. */
  function SafeQuoteSpec(cfg: Config, env: Env, tokenIn: string, tokenOut: string, amount: real): Result<Quote, ApiError> {
    FirstOk(LadderQuotes(cfg, env, tokenIn, tokenOut, amount))
  }

  /** No ladder amount of a non-negative input exceeds the capped input by
      more than half a unit of the last place. */
  lemma LadderAmountBound(cfg: Config, amount: real, k: nat)
    requires amount >= 0.0 && k < |Ladder|
    ensures LadderAmounts(cfg, amount)[k] <= ClampHop(cfg.maxHopInput, amount) + 0.5 / Scale
  {
    var c := ClampHop(cfg.maxHopInput, amount);
    assert c >= 0.0;
    assert c * Ladder[k] <= c by {
      assert Ladder[k] == 1.0 || Ladder[k] == 0.5 || Ladder[k] == 0.2 || Ladder[k] == 0.1 || Ladder[k] == 0.05;
    }
  }

  /** A safe quote is for the requested tokens and for one of the ladder's
      amounts, every larger one having failed; it fails exactly when all
      five attempts fail, with the last attempt's error. */
  lemma SafeQuoteProperties(cfg: Config, env: Env, tokenIn: string, tokenOut: string, amount: real)
    ensures SafeQuoteSpec(cfg, env, tokenIn, tokenOut, amount).Ok? ==>
              && SafeQuoteSpec(cfg, env, tokenIn, tokenOut, amount).value.tokenIn == tokenIn
              && SafeQuoteSpec(cfg, env, tokenIn, tokenOut, amount).value.tokenOut == tokenOut
              && exists k :: 0 <= k < |Ladder|
                   && (forall j :: 0 <= j < k ==> BestQuoteSpec(cfg, env, tokenIn, tokenOut, LadderAmounts(cfg, amount)[j]).Err?)
                   && SafeQuoteSpec(cfg, env, tokenIn, tokenOut, amount) == BestQuoteSpec(cfg, env, tokenIn, tokenOut, LadderAmounts(cfg, amount)[k])
                   && SafeQuoteSpec(cfg, env, tokenIn, tokenOut, amount).value.amountIn == LadderAmounts(cfg, amount)[k]
    ensures SafeQuoteSpec(cfg, env, tokenIn, tokenOut, amount).Err? <==>
              forall k :: 0 <= k < |Ladder| ==> BestQuoteSpec(cfg, env, tokenIn, tokenOut, LadderAmounts(cfg, amount)[k]).Err?
    ensures SafeQuoteSpec(cfg, env, tokenIn, tokenOut, amount).Err? ==>
              SafeQuoteSpec(cfg, env, tokenIn, tokenOut, amount) == BestQuoteSpec(cfg, env, tokenIn, tokenOut, LadderAmounts(cfg, amount)[|Ladder| - 1])
  {
    var quotes := LadderQuotes(cfg, env, tokenIn, tokenOut, amount);
    var amounts := LadderAmounts(cfg, amount);
    FirstOkAllFail(quotes);
    if FirstOk(quotes).Ok? {
      FirstOkIsFirstSuccess(quotes);
      var k :| 0 <= k < |quotes| && (forall j :: 0 <= j < k ==> quotes[j].Err?) && FirstOk(quotes) == quotes[k];
      BestQuoteIsStrictMax(cfg, env, tokenIn, tokenOut, amounts[k]);
    }
  }

  /** A safe quote runs between the requested tokens. */
  lemma SafeQuoteTokens(cfg: Config, env: Env, tokenIn: string, tokenOut: string, amount: real)
    requires SafeQuoteSpec(cfg, env, tokenIn, tokenOut, amount).Ok?
    ensures SafeQuoteSpec(cfg, env, tokenIn, tokenOut, amount).value.tokenIn == tokenIn
    ensures SafeQuoteSpec(cfg, env, tokenIn, tokenOut, amount).value.tokenOut == tokenOut
  {
    SafeQuoteProperties(cfg, env, tokenIn, tokenOut, amount);
  }

  /** The shape of a safe quote, without the failed attempts before it. */
  lemma SafeQuoteEcho(cfg: Config, env: Env, tokenIn: string, tokenOut: string, amount: real)
    requires SafeQuoteSpec(cfg, env, tokenIn, tokenOut, amount).Ok?
    ensures SafeQuoteSpec(cfg, env, tokenIn, tokenOut, amount).value.tokenIn == tokenIn
    ensures SafeQuoteSpec(cfg, env, tokenIn, tokenOut, amount).value.tokenOut == tokenOut
    ensures SafeQuoteSpec(cfg, env, tokenIn, tokenOut, amount).value.amountIn in LadderAmounts(cfg, amount)
  {
    SafeQuoteProperties(cfg, env, tokenIn, tokenOut, amount);
  }

  lemma LadderAmountIs(cfg: Config, amount: real, amt0: real, k: int)
    requires amt0 == ClampHop(cfg.maxHopInput, amount) && 0 <= k < |Ladder|
    ensures Quantize8(amt0 * Ladder[k]) == LadderAmounts(cfg, amount)[k]
  {
  }

  /** _best_quote_safe: cap the input, then try the ladder of smaller
      amounts until best_quote succeeds; re-raise the last failure. */
  method BestQuoteSafe(cfg: Config, env: Env, tokenIn: string, tokenOut: string, amount: real) returns (r: Result<Quote, ApiError>)
    ensures r == SafeQuoteSpec(cfg, env, tokenIn, tokenOut, amount)
  {
    var amt0 := amount;
    if cfg.maxHopInput > 0.0 && amt0 > cfg.maxHopInput {
      amt0 := cfg.maxHopInput;
    }
    assert amt0 == ClampHop(cfg.maxHopInput, amount);
    ghost var amounts := LadderAmounts(cfg, amount);
    ghost var quotes := LadderQuotes(cfg, env, tokenIn, tokenOut, amount);
    var lastErr: ApiError := RuntimeError;
    for k := 0 to |Ladder|
      invariant k > 0 ==> FirstOk(quotes[..k]) == Err(lastErr)
    {
      var amtTry := Quantize8(amt0 * Ladder[k]);
      LadderAmountIs(cfg, amount, amt0, k);
      var q := BestQuote(cfg, env, tokenIn, tokenOut, amtTry);
      assert q == quotes[k];
      FirstOkStep(quotes, k);
      if q.Ok? {
        return q;
      }
      lastErr := q.error;
    }
    assert quotes[..|Ladder|] == quotes;
    return Err(lastErr);
  }

  // --------------------------------------------------------------- simulate

  /** The cycle rotated so that start comes first (seq.index: first match). */
  function Rotate(cycle: Triple, start: string): (t: Triple)
    requires start == cycle.0 || start == cycle.1 || start == cycle.2
    ensures t.0 == start
    ensures t == cycle || t == (cycle.1, cycle.2, cycle.0) || t == (cycle.2, cycle.0, cycle.1)
  {
    if start == cycle.0 then cycle
    else if start == cycle.1 then (cycle.1, cycle.2, cycle.0)
    else (cycle.2, cycle.0, cycle.1)
  }

  /** For a triangle of distinct tokens every rotation aligns to the same cycle. */
  lemma RotateOfRotation(cycle: Triple, start: string)
    requires cycle.0 != cycle.1 && cycle.1 != cycle.2 && cycle.2 != cycle.0
    requires start == cycle.0 || start == cycle.1 || start == cycle.2
    ensures Rotate((cycle.1, cycle.2, cycle.0), start) == Rotate(cycle, start)
    ensures Rotate((cycle.2, cycle.0, cycle.1), start) == Rotate(cycle, start)
  {
  }

  /** int(): truncation toward zero. */
  function TruncToInt(x: real): (r: int)
    ensures x >= 0.0 ==> r as real <= x < r as real + 1.0
    ensures x < 0.0 ==> r as real - 1.0 < x <= r as real
  {
    if x >= 0.0 then x.Floor else -((-x).Floor)
  }

  /** The gross profit in basis points, truncated toward zero. */
  function GrossBps(startAmount: real, finalAmount: real): int
    requires startAmount != 0.0
  {
    TruncToInt((finalAmount - startAmount) / startAmount * 10000.0)
  }

  /** With a positive stake, at least k >= 1 basis points are reported
      exactly when the final amount reaches start * (1 + k / 10000). */
  lemma GrossBpsThreshold(startAmount: real, finalAmount: real, k: int)
    requires startAmount > 0.0 && k >= 1
    ensures GrossBps(startAmount, finalAmount) >= k <==> finalAmount >= startAmount * (1.0 + k as real / 10000.0)
  {
    var g := (finalAmount - startAmount) / startAmount * 10000.0;
    assert finalAmount >= startAmount * (1.0 + k as real / 10000.0) <==> g >= k as real by {
      assert g * startAmount == (finalAmount - startAmount) * 10000.0;
    }
  }

  /** 100 -> 100.5 is 50 basis points. */
  lemma GrossBpsExample()
    ensures GrossBps(100.0, 100.5) == 50
  {
    assert (100.5 - 100.0) / 100.0 * 10000.0 == 50.0;
  }

  /** A loss of less than one basis point reads as 0, not -1: int()
      truncates where a floor would round down. */
  lemma GrossBpsTruncatesLosses()
    ensures GrossBps(100.0, 99.999) == 0
    ensures ((99.999 - 100.0) / 100.0 * 10000.0).Floor == -1
  {
    assert (99.999 - 100.0) / 100.0 * 10000.0 == -0.1;
  }

  function HopOf(q: Quote): (h: Hop)
    ensures h.tokenIn == q.tokenIn && h.tokenOut == q.tokenOut && h.fee == q.feeUsed.GetOr(0)
    ensures h.quoteIn == q.amountIn && h.quoteOut == q.amountOut && h.payload == None
  {
    Hop(q.tokenIn, q.tokenOut, q.feeUsed.GetOr(0), q.amountIn, q.amountOut, None)
  }

  /** What simulate_cycle returns or raises: Ok(None) when the start token is
      not in the cycle, a hop fails after all its back-offs or yields a
      non-positive amount; the only error escaping is the division by a zero
      start amount. */
  function SimulateSpec(cfg: Config, env: Env, cycle: Triple, start: string, amount: real): Result<Option<CycleResult>, ApiError> {
    if !(start == cycle.0 || start == cycle.1 || start == cycle.2) then Ok(None)
    else SimulateRotated(cfg, env, Rotate(cycle, start), amount)
  }

  /** The cycle already rotated: hop a -> b, then b -> c, then c -> a. */
  function SimulateRotated(cfg: Config, env: Env, t: Triple, amount: real): Result<Option<CycleResult>, ApiError> {
    var q1 := SafeQuoteSpec(cfg, env, t.0, t.1, amount);
    if q1.Err? || q1.value.amountOut <= 0.0 then Ok(None)
    else AfterFirstHop(cfg, env, t, amount, q1.value)
  }

  function AfterFirstHop(cfg: Config, env: Env, t: Triple, amount: real, q1: Quote): Result<Option<CycleResult>, ApiError> {
    var q2 := SafeQuoteSpec(cfg, env, t.1, t.2, q1.amountOut);
    if q2.Err? || q2.value.amountOut <= 0.0 then Ok(None)
    else AfterSecondHop(cfg, env, t, amount, q1, q2.value)
  }

  function AfterSecondHop(cfg: Config, env: Env, t: Triple, amount: real, q1: Quote, q2: Quote): Result<Option<CycleResult>, ApiError> {
    var q3 := SafeQuoteSpec(cfg, env, t.2, t.0, q2.amountOut);
    if q3.Err? || q3.value.amountOut <= 0.0 then Ok(None)
    else if amount == 0.0 then Err(DivisionByZero)
    else
      Ok(Some(CycleResult(
        [HopOf(q1), HopOf(q2), HopOf(q3.value)],
        t.0, amount, q3.value.amountOut,
        GrossBps(amount, q3.value.amountOut))))
  }

  /** The three quotes of a successful simulation, hop by hop. */
  lemma SimulatedHops(cfg: Config, env: Env, cycle: Triple, start: string, amount: real)
    requires SimulateSpec(cfg, env, cycle, start, amount).Ok?
    requires SimulateSpec(cfg, env, cycle, start, amount).value.Some?
    ensures (start == cycle.0 || start == cycle.1 || start == cycle.2) && amount != 0.0
    ensures SafeQuoteSpec(cfg, env, Rotate(cycle, start).0, Rotate(cycle, start).1, amount).Ok?
    ensures SafeQuoteSpec(cfg, env, Rotate(cycle, start).1, Rotate(cycle, start).2,
                          SafeQuoteSpec(cfg, env, Rotate(cycle, start).0, Rotate(cycle, start).1, amount).value.amountOut).Ok?
    ensures SafeQuoteSpec(cfg, env, Rotate(cycle, start).2, Rotate(cycle, start).0,
                          SafeQuoteSpec(cfg, env, Rotate(cycle, start).1, Rotate(cycle, start).2,
                            SafeQuoteSpec(cfg, env, Rotate(cycle, start).0, Rotate(cycle, start).1, amount).value.amountOut).value.amountOut).Ok?
    ensures SimulateSpec(cfg, env, cycle, start, amount).value.value.path ==
              [HopOf(SafeQuoteSpec(cfg, env, Rotate(cycle, start).0, Rotate(cycle, start).1, amount).value),
               HopOf(SafeQuoteSpec(cfg, env, Rotate(cycle, start).1, Rotate(cycle, start).2,
                       SafeQuoteSpec(cfg, env, Rotate(cycle, start).0, Rotate(cycle, start).1, amount).value.amountOut).value),
               HopOf(SafeQuoteSpec(cfg, env, Rotate(cycle, start).2, Rotate(cycle, start).0,
                       SafeQuoteSpec(cfg, env, Rotate(cycle, start).1, Rotate(cycle, start).2,
                         SafeQuoteSpec(cfg, env, Rotate(cycle, start).0, Rotate(cycle, start).1, amount).value.amountOut).value.amountOut).value)]
    ensures SimulateSpec(cfg, env, cycle, start, amount).value.value.startToken == Rotate(cycle, start).0
    ensures SimulateSpec(cfg, env, cycle, start, amount).value.value.startAmount == amount
    ensures SimulateSpec(cfg, env, cycle, start, amount).value.value.finalAmount ==
              SimulateSpec(cfg, env, cycle, start, amount).value.value.path[2].quoteOut
    ensures SimulateSpec(cfg, env, cycle, start, amount).value.value.grossProfitBps ==
              GrossBps(amount, SimulateSpec(cfg, env, cycle, start, amount).value.value.finalAmount)
    ensures forall i :: 0 <= i < 3 ==> SimulateSpec(cfg, env, cycle, start, amount).value.value.path[i].quoteOut > 0.0
  {
  }

  /** A simulated cycle leaves the start token and comes back to it through
      the other two tokens of the triangle, with positive outputs
      throughout, and its profit is measured against the caller's amount. */
  lemma SimulatedCycleShape(cfg: Config, env: Env, cycle: Triple, start: string, amount: real)
    requires SimulateSpec(cfg, env, cycle, start, amount).Ok?
    requires SimulateSpec(cfg, env, cycle, start, amount).value.Some?
    ensures var res := SimulateSpec(cfg, env, cycle, start, amount).value.value;
            && |res.path| == 3
            && res.startToken == start && res.startAmount == amount && amount != 0.0
            && res.path[0].tokenIn == start && res.path[2].tokenOut == start
            && res.path[0].tokenOut == res.path[1].tokenIn && res.path[1].tokenOut == res.path[2].tokenIn
            && (res.path[0].tokenIn, res.path[1].tokenIn, res.path[2].tokenIn) == Rotate(cycle, start)
            && (forall i :: 0 <= i < 3 ==> res.path[i].quoteOut > 0.0 && res.path[i].payload == None)
            && res.finalAmount == res.path[2].quoteOut
            && res.grossProfitBps == GrossBps(amount, res.finalAmount)
  {
    SimulatedHops(cfg, env, cycle, start, amount);
    var t := Rotate(cycle, start);
    var q1 := SafeQuoteSpec(cfg, env, t.0, t.1, amount);
    SafeQuoteTokens(cfg, env, t.0, t.1, amount);
    var q2 := SafeQuoteSpec(cfg, env, t.1, t.2, q1.value.amountOut);
    SafeQuoteTokens(cfg, env, t.1, t.2, q1.value.amountOut);
    var q3 := SafeQuoteSpec(cfg, env, t.2, t.0, q2.value.amountOut);
    SafeQuoteTokens(cfg, env, t.2, t.0, q2.value.amountOut);
  }

  /** Each hop of a simulated cycle is fed one of the ladder amounts of the
      previous hop's output (of the caller's amount, for the first hop). */
  lemma SimulatedCycleInputs(cfg: Config, env: Env, cycle: Triple, start: string, amount: real)
    requires SimulateSpec(cfg, env, cycle, start, amount).Ok?
    requires SimulateSpec(cfg, env, cycle, start, amount).value.Some?
    ensures var res := SimulateSpec(cfg, env, cycle, start, amount).value.value;
            && |res.path| == 3
            && res.path[0].quoteIn in LadderAmounts(cfg, amount)
            && res.path[1].quoteIn in LadderAmounts(cfg, res.path[0].quoteOut)
            && res.path[2].quoteIn in LadderAmounts(cfg, res.path[1].quoteOut)
  {
    SimulatedHops(cfg, env, cycle, start, amount);
    var t := Rotate(cycle, start);
    var q1 := SafeQuoteSpec(cfg, env, t.0, t.1, amount);
    SafeQuoteEcho(cfg, env, t.0, t.1, amount);
    var q2 := SafeQuoteSpec(cfg, env, t.1, t.2, q1.value.amountOut);
    SafeQuoteEcho(cfg, env, t.1, t.2, q1.value.amountOut);
    var q3 := SafeQuoteSpec(cfg, env, t.2, t.0, q2.value.amountOut);
    SafeQuoteEcho(cfg, env, t.2, t.0, q2.value.amountOut);
  }

  /** simulate_cycle never raises except for a zero start amount. */
  lemma SimulateOnlyDividesByZero(cfg: Config, env: Env, cycle: Triple, start: string, amount: real)
    ensures SimulateSpec(cfg, env, cycle, start, amount).Err? ==>
              SimulateSpec(cfg, env, cycle, start, amount).error == DivisionByZero && amount == 0.0
    ensures amount != 0.0 ==> SimulateSpec(cfg, env, cycle, start, amount).Ok?
    ensures !(start == cycle.0 || start == cycle.1 || start == cycle.2) ==> SimulateSpec(cfg, env, cycle, start, amount) == Ok(None)
  {
  }

  /** The three rotations of a triangle simulate identically from a start
      token they share. */
  lemma SimulateRotationInvariant(cfg: Config, env: Env, cycle: Triple, start: string, amount: real)
    requires cycle.0 != cycle.1 && cycle.1 != cycle.2 && cycle.2 != cycle.0
    ensures SimulateSpec(cfg, env, (cycle.1, cycle.2, cycle.0), start, amount) == SimulateSpec(cfg, env, cycle, start, amount)
    ensures SimulateSpec(cfg, env, (cycle.2, cycle.0, cycle.1), start, amount) == SimulateSpec(cfg, env, cycle, start, amount)
  {
    if start == cycle.0 || start == cycle.1 || start == cycle.2 {
      RotateOfRotation(cycle, start);
    }
  }

  /** simulate_cycle: three safe quotes around the rotated triangle. */
  method SimulateCycle(cfg: Config, env: Env, cycle: Triple, start: string, amount: real) returns (r: Result<Option<CycleResult>, ApiError>)
    ensures r == SimulateSpec(cfg, env, cycle, start, amount)
  {
    if !(start == cycle.0 || start == cycle.1 || start == cycle.2) {
      return Ok(None);
    }
    var t := Rotate(cycle, start);
    assert SimulateSpec(cfg, env, cycle, start, amount) == SimulateRotated(cfg, env, t, amount);
    var q1 := BestQuoteSafe(cfg, env, t.0, t.1, amount);
    if q1.Err? || q1.value.amountOut <= 0.0 {
      return Ok(None);
    }
    assert SimulateRotated(cfg, env, t, amount) == AfterFirstHop(cfg, env, t, amount, q1.value);
    var q2 := BestQuoteSafe(cfg, env, t.1, t.2, q1.value.amountOut);
    if q2.Err? || q2.value.amountOut <= 0.0 {
      return Ok(None);
    }
    assert AfterFirstHop(cfg, env, t, amount, q1.value) == AfterSecondHop(cfg, env, t, amount, q1.value, q2.value);
    r := FinishCycle(cfg, env, t, amount, q1.value, q2.value);
  }

  /** The closing hop c -> a and the profit of the cycle. */
  method FinishCycle(cfg: Config, env: Env, t: Triple, amount: real, q1: Quote, q2: Quote) returns (r: Result<Option<CycleResult>, ApiError>)
    ensures r == AfterSecondHop(cfg, env, t, amount, q1, q2)
  {
    var q3 := BestQuoteSafe(cfg, env, t.2, t.0, q2.amountOut);
    if q3.Err? || q3.value.amountOut <= 0.0 {
      return Ok(None);
    }
    var hops := [HopOf(q1), HopOf(q2), HopOf(q3.value)];
    var finalAmount := q3.value.amountOut;
    if amount == 0.0 {
      return Err(DivisionByZero);
    }
    var grossBps := TruncToInt((finalAmount - amount) / amount * 10000.0);
    return Ok(Some(CycleResult(hops, t.0, amount, finalAmount, grossBps)));
  }

  // --------------------------------------------------------------- payloads

  /** One hop with its swap payload attached. */
  function PrepareHop(cfg: Config, env: Env, hop: Hop, slippageBps: int): Result<Hop, ApiError> {
    match BuildSwapPayload(cfg, env, hop.tokenIn, hop.tokenOut, hop.quoteIn, hop.quoteOut, hop.fee, slippageBps)
    case Err(e) => Err(e)
    case Ok(p) => Ok(hop.(payload := Some(p)))
  }

  /** The values of a run of results, up to the first error, which propagates. */
  function CollectOk<T>(results: seq<Result<T, ApiError>>): Result<seq<T>, ApiError>
    decreases |results|
  {
    if results == [] then Ok([])
    else
      match CollectOk(results[..|results| - 1])
      case Err(e) => Err(e)
      case Ok(pre) =>
        match results[|results| - 1]
        case Err(e) => Err(e)
        case Ok(x) => Ok(pre + [x])
  }

  lemma {:induction false} CollectOkValues<T>(results: seq<Result<T, ApiError>>)
    ensures CollectOk(results).Ok? <==> forall i :: 0 <= i < |results| ==> results[i].Ok?
    ensures CollectOk(results).Ok? ==>
              |CollectOk(results).value| == |results|
              && forall i :: 0 <= i < |results| ==> results[i] == Ok(CollectOk(results).value[i])
    decreases |results|
  {
    if results != [] {
      var n := |results| - 1;
      var pre := results[..n];
      CollectOkValues(pre);
      assert forall i :: 0 <= i < n ==> pre[i] == results[i];
      if CollectOk(results).Ok? {
        var prev := CollectOk(pre).value;
        assert CollectOk(results).value == prev + [results[n].value];
      }
    }
  }

  lemma {:induction false} CollectOkFirstError<T>(results: seq<Result<T, ApiError>>)
    requires CollectOk(results).Err?
    ensures exists k :: 0 <= k < |results| && (forall j :: 0 <= j < k ==> results[j].Ok?)
                        && results[k] == Err(CollectOk(results).error)
    decreases |results|
  {
    var n := |results| - 1;
    var pre := results[..n];
    assert forall i :: 0 <= i < n ==> pre[i] == results[i];
    if CollectOk(pre).Err? {
      CollectOkFirstError(pre);
      var k :| 0 <= k < |pre| && (forall j :: 0 <= j < k ==> pre[j].Ok?) && pre[k] == Err(CollectOk(pre).error);
      assert results[k] == pre[k];
    } else {
      CollectOkValues(pre);
    }
  }

  /** Once a prefix fails, every longer run fails with the same error. */
  lemma {:induction false} CollectOkSticky<T>(results: seq<Result<T, ApiError>>, k: nat)
    requires k <= |results|
    requires CollectOk(results[..k]).Err?
    ensures CollectOk(results) == CollectOk(results[..k])
    decreases |results|
  {
    if k < |results| {
      var n := |results| - 1;
      assert results[..n][..k] == results[..k];
      CollectOkSticky(results[..n], k);
    } else {
      assert results[..k] == results;
    }
  }

  /** Each hop of the path with its payload attached, or the error building it. */
  function PreparedHops(cfg: Config, env: Env, path: seq<Hop>, slippageBps: int): (results: seq<Result<Hop, ApiError>>)
    ensures |results| == |path|
    ensures forall i :: 0 <= i < |path| ==> results[i] == PrepareHop(cfg, env, path[i], slippageBps)
  {
    seq(|path|, i requires 0 <= i < |path| => PrepareHop(cfg, env, path[i], slippageBps))
  }

  /** What prepare_payloads returns or raises: the first failure of
      build_swap_payload propagates. */
  function PrepareSpec(cfg: Config, env: Env, path: seq<Hop>, slippageBps: int): Result<seq<Hop>, ApiError> {
    CollectOk(PreparedHops(cfg, env, path, slippageBps))
  }

  /** A prepared hop keeps its tokens, fee and amounts and carries the
      payload built for them. */
  lemma PrepareHopFields(cfg: Config, env: Env, hop: Hop, slippageBps: int)
    ensures PrepareHop(cfg, env, hop, slippageBps).Ok? <==>
              BuildSwapPayload(cfg, env, hop.tokenIn, hop.tokenOut, hop.quoteIn, hop.quoteOut, hop.fee, slippageBps).Ok?
    ensures PrepareHop(cfg, env, hop, slippageBps).Ok? ==>
              PrepareHop(cfg, env, hop, slippageBps).value
              == Hop(hop.tokenIn, hop.tokenOut, hop.fee, hop.quoteIn, hop.quoteOut,
                     Some(BuildSwapPayload(cfg, env, hop.tokenIn, hop.tokenOut, hop.quoteIn, hop.quoteOut, hop.fee, slippageBps).value))
  {
  }

  /** Preparation succeeds exactly when every hop's payload builds; the
      prepared hops are then the path's hops, in order, with payloads; a
      failure is the error of the first hop that does not build. */
  lemma PrepareProperties(cfg: Config, env: Env, path: seq<Hop>, slippageBps: int)
    ensures PrepareSpec(cfg, env, path, slippageBps).Ok? <==> forall i :: 0 <= i < |path| ==> PrepareHop(cfg, env, path[i], slippageBps).Ok?
    ensures PrepareSpec(cfg, env, path, slippageBps).Ok? ==>
              |PrepareSpec(cfg, env, path, slippageBps).value| == |path|
              && forall i :: 0 <= i < |path| ==> PrepareHop(cfg, env, path[i], slippageBps) == Ok(PrepareSpec(cfg, env, path, slippageBps).value[i])
    ensures PrepareSpec(cfg, env, path, slippageBps).Err? ==>
              exists k :: 0 <= k < |path| && (forall j :: 0 <= j < k ==> PrepareHop(cfg, env, path[j], slippageBps).Ok?)
                          && PrepareHop(cfg, env, path[k], slippageBps) == Err(PrepareSpec(cfg, env, path, slippageBps).error)
  {
    var results := PreparedHops(cfg, env, path, slippageBps);
    CollectOkValues(results);
    if CollectOk(results).Err? {
      CollectOkFirstError(results);
    }
  }

  /** Every prepared hop carries a payload. */
  lemma PreparedCarryPayloads(cfg: Config, env: Env, path: seq<Hop>, slippageBps: int)
    requires PrepareSpec(cfg, env, path, slippageBps).Ok?
    ensures forall i :: 0 <= i < |PrepareSpec(cfg, env, path, slippageBps).value| ==>
              PrepareSpec(cfg, env, path, slippageBps).value[i].payload.Some?
  {
    PrepareProperties(cfg, env, path, slippageBps);
  }

  /** One more success extends the collected values. */
  lemma CollectOkExtend<T>(results: seq<Result<T, ApiError>>, i: nat, pre: seq<T>)
    requires i < |results| && CollectOk(results[..i]) == Ok(pre) && results[i].Ok?
    ensures CollectOk(results[..i + 1]) == Ok(pre + [results[i].value])
  {
    assert results[..i + 1][..i] == results[..i];
  }

  /** prepare_payloads: build each hop's payload in path order. */
  method PreparePayloads(cfg: Config, env: Env, res: CycleResult, slippageBps: int) returns (r: Result<seq<Hop>, ApiError>)
    ensures r == PrepareSpec(cfg, env, res.path, slippageBps)
  {
    ghost var results := PreparedHops(cfg, env, res.path, slippageBps);
    var prepared: seq<Hop> := [];
    for i := 0 to |res.path|
      invariant CollectOk(results[..i]) == Ok(prepared)
    {
      var hop := res.path[i];
      var payload := BuildSwapPayload(cfg, env, hop.tokenIn, hop.tokenOut, hop.quoteIn, hop.quoteOut, hop.fee, slippageBps);
      if payload.Err? {
        assert results[..i + 1][..i] == results[..i];
        CollectOkSticky(results, i + 1);
        assert results[..|results|] == results;
        return Err(payload.error);
      }
      CollectOkExtend(results, i, prepared);
      prepared := prepared + [Hop(hop.tokenIn, hop.tokenOut, hop.fee, hop.quoteIn, hop.quoteOut, Some(payload.value))];
    }
    assert results[..|results|] == results;
    return Ok(prepared);
  }

}
