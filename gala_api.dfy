/** The exchange client: symbol resolution, fee-tier candidates, quotes and
    the best quote across fee tiers, swap payload construction with slippage
    bounds, composite-key splitting and payload sanitisation before signing.
    The network, the hash and the signature scheme are oracles (Env). */
module GalaApi {
  import opened Wrappers
  import opened Config

  /** The exceptions of the client, by the Python class they stand for. */
  datatype ApiError =
    | HttpError              // requests.HTTPError raised by raise_for_status
    | TransportError         // timeout or connection failure: a RequestException that is not an HTTPError
    | ValueError             // zero amountOut, malformed composite key, empty or unusable private key
    | KeyError(symbol: string) // no composite key configured for a symbol
    | RuntimeError           // best_quote: no fee tier produced a quote
    | DivisionByZero         // profit of a cycle simulated from a zero start amount

  /** What the quote endpoint answers; a missing amountOut is reported as 0. */
  datatype QuoteResponse =
    | Quoted(amountOut: real, fee: Option<int>)
    | QuoteHttpFailure
    | QuoteTransportFailure

  /** What the swap endpoint answers: the unsigned payload to sign. */
  datatype SwapResponse = SwapData(payload: Payload) | SwapHttpFailure | SwapTransportFailure

  /** What the bundle endpoint answers: the transaction id it carries, which
      JSON may leave null. */
  datatype SendResponse = Sent(txId: Option<string>) | SendFailed

  datatype StatusResponse = Status(status: string) | StatusFailed

  /** A payload is an opaque JSON object; its values are kept serialised. */
  type Payload = map<string, string>

  datatype Quote = Quote(tokenIn: string, tokenOut: string, amountIn: real, amountOut: real, feeUsed: Option<int>)

  /** The request body sent to the swap endpoint. */
  datatype SwapBody = SwapBody(
    tokenIn: TokenKeyObj,
    tokenOut: TokenKeyObj,
    amountIn: real,
    amountOut: real,
    fee: int,
    sqrtPriceLimit: string,
    amountInMaximum: real,
    amountOutMinimum: real
  )

  datatype TokenKeyObj = TokenKeyObj(collection: string, category: string, tokenType: string, additionalKey: string)

  /** The collaborators: quote endpoint (composite keys, amount, fee), swap
      endpoint, keccak-256 + ECDSA over the canonical JSON of a payload
      (None when the key material is rejected), bundle endpoint (payload,
      type label, signature, user) and status endpoint. */
  datatype Env = Env(
    quote: (string, string, real, Option<int>) -> QuoteResponse,
    swap: SwapBody -> SwapResponse,
    sign: (Payload, string) -> Option<string>,
    send: (Payload, string, string, string) -> SendResponse,
    status: string -> StatusResponse
  )

  // ---------------------------------------------------------------- symbols

  /** _ckey: the composite key of a symbol, KeyError when unknown. */
  function Ckey(cfg: Config, symbol: string): (r: Result<string, ApiError>)
    ensures r.Ok? <==> symbol in cfg.tokenKeys
    ensures r.Ok? ==> r.value == cfg.tokenKeys[symbol]
    ensures r.Err? ==> r.error == KeyError(symbol)
  {
    if symbol in cfg.tokenKeys then Ok(cfg.tokenKeys[symbol]) else Err(KeyError(symbol))
  }

  /** The shipped aliases resolve to the same composite key as the token
      they stand for. */
  lemma CkeyAliases(cfg: Config)
    requires cfg.tokenKeys == DefaultTokenKeys()
    ensures Ckey(cfg, "USDC") == Ckey(cfg, "GUSDC") == Ok("GUSDC$Unit$none$none")
    ensures Ckey(cfg, "USDT") == Ckey(cfg, "GUSDT") == Ok("GUSDT$Unit$none$none")
    ensures Ckey(cfg, "BTC") == Err(KeyError("BTC"))
  {
  }

  // -------------------------------------------------------------- fee tiers

  /** The override list of an ordered pair; absent counts as empty. */
  function Override(cfg: Config, a: string, b: string): seq<int> {
    if (a, b) in cfg.poolFeeOverride then cfg.poolFeeOverride[(a, b)] else []
  }

  /** _fees_for_pair: the override of (a, b), else that of (b, a), else the
      fallback tiers; Python's `or` skips an empty list as well as None. */
  function FeesForPair(cfg: Config, a: string, b: string): (fees: seq<int>)
    ensures Override(cfg, a, b) != [] ==> fees == Override(cfg, a, b)
    ensures Override(cfg, a, b) == [] && Override(cfg, b, a) != [] ==> fees == Override(cfg, b, a)
    ensures Override(cfg, a, b) == [] && Override(cfg, b, a) == [] ==> fees == cfg.fallbackFeeTiers
  {
    if Override(cfg, a, b) != [] then Override(cfg, a, b)
    else if Override(cfg, b, a) != [] then Override(cfg, b, a)
    else cfg.fallbackFeeTiers
  }

  /** With at most one ordering of a pair overridden, both directions get
      the same candidate tiers. */
  lemma FeesForPairSymmetric(cfg: Config, a: string, b: string)
    requires Override(cfg, a, b) == [] || Override(cfg, b, a) == []
    ensures FeesForPair(cfg, a, b) == FeesForPair(cfg, b, a)
  {
  }

  // ----------------------------------------------------------------- quotes

  /** get_quote: resolve both symbols, ask the endpoint, refuse a zero
      amount, echo the requested amount and prefer the endpoint's fee. */
  function GetQuote(cfg: Config, env: Env, tokenIn: string, tokenOut: string, amountIn: real, fee: Option<int>): (r: Result<Quote, ApiError>)
    ensures r.Ok? ==> r.value.tokenIn == tokenIn && r.value.tokenOut == tokenOut
    ensures r.Ok? ==> r.value.amountIn == amountIn && r.value.amountOut != 0.0
    ensures r.Ok? <==> (tokenIn in cfg.tokenKeys && tokenOut in cfg.tokenKeys
                        && var resp := env.quote(cfg.tokenKeys[tokenIn], cfg.tokenKeys[tokenOut], amountIn, fee);
                           resp.Quoted? && resp.amountOut != 0.0)
    ensures r.Ok? ==> (var resp := env.quote(cfg.tokenKeys[tokenIn], cfg.tokenKeys[tokenOut], amountIn, fee);
                       r.value.amountOut == resp.amountOut
                       && r.value.feeUsed == (if resp.fee.Some? then resp.fee else fee))
    ensures r.Err? ==> r.error != RuntimeError && r.error != DivisionByZero
    ensures r == Err(ValueError) <==> (tokenIn in cfg.tokenKeys && tokenOut in cfg.tokenKeys
                                      && var resp := env.quote(cfg.tokenKeys[tokenIn], cfg.tokenKeys[tokenOut], amountIn, fee);
                                         resp.Quoted? && resp.amountOut == 0.0)
  {
    match Ckey(cfg, tokenIn)
    case Err(e) => Err(e)
    case Ok(keyIn) =>
      match Ckey(cfg, tokenOut)
      case Err(e) => Err(e)
      case Ok(keyOut) =>
        match env.quote(keyIn, keyOut, amountIn, fee)
        case QuoteHttpFailure => Err(HttpError)
        case QuoteTransportFailure => Err(TransportError)
        case Quoted(amountOut, respFee) =>
          if amountOut == 0.0 then Err(ValueError)
          else Ok(Quote(tokenIn, tokenOut, amountIn, amountOut, if respFee.Some? then respFee else fee))
  }

  /** The exceptions best_quote swallows. */
  predicate Caught(e: ApiError) {
    e.HttpError? || e.ValueError?
  }

  /** One fee tier's attempt inside best_quote. */
  function Attempt(cfg: Config, env: Env, tokenIn: string, tokenOut: string, amountIn: real, fee: int): Result<Quote, ApiError> {
    GetQuote(cfg, env, tokenIn, tokenOut, amountIn, Some(fee))
  }

  /** The attempts best_quote makes, one per fee tier, in order. */
  function Attempts(cfg: Config, env: Env, tokenIn: string, tokenOut: string, amountIn: real, fees: seq<int>): (attempts: seq<Result<Quote, ApiError>>)
    ensures |attempts| == |fees|
    ensures forall i :: 0 <= i < |fees| ==> attempts[i] == Attempt(cfg, env, tokenIn, tokenOut, amountIn, fees[i])
  {
    seq(|fees|, i requires 0 <= i < |fees| => Attempt(cfg, env, tokenIn, tokenOut, amountIn, fees[i]))
  }

  /** best_quote's loop state after the given attempts: the best quote so far
      (replaced only by a strictly larger amountOut), or the first error it
      does not catch. */
  function FoldAttempts(attempts: seq<Result<Quote, ApiError>>): Result<Option<Quote>, ApiError>
    decreases |attempts|
  {
    if attempts == [] then Ok(None)
    else
      var prev := FoldAttempts(attempts[..|attempts| - 1]);
      if prev.Err? then prev
      else
        match attempts[|attempts| - 1]
        case Ok(q) =>
          if prev.value.None? || q.amountOut > prev.value.value.amountOut then Ok(Some(q)) else prev
        case Err(e) => if Caught(e) then prev else Err(e)
  }

  function FoldQuotes(cfg: Config, env: Env, tokenIn: string, tokenOut: string, amountIn: real, fees: seq<int>): Result<Option<Quote>, ApiError> {
    FoldAttempts(Attempts(cfg, env, tokenIn, tokenOut, amountIn, fees))
  }

  /** What best_quote returns or raises. */
  function BestQuoteSpec(cfg: Config, env: Env, tokenIn: string, tokenOut: string, amountIn: real): Result<Quote, ApiError> {
    match FoldQuotes(cfg, env, tokenIn, tokenOut, amountIn, FeesForPair(cfg, tokenIn, tokenOut))
    case Err(e) => Err(e)
    case Ok(None) => Err(RuntimeError)
    case Ok(Some(q)) => Ok(q)
  }

  /** A successful fold saw no uncaught error; it is empty only when every
      attempt failed. */
  lemma {:induction false} FoldAttemptsOk(attempts: seq<Result<Quote, ApiError>>)
    requires FoldAttempts(attempts).Ok?
    ensures forall i :: 0 <= i < |attempts| ==> attempts[i].Ok? || Caught(attempts[i].error)
    ensures FoldAttempts(attempts).value.None? <==> forall i :: 0 <= i < |attempts| ==> attempts[i].Err?
    decreases |attempts|
  {
    if attempts != [] {
      var n := |attempts| - 1;
      var pre := attempts[..n];
      FoldAttemptsOk(pre);
      assert forall i :: 0 <= i < n ==> pre[i] == attempts[i];
    }
  }

  /** attempts[j] succeeded, with an output strictly greater than every
      earlier success and at least that of every later one. */
  ghost predicate IsStrictMaxAt(attempts: seq<Result<Quote, ApiError>>, j: int) {
    && 0 <= j < |attempts| && attempts[j].Ok?
    && (forall i :: 0 <= i < j && attempts[i].Ok? ==> attempts[i].value.amountOut < attempts[j].value.amountOut)
    && (forall i :: j < i < |attempts| && attempts[i].Ok? ==> attempts[i].value.amountOut <= attempts[j].value.amountOut)
  }

  /** A successful, non-empty fold holds the earliest attempt with the
      strictly largest amountOut. */
  lemma {:induction false} FoldAttemptsBest(attempts: seq<Result<Quote, ApiError>>)
    requires FoldAttempts(attempts).Ok? && FoldAttempts(attempts).value.Some?
    ensures exists j :: IsStrictMaxAt(attempts, j) && attempts[j] == Ok(FoldAttempts(attempts).value.value)
    decreases |attempts|
  {
    var n := |attempts| - 1;
    var pre := attempts[..n];
    var prev := FoldAttempts(pre);
    if prev.value.Some? {
      FoldAttemptsBest(pre);
      var j :| IsStrictMaxAt(pre, j) && pre[j] == Ok(prev.value.value);
      if attempts[n].Ok? && attempts[n].value.amountOut > pre[j].value.amountOut {
        StrictMaxReplaced(attempts, j);
      } else {
        StrictMaxKept(attempts, j);
      }
    } else {
      FoldAttemptsOk(pre);
      assert forall i :: 0 <= i < n ==> pre[i] == attempts[i];
      assert IsStrictMaxAt(attempts, n);
    }
  }

  /** A strictly greater last output becomes the new best. */
  lemma StrictMaxReplaced(attempts: seq<Result<Quote, ApiError>>, j: int)
    requires |attempts| > 0 && IsStrictMaxAt(attempts[..|attempts| - 1], j)
    requires FoldAttempts(attempts[..|attempts| - 1]) == Ok(Some(attempts[j].value))
    requires attempts[|attempts| - 1].Ok? && attempts[|attempts| - 1].value.amountOut > attempts[j].value.amountOut
    ensures IsStrictMaxAt(attempts, |attempts| - 1)
    ensures FoldAttempts(attempts) == Ok(Some(attempts[|attempts| - 1].value))
  {
    var n := |attempts| - 1;
    assert forall i :: 0 <= i < n ==> attempts[i] == attempts[..n][i];
  }

  /** Otherwise the best so far stays. */
  lemma StrictMaxKept(attempts: seq<Result<Quote, ApiError>>, j: int)
    requires |attempts| > 0 && IsStrictMaxAt(attempts[..|attempts| - 1], j)
    requires FoldAttempts(attempts[..|attempts| - 1]) == Ok(Some(attempts[j].value))
    requires FoldAttempts(attempts).Ok?
    requires !(attempts[|attempts| - 1].Ok? && attempts[|attempts| - 1].value.amountOut > attempts[j].value.amountOut)
    ensures IsStrictMaxAt(attempts, j)
    ensures FoldAttempts(attempts) == Ok(Some(attempts[j].value))
  {
    var n := |attempts| - 1;
    assert forall i :: 0 <= i < n ==> attempts[i] == attempts[..n][i];
  }

  /** The fold stops at the first attempt raising an error best_quote does
      not catch, and raises exactly that error. */
  lemma {:induction false} FoldAttemptsUncaught(attempts: seq<Result<Quote, ApiError>>)
    requires FoldAttempts(attempts).Err?
    ensures !Caught(FoldAttempts(attempts).error)
    ensures exists k :: 0 <= k < |attempts| && attempts[k] == Err(FoldAttempts(attempts).error)
              && forall i :: 0 <= i < k ==> attempts[i].Ok? || Caught(attempts[i].error)
    decreases |attempts|
  {
    var n := |attempts| - 1;
    var pre := attempts[..n];
    var prev := FoldAttempts(pre);
    assert forall i :: 0 <= i < n ==> pre[i] == attempts[i];
    if prev.Err? {
      FoldAttemptsUncaught(pre);
    } else {
      FoldAttemptsOk(pre);
    }
  }

  /** Once the fold has raised, later attempts do not change the outcome. */
  lemma {:induction false} FoldAttemptsSticky(attempts: seq<Result<Quote, ApiError>>, k: nat)
    requires k <= |attempts|
    requires FoldAttempts(attempts[..k]).Err?
    ensures FoldAttempts(attempts) == FoldAttempts(attempts[..k])
    decreases |attempts|
  {
    if k < |attempts| {
      var n := |attempts| - 1;
      assert attempts[..n][..k] == attempts[..k];
      FoldAttemptsSticky(attempts[..n], k);
    } else {
      assert attempts[..k] == attempts;
    }
  }

  /** best_quote returns the earliest strictly largest quote among the fee
      tiers that answered, and that quote is for the requested amount. */
  lemma BestQuoteIsStrictMax(cfg: Config, env: Env, tokenIn: string, tokenOut: string, amountIn: real)
    requires BestQuoteSpec(cfg, env, tokenIn, tokenOut, amountIn).Ok?
    ensures BestQuoteSpec(cfg, env, tokenIn, tokenOut, amountIn).value.tokenIn == tokenIn
    ensures BestQuoteSpec(cfg, env, tokenIn, tokenOut, amountIn).value.tokenOut == tokenOut
    ensures BestQuoteSpec(cfg, env, tokenIn, tokenOut, amountIn).value.amountIn == amountIn
    ensures exists j :: 0 <= j < |FeesForPair(cfg, tokenIn, tokenOut)|
              && Attempt(cfg, env, tokenIn, tokenOut, amountIn, FeesForPair(cfg, tokenIn, tokenOut)[j]) == BestQuoteSpec(cfg, env, tokenIn, tokenOut, amountIn)
              && (forall i :: 0 <= i < j && Attempt(cfg, env, tokenIn, tokenOut, amountIn, FeesForPair(cfg, tokenIn, tokenOut)[i]).Ok? ==>
                    Attempt(cfg, env, tokenIn, tokenOut, amountIn, FeesForPair(cfg, tokenIn, tokenOut)[i]).value.amountOut
                    < BestQuoteSpec(cfg, env, tokenIn, tokenOut, amountIn).value.amountOut)
              && (forall i :: j < i < |FeesForPair(cfg, tokenIn, tokenOut)| && Attempt(cfg, env, tokenIn, tokenOut, amountIn, FeesForPair(cfg, tokenIn, tokenOut)[i]).Ok? ==>
                    Attempt(cfg, env, tokenIn, tokenOut, amountIn, FeesForPair(cfg, tokenIn, tokenOut)[i]).value.amountOut
                    <= BestQuoteSpec(cfg, env, tokenIn, tokenOut, amountIn).value.amountOut)
  {
    var fees := FeesForPair(cfg, tokenIn, tokenOut);
    var attempts := Attempts(cfg, env, tokenIn, tokenOut, amountIn, fees);
    FoldAttemptsBest(attempts);
    var j :| IsStrictMaxAt(attempts, j) && attempts[j] == BestQuoteSpec(cfg, env, tokenIn, tokenOut, amountIn);
  }

  /** best_quote raises RuntimeError exactly when every fee tier failed with
      an error it catches; any other error is the first uncaught one. */
  lemma BestQuoteFailure(cfg: Config, env: Env, tokenIn: string, tokenOut: string, amountIn: real)
    ensures BestQuoteSpec(cfg, env, tokenIn, tokenOut, amountIn) == Err(RuntimeError) <==>
              forall i :: 0 <= i < |FeesForPair(cfg, tokenIn, tokenOut)| ==>
                Attempt(cfg, env, tokenIn, tokenOut, amountIn, FeesForPair(cfg, tokenIn, tokenOut)[i]).Err?
                && Caught(Attempt(cfg, env, tokenIn, tokenOut, amountIn, FeesForPair(cfg, tokenIn, tokenOut)[i]).error)
    ensures BestQuoteSpec(cfg, env, tokenIn, tokenOut, amountIn).Err? ==>
              BestQuoteSpec(cfg, env, tokenIn, tokenOut, amountIn).error == RuntimeError
              || !Caught(BestQuoteSpec(cfg, env, tokenIn, tokenOut, amountIn).error)
  {
    var fees := FeesForPair(cfg, tokenIn, tokenOut);
    var attempts := Attempts(cfg, env, tokenIn, tokenOut, amountIn, fees);
    var f := FoldAttempts(attempts);
    if f.Ok? {
      FoldAttemptsOk(attempts);
    } else {
      FoldAttemptsUncaught(attempts);
      var k :| 0 <= k < |attempts| && attempts[k] == Err(f.error);
    }
  }

  /** best_quote: try every candidate fee tier in order. */
  method BestQuote(cfg: Config, env: Env, tokenIn: string, tokenOut: string, amountIn: real) returns (r: Result<Quote, ApiError>)
    ensures r == BestQuoteSpec(cfg, env, tokenIn, tokenOut, amountIn)
  {
    var fees := FeesForPair(cfg, tokenIn, tokenOut);
    ghost var attempts := Attempts(cfg, env, tokenIn, tokenOut, amountIn, fees);
    var best: Option<Quote> := None;
    var i := 0;
    while i < |fees|
      invariant 0 <= i <= |fees|
      invariant FoldAttempts(attempts[..i]) == Ok(best)
    {
      assert attempts[..i + 1][..i] == attempts[..i];
      var q := GetQuote(cfg, env, tokenIn, tokenOut, amountIn, Some(fees[i]));
      assert attempts[i] == q;
      if q.Ok? {
        if best.None? || q.value.amountOut > best.value.amountOut {
          best := Some(q.value);
        }
      } else if !Caught(q.error) {
        FoldAttemptsSticky(attempts, i + 1);
        assert attempts[..|attempts|] == attempts;
        return Err(q.error);
      }
      i := i + 1;
    }
    assert attempts[..i] == attempts;
    if best.None? {
      return Err(RuntimeError);
    }
    return Ok(best.value);
  }

  // ------------------------------------------------------------- slippage

  /** amountOutMinimum: quotedOut * (1 - s / 10000). */
  function OutMin(quotedOut: real, slippageBps: int): real {
    quotedOut * (1.0 - slippageBps as real / 10000.0)
  }

  /** amountInMaximum: amountIn * (1 + s / 10000). */
  function InMax(amountIn: real, slippageBps: int): real {
    amountIn * (1.0 + slippageBps as real / 10000.0)
  }

  /** For a tolerance between 0 and 100%, the bounds bracket the quote, and
      a zero tolerance makes them exact. */
  lemma SlippageBounds(quotedOut: real, amountIn: real, slippageBps: int)
    requires 0 <= slippageBps <= 10000
    requires quotedOut >= 0.0 && amountIn >= 0.0
    ensures 0.0 <= OutMin(quotedOut, slippageBps) <= quotedOut
    ensures InMax(amountIn, slippageBps) >= amountIn
    ensures slippageBps == 0 ==> OutMin(quotedOut, slippageBps) == quotedOut && InMax(amountIn, slippageBps) == amountIn
  {
    var f := slippageBps as real / 10000.0;
    assert 0.0 <= f <= 1.0;
    assert OutMin(quotedOut, slippageBps) == quotedOut - quotedOut * f;
    assert 0.0 <= quotedOut * f <= quotedOut;
    assert InMax(amountIn, slippageBps) == amountIn + amountIn * f;
    assert amountIn * f >= 0.0;
  }

  // --------------------------------------------------------- composite keys

  /** str.split("$"): always at least one part; empty parts are kept. */
  function Split(s: string): (parts: seq<string>)
    ensures |parts| >= 1
  {
    if s == [] then [""]
    else
      var rest := Split(s[1..]);
      if s[0] == '$' then [""] + rest else [[s[0]] + rest[0]] + rest[1..]
  }

  /** "$".join(parts). */
  function Join(parts: seq<string>): string
    requires |parts| >= 1
  {
    if |parts| == 1 then parts[0] else parts[0] + "$" + Join(parts[1..])
  }

  lemma {:induction false} JoinSplit(s: string)
    ensures Join(Split(s)) == s
    ensures forall i :: 0 <= i < |Split(s)| ==> '$' !in Split(s)[i]
  {
    if s != [] {
      JoinSplit(s[1..]);
      var rest := Split(s[1..]);
      if s[0] != '$' {
        var parts := [[s[0]] + rest[0]] + rest[1..];
        assert parts[1..] == rest[1..];
        if |rest| > 1 {
          assert Join(rest) == rest[0] + "$" + Join(rest[1..]);
        }
        assert Join(parts) == [s[0]] + Join(rest);
      } else {
        assert ([""] + rest)[1..] == rest;
      }
    }
  }

  lemma SplitCons(c: char, s: string)
    ensures Split([c] + s) == if c == '$' then [""] + Split(s) else [[c] + Split(s)[0]] + Split(s)[1..]
  {
    assert ([c] + s)[1..] == s;
  }

  lemma {:induction false} SplitJoin(parts: seq<string>)
    requires |parts| >= 1
    requires forall i :: 0 <= i < |parts| ==> '$' !in parts[i]
    ensures Split(Join(parts)) == parts
    decreases |parts|, |parts[0]|
  {
    if |parts| == 1 {
      SplitNoDelimiter(parts[0]);
    } else if parts[0] == "" {
      var rest := parts[1..];
      assert Join(parts) == [] + "$" + Join(rest);
      assert Join(parts) == ['$'] + Join(rest);
      SplitCons('$', Join(rest));
      SplitJoin(rest);
      assert [""] + rest == parts;
    } else {
      var c := parts[0][0];
      var tail := parts[0][1..];
      assert c in parts[0];
      assert '$' !in tail by {
        forall x | x in tail ensures x != '$' { assert x in parts[0]; }
      }
      var shorter := [tail] + parts[1..];
      assert shorter[1..] == parts[1..];
      var j := Join(parts[1..]);
      assert Join(shorter) == tail + "$" + j;
      assert parts[0] == [c] + tail;
      assert Join(parts) == [c] + Join(shorter);
      SplitJoin(shorter);
      SplitCons(c, Join(shorter));
      assert [[c] + tail] + parts[1..] == parts;
    }
  }

  lemma {:induction false} SplitNoDelimiter(s: string)
    requires '$' !in s
    ensures Split(s) == [s]
  {
    if s != [] {
      assert '$' !in s[1..] by {
        forall c | c in s[1..] ensures c != '$' { assert c in s; }
      }
      SplitNoDelimiter(s[1..]);
      assert s[0] in s;
      assert [s[0]] + s[1..] == s;
    }
  }

  function JoinKeyObj(k: TokenKeyObj): string {
    k.collection + "$" + k.category + "$" + k.tokenType + "$" + k.additionalKey
  }

  /** _ckey_obj (the definition in effect): exactly four parts, else
      ValueError; joining the fields again gives back the key. */
  function CkeyObj(compositeKey: string): (r: Result<TokenKeyObj, ApiError>)
    ensures r.Ok? <==> |Split(compositeKey)| == 4
    ensures r.Err? ==> r.error == ValueError
    ensures r.Ok? ==> JoinKeyObj(r.value) == compositeKey
    ensures r.Ok? ==> '$' !in r.value.collection && '$' !in r.value.category
                      && '$' !in r.value.tokenType && '$' !in r.value.additionalKey
  {
    var parts := Split(compositeKey);
    if |parts| != 4 then Err(ValueError)
    else
      JoinSplit(compositeKey);
      assert parts[1..][1..] == parts[2..] && parts[2..][1..] == parts[3..];
      assert Join(parts[3..]) == parts[3];
      assert Join(parts[2..]) == parts[2] + "$" + parts[3];
      assert Join(parts[1..]) == parts[1] + "$" + (parts[2] + "$" + parts[3]);
      assert Join(parts) == parts[0] + "$" + (parts[1] + "$" + (parts[2] + "$" + parts[3]));
      assert 0 <= 0 < |parts| && 0 <= 1 < |parts| && 0 <= 2 < |parts| && 0 <= 3 < |parts|;
      Ok(TokenKeyObj(parts[0], parts[1], parts[2], parts[3]))
  }

  /** The converse round trip: fields free of '$' survive joining and
      splitting. */
  lemma CkeyObjOfJoin(k: TokenKeyObj)
    requires '$' !in k.collection && '$' !in k.category && '$' !in k.tokenType && '$' !in k.additionalKey
    ensures CkeyObj(JoinKeyObj(k)) == Ok(k)
  {
    var parts := [k.collection, k.category, k.tokenType, k.additionalKey];
    assert Join(parts[3..]) == k.additionalKey;
    assert Join(parts[2..]) == k.tokenType + "$" + k.additionalKey;
    assert Join(parts[1..]) == k.category + "$" + (k.tokenType + "$" + k.additionalKey);
    assert Join(parts) == JoinKeyObj(k);
    SplitJoin(parts);
  }

  // ----------------------------------------------------------- swap payload

  /** The key object of a symbol: KeyError, then ValueError, as the two
      nested calls raise them. */
  function TokenObj(cfg: Config, symbol: string): (r: Result<TokenKeyObj, ApiError>)
    ensures r.Ok? <==> symbol in cfg.tokenKeys && |Split(cfg.tokenKeys[symbol])| == 4
    ensures r.Ok? ==> JoinKeyObj(r.value) == cfg.tokenKeys[symbol]
    ensures r.Err? ==> r.error == (if symbol in cfg.tokenKeys then ValueError else KeyError(symbol))
  {
    match Ckey(cfg, symbol)
    case Err(e) => Err(e)
    case Ok(key) => CkeyObj(key)
  }

  /** The body build_swap_payload posts: it echoes amountIn, amountOut (the
      quoted output) and fee, fixes sqrtPriceLimit to "0" and carries the two
      slippage bounds. */
  function SwapBodyFor(cfg: Config, tokenIn: string, tokenOut: string, amountIn: real, quotedOut: real, fee: int, slippageBps: int): (r: Result<SwapBody, ApiError>)
    ensures r.Ok? <==> TokenObj(cfg, tokenIn).Ok? && TokenObj(cfg, tokenOut).Ok?
    ensures r.Err? ==> r.error == (if TokenObj(cfg, tokenIn).Err? then TokenObj(cfg, tokenIn).error else TokenObj(cfg, tokenOut).error)
    ensures r.Ok? ==> JoinKeyObj(r.value.tokenIn) == cfg.tokenKeys[tokenIn] && JoinKeyObj(r.value.tokenOut) == cfg.tokenKeys[tokenOut]
    ensures r.Ok? ==> r.value.amountIn == amountIn && r.value.amountOut == quotedOut && r.value.fee == fee
                      && r.value.sqrtPriceLimit == "0"
                      && r.value.amountOutMinimum == OutMin(quotedOut, slippageBps)
                      && r.value.amountInMaximum == InMax(amountIn, slippageBps)
  {
    match TokenObj(cfg, tokenIn)
    case Err(e) => Err(e)
    case Ok(objIn) =>
      match TokenObj(cfg, tokenOut)
      case Err(e) => Err(e)
      case Ok(objOut) =>
        Ok(SwapBody(objIn, objOut, amountIn, quotedOut, fee, "0", InMax(amountIn, slippageBps), OutMin(quotedOut, slippageBps)))
  }

  /** build_swap_payload: post the body and return the payload to sign. */
  function BuildSwapPayload(cfg: Config, env: Env, tokenIn: string, tokenOut: string, amountIn: real, quotedOut: real, fee: int, slippageBps: int): (r: Result<Payload, ApiError>)
    ensures r.Ok? <==> SwapBodyFor(cfg, tokenIn, tokenOut, amountIn, quotedOut, fee, slippageBps).Ok?
                       && env.swap(SwapBodyFor(cfg, tokenIn, tokenOut, amountIn, quotedOut, fee, slippageBps).value).SwapData?
    ensures r.Ok? ==> env.swap(SwapBodyFor(cfg, tokenIn, tokenOut, amountIn, quotedOut, fee, slippageBps).value) == SwapData(r.value)
    ensures r.Err? && SwapBodyFor(cfg, tokenIn, tokenOut, amountIn, quotedOut, fee, slippageBps).Ok? ==>
              r.error == HttpError || r.error == TransportError
  {
    match SwapBodyFor(cfg, tokenIn, tokenOut, amountIn, quotedOut, fee, slippageBps)
    case Err(e) => Err(e)
    case Ok(body) =>
      match env.swap(body)
      case SwapData(payload) => Ok(payload)
      case SwapHttpFailure => Err(HttpError)
      case SwapTransportFailure => Err(TransportError)
  }

  // ---------------------------------------------------------------- signing

  /** The copy sign_payload hashes: the payload without "signature" and
      "trace"; every other key keeps its value. */
  function Sanitize(payload: Payload): (r: Payload)
    ensures r.Keys == payload.Keys - {"signature", "trace"}
    ensures forall k :: k in r ==> r[k] == payload[k]
  {
    payload - {"signature", "trace"}
  }

  lemma SanitizeIdempotent(payload: Payload)
    ensures Sanitize(Sanitize(payload)) == Sanitize(payload)
  {
  }

  /** sign_payload: an empty key is refused before anything else; otherwise
      the signature is over the sanitised copy. */
  function SignPayload(env: Env, payload: Payload, privateKeyHex: string): (r: Result<string, ApiError>)
    ensures privateKeyHex == "" ==> r == Err(ValueError)
    ensures privateKeyHex != "" ==> (r.Ok? <==> env.sign(Sanitize(payload), privateKeyHex).Some?)
    ensures r.Ok? ==> env.sign(Sanitize(payload), privateKeyHex) == Some(r.value)
    ensures r.Err? ==> r.error == ValueError
  {
    if privateKeyHex == "" then Err(ValueError)
    else
      match env.sign(Sanitize(payload), privateKeyHex)
      case None => Err(ValueError)
      case Some(sig) => Ok(sig)
  }

  /** Two payloads that differ only in "signature" and "trace" get the same
      signature: the transient fields never reach the signer. */
  lemma SignIgnoresTransientFields(env: Env, p: Payload, q: Payload, privateKeyHex: string)
    requires p - {"signature", "trace"} == q - {"signature", "trace"}
    ensures SignPayload(env, p, privateKeyHex) == SignPayload(env, q, privateKeyHex)
  {
  }
}
