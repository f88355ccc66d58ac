# GalaDex arbitrage engine — a Dafny model

This project models the arbitrage engine of the GalaDex triangular-arbitrage
bot. That engine is everything between the GalaSwap quote service and the
bundle endpoint:

- **pool discovery**: every configured pair and fee tier is probed once per
  canonical key (the unordered pair plus the fee). A combination is kept
  only when its probe returned a quote;
- **triangle enumeration**: a directed adjacency map is built from the
  active pools, and every directed 3-cycle is emitted in all three
  rotations, de-duplicated in first-seen order;
- **cycle simulation**: the best fee tier per hop is taken, with the
  strictly largest output and the earliest tier on ties. The hop amount is
  clamped and retried down the ladder 1, 0.5, 0.2, 0.1, 0.05, each step
  quantised to 8 decimals. The cycle is rotated to the start token, three
  quotes are chained, and the profit is computed in truncated basis points;
- **selection and the profit gate**: this is one pass of the bot's main
  loop. It covers the pool-refresh rule, the cap on cycles examined, the
  strictly-best cycle, the `MIN_PROFIT_BPS + PROFIT_BUFFER_BPS` gate and the
  dry-run report;
- **payloads and execution**: this covers the slippage bounds, the split
  of `$`-separated composite token keys, and the removal of `signature` and
  `trace` before signing. Hops are submitted in order; each hop tries the
  type labels `swap` and then `Swap`, and submission stops at the first hop
  that got no transaction id.

The network and cryptography are oracles, held as fields of `GalaApi.Env`:

| field | models |
|---|---|
| `quote` | the quote endpoint |
| `swap` | the swap-payload builder |
| `sign` | canonical JSON + keccak-256 + ECDSA signing of the sanitised payload |
| `send` | the bundle endpoint |
| `status` | the transaction-status endpoint |

Each oracle names every outcome the code distinguishes, such as an HTTP
error, a transport error, or a missing field. Python exceptions become
`Result` values carrying an `ApiError`. `Decimal` amounts are exact `real`s.

Modules:

| module | file | models |
|---|---|---|
| `Wrappers` | `wrappers.dfy` | `Option` and `Result` |
| `Config` | `config.dfy` | the configuration record and its defaults |
| `GalaApi` | `gala_api.dfy` | `gala/gala_api.py` |
| `Discovery` | `discovery.dfy` | `ActivePool` and pool discovery |
| `Triangles` | `triangles.dfy` | triangle enumeration |
| `Simulation` | `simulation.dfy` | the safe quote, cycle simulation and payload preparation |
| `Bot` | `bot.dfy` | `main.py`: startup, selection, gate, submission, and the scanner with its state |

Each loop in the source is a `method` with invariants. Most of these
methods are proved equal to a recursive specification function, and the
properties are lemmas about that function. The exception is
`Triangles.EnumerateTriangles`, which iterates Python sets: it is specified
by relations, namely membership, duplicate-freedom, rotation closure and
the grouping of its rotations. The main loop's state (`scan_count`,
`active_pools`) lives in the class `Bot.Scanner`.

## Model

| member | source | states |
|---|---|---|
| `Config.DefaultConfig` | gala/config.py:186 | The default pool-refresh interval (10 scans) is positive, so a scanner can be built from the defaults. |
| `GalaApi.Ckey` | gala/gala_api.py:37-41 | A known symbol resolves to its configured key. An unknown symbol is a KeyError naming that symbol. |
| `GalaApi.CkeyAliases` | gala/config.py:54-62 | With the default table, USDC and GUSDC give the same composite key, USDT and GUSDT likewise, and an unlisted symbol is a KeyError. |
| `GalaApi.FeesForPair` | gala/gala_api.py:43-46 | The fee list is the non-empty override for (a,b). Failing that, it is the non-empty override for (b,a). Otherwise it is the fallback tiers. An empty override falls through. |
| `GalaApi.FeesForPairSymmetric` | gala/gala_api.py:43-46 | When at most one ordering of the pair is overridden, the fee list is the same in both directions. |
| `GalaApi.GetQuote` | gala/gala_api.py:49-72 | It succeeds exactly when both symbols are known, the oracle answers with an amount, and that amount is non-zero. The quote echoes the tokens and amountIn. The fee used is the response's fee, or else the requested one. An amountOut of 0 is exactly the ValueError case. It never yields RuntimeError. |
| `GalaApi.FoldAttemptsOk` | gala/gala_api.py:74-85 | A fold that did not raise saw only successes and caught errors. It finds no quote exactly when every attempt failed. The converse, that only an uncaught error makes the fold raise, is `GalaApi.FoldAttemptsUncaught`. |
| `GalaApi.FoldAttemptsBest` | gala/gala_api.py:74-85 | The quote kept is a successful attempt. Its output is strictly larger than every earlier success and at least every later one, so ties keep the earliest tier. |
| `GalaApi.FoldAttemptsUncaught` | gala/gala_api.py:77-81 | An error that escapes the fee loop is not an HTTP or value error. It is the error of one of the attempts. |
| `GalaApi.FoldAttemptsSticky` | gala/gala_api.py:77-81 | After an uncaught error, later fee tiers do not change the outcome. |
| `GalaApi.BestQuoteIsStrictMax` | gala/gala_api.py:74-85 | A best quote echoes the tokens and amountIn. It is the strictly-first maximum over the fee candidates for the pair. |
| `GalaApi.BestQuoteFailure` | gala/gala_api.py:80-85 | It is RuntimeError exactly when every fee attempt failed with a caught error. Any other failure is an error the fee loop does not catch; which attempt raised it is stated by `GalaApi.FoldAttemptsUncaught`. |
| `GalaApi.BestQuote` | gala/gala_api.py:74-85 | The loop over fee tiers computes the fold, and the fold's properties are the lemmas above. |
| `GalaApi.SlippageBounds` | gala/gala_api.py:98-99 | For 0 ≤ s ≤ 10000 and non-negative amounts, 0 ≤ out_min ≤ quoted_out and in_max ≥ amount_in. Both bounds are equalities when s = 0. |
| `GalaApi.Split` | gala/gala_api.py:167 | Splitting on '$' always yields at least one part. |
| `GalaApi.JoinSplit` | gala/gala_api.py:167 | Joining the parts with '$' gives back the string, and no part contains '$'. |
| `GalaApi.SplitJoin` | gala/gala_api.py:167 | Splitting a '$'-join of '$'-free parts gives back the parts. |
| `GalaApi.SplitNoDelimiter` | gala/gala_api.py:167 | A string without '$' splits into itself alone. |
| `GalaApi.CkeyObj` | gala/gala_api.py:165-175 | It succeeds exactly when there are 4 '$'-separated parts; otherwise it is a ValueError. Joining the four fields with '$' reproduces the key, and no field of the result contains '$'. |
| `GalaApi.CkeyObjOfJoin` | gala/gala_api.py:165-175 | Parsing the join of four '$'-free fields gives back those fields. |
| `GalaApi.TokenObj` | gala/gala_api.py:102-103 | It resolves a symbol to its key object. An unknown symbol is a KeyError; a malformed key is a ValueError. The object joins back to the configured key. |
| `GalaApi.SwapBodyFor` | gala/gala_api.py:97-111 | The body exists exactly when both token keys parse, and it carries their errors otherwise. It echoes amountIn, amountOut (the quoted output) and fee. It holds the slippage bounds and sqrtPriceLimit "0". |
| `GalaApi.BuildSwapPayload` | gala/gala_api.py:88-119 | The payload is the swap oracle's answer to that body. An HTTP or transport failure is a distinct error. |
| `GalaApi.Sanitize` | gala/gala_api.py:126-129 | The keys are exactly the payload's keys minus "signature" and "trace", and every kept value is unchanged. |
| `GalaApi.SanitizeIdempotent` | gala/gala_api.py:126-129 | Sanitising twice is the same as sanitising once. |
| `GalaApi.SignPayload` | gala/gala_api.py:122-142 | An empty key is a ValueError. With a non-empty key, signing succeeds exactly when the signer accepts the sanitised payload, and the signature is what the signer returns. Every failure raises, and nothing on the submission path catches it. |
| `GalaApi.SignIgnoresTransientFields` | gala/gala_api.py:126-131 | Payloads that differ only in "signature" and "trace" get the same signature. |
| `Discovery.ActivePool.GetOther` | gala/strategies.py:20-28 | It succeeds exactly when the token is in the pool, and otherwise is a ValueError. The result is the other token of the pool. |
| `Discovery.GetOtherInvolution` | gala/strategies.py:23-28 | For a token in the pool, applying get_other twice gives the token back. |
| `Discovery.FeeProbes` | gala/strategies.py:58-60 | One probe per fee tier, in order, for the given direction. |
| `Discovery.DiscoverActivePools` | gala/strategies.py:50-77 | The nested loops over pairs, directions and fees compute the discovery fold. The fold returns the active pools and the probes sent. |
| `Discovery.ProbePair` | gala/strategies.py:55-76 | Both directions of one pair are processed, appending their probes to the run. |
| `Discovery.ProbeDirection` | gala/strategies.py:58-76 | All the fee candidates of one direction are processed, appending them to the run. |
| `Discovery.ProbesOfSnoc` | gala/strategies.py:55-57 | The candidates of one more pair are its two directions, appended. |
| `Discovery.RunFromConcat` | gala/strategies.py:58-76 | Running two candidate lists in turn is the same as running their concatenation. |
| `Discovery.RunFromGrowth` | gala/strategies.py:62-67 | The seen set only grows. Every candidate's key ends up in it, and every probe issued comes from the candidates. |
| `Discovery.RunFromSkip` | gala/strategies.py:62-64 | Candidates whose keys are all already seen change nothing. |
| `Discovery.RunSnoc` | gala/strategies.py:58-76 | One more candidate is one more step of the loop. |
| `Discovery.RunSeen` | gala/strategies.py:62-67 | The seen set holds exactly the keys of the candidates. |
| `Discovery.RunIssued` | gala/strategies.py:62-69 | A probe is issued exactly when it is the first candidate of its key. The issued probes have pairwise distinct keys. |
| `Discovery.RunActive` | gala/strategies.py:69-76 | The active list is the issued probes whose quote succeeded, in order. |
| `Discovery.SurvivorsMembers` | gala/strategies.py:69-76 | A pool survives exactly when some issued probe for it returned a quote. |
| `Discovery.SurvivorsKeysDistinct` | gala/strategies.py:62-76 | Distinct probe keys give distinct pool keys. |
| `Discovery.ProbesOfMembers` | gala/strategies.py:55-60 | Every candidate's fee is in the fee list for its direction, and its pair is configured in one orientation or the other. |
| `Discovery.DiscoveredDistinct` | gala/strategies.py:57-67 | No (sorted pair, fee) key is probed twice. No two discovered pools share the unordered pair and fee. |
| `Discovery.DiscoveredExactly` | gala/strategies.py:62-76 | A pool is discovered exactly when it is the first candidate of its key and its probe returned a quote. A failing probe adds nothing and does not propagate. |
| `Discovery.DiscoveredPoolsValid` | gala/strategies.py:58-72 | Every discovered pool answered its probe for the liquidity-check amount. Its fee is in the fee list for its direction, and its pair is configured. |
| `Discovery.PairProbesOneWay` | gala/strategies.py:57-67 | When both directions of a pair share one fee list, the second direction issues no probe: every key it would use is already seen. |
| `Discovery.ReverseNeverProbedUpTo` | gala/strategies.py:55-67 | Under the one-ordering override condition, the probes issued for the first m pairs run in the orientation of a configured pair. |
| `Discovery.ReverseNeverProbed` | gala/strategies.py:57-67 | When each configured pair has at most one ordering overridden, every probe sent runs a→b for a configured (a, b). The reverse b→a is never probed. |
| `Triangles.AdjacencyEdges` | gala/strategies.py:105-107 | b is in adj[a] exactly when some active pool has token_a = a and token_b = b. |
| `Triangles.DedupProperties` | gala/strategies.py:129-130 | Order-preserving de-duplication keeps exactly the same members and leaves no duplicate. |
| `Triangles.BuildAdjacency` | gala/strategies.py:105-110 | The setdefault/add loop builds the adjacency map. `list(adj.keys())` gives the first elements of the pools in first-seen order, which is dict insertion order. |
| `Triangles.EmitAll` | gala/strategies.py:112-126 | The triple loops emit exactly the directed triangles, rotations included, as consecutive groups (a,b,c), (b,c,a), (c,a,b). |
| `Triangles.EmitFrom` | gala/strategies.py:113-126 | Only whole rotation groups of triangles are appended, and earlier output is a prefix of the result. Every triangle starting at a is emitted. |
| `Triangles.EmitThrough` | gala/strategies.py:116-126 | Only whole rotation groups of triangles are appended, and earlier output is a prefix of the result. Every triangle starting a→b is emitted. |
| `Triangles.EnumerateTriangles` | gala/strategies.py:99-130 | A triple is returned exactly when a→b, b→c and c→a are edges and a, b, c are pairwise distinct. The output has no duplicates, is closed under rotation, and is empty for empty pools. It is the first-seen de-duplication of a list of rotation groups (a,b,c), (b,c,a), (c,a,b) that holds exactly the triangles. Which list that is depends on set iteration order. |
| `Triangles.GroupOfThree` | gala/strategies.py:122-126 | The three rotations that one `rotations.extend` appends form one group. |
| `Triangles.GroupedAppend` | gala/strategies.py:122-126 | Appending groups to a list of groups keeps it a list of groups. |
| `Simulation.Quantize8` | gala/strategies.py:150 | The result lies on the 10^-8 grid, within half a step of the input. |
| `Simulation.QuantizeKeepsGrid` | gala/strategies.py:150 | A value already on the grid is unchanged. |
| `Simulation.QuantizeTiesToEven` | gala/strategies.py:150 | An exact half step rounds to the even neighbour. |
| `Simulation.QuantizeExamples` | gala/strategies.py:150 | 0.000000125 quantises to 0.00000012 and 0.000000135 to 0.00000014. |
| `Simulation.ClampHop` | gala/strategies.py:144-146 | The amount is capped at MAX_HOP_INPUT only when that value is positive, and is otherwise unchanged. |
| `Simulation.LadderAmounts` | gala/strategies.py:148-150 | The five tries are the quantised products of the clamped amount with 1, 0.5, 0.2, 0.1 and 0.05, in that order. |
| `Simulation.LadderQuotes` | gala/strategies.py:148-152 | Try k is best_quote on ladder amount k. |
| `Simulation.FirstOkAt` | gala/strategies.py:151-153 | If every try before k failed and try k succeeded, the result is try k. |
| `Simulation.FirstOkAllFail` | gala/strategies.py:151-155 | The ladder fails exactly when every try failed, and then it re-raises the last error. |
| `Simulation.FirstOkIsFirstSuccess` | gala/strategies.py:151-155 | The result is the outcome of some try k such that every earlier try failed. |
| `Simulation.LadderAmountBound` | gala/strategies.py:144-150 | No try exceeds the clamped amount by more than half a quantisation step. |
| `Simulation.SafeQuoteProperties` | gala/strategies.py:134-155 | A success is a ladder amount's best quote, with every larger try having failed, and it echoes the tokens. It fails exactly when all five tries fail, with the last error. |
| `Simulation.SafeQuoteTokens` | gala/strategies.py:134-155 | A successful safe quote runs from tokenIn to tokenOut. |
| `Simulation.SafeQuoteEcho` | gala/strategies.py:134-155 | A successful safe quote runs from tokenIn to tokenOut, and its input is one of the ladder amounts. |
| `Simulation.LadderAmountIs` | gala/strategies.py:148-150 | The amount the loop quantises at step k is ladder amount k. |
| `Simulation.BestQuoteSafe` | gala/strategies.py:134-155 | The ladder loop with last_err computes the first-success fold of the ladder quotes. |
| `Simulation.Rotate` | gala/strategies.py:166-170 | The result starts at the start token and is the cycle or one of its rotations. |
| `Simulation.RotateOfRotation` | gala/strategies.py:166-170 | Every rotation of a cycle rotates to the same triple. |
| `Simulation.TruncToInt` | gala/strategies.py:208 | Python int(): a real truncated toward zero. |
| `Simulation.GrossBpsThreshold` | gala/strategies.py:206-208 | For a positive amount and an integer threshold k ≥ 1, the truncated bps is ≥ k exactly when final ≥ amount·(1 + k/10000). At k = 0, truncation would also admit losses under 1 bp. |
| `Simulation.GrossBpsExample` | gala/strategies.py:206-208 | 100 → 100.5 gives 50 bps. |
| `Simulation.GrossBpsTruncatesLosses` | gala/strategies.py:206-208 | 100 → 99.999 gives 0, where flooring would give -1. |
| `Simulation.HopOf` | gala/strategies.py:202-204 | A Hop copies the quote's tokens, fee (0 when absent) and amounts, and carries no payload. |
| `Simulation.SimulatedHops` | gala/strategies.py:163-213 | A simulated cycle is made of three successful safe quotes. Each is requested with the previous output; the path is built from those quotes and the bps from the last output. |
| `Simulation.SimulatedCycleShape` | gala/strategies.py:163-213 | A result has three hops, and they chain start→…→start along the rotated cycle. Every output is positive and there is no payload. The start amount is the caller's amount, and the bps is measured against it. |
| `Simulation.SimulatedCycleInputs` | gala/strategies.py:175-199 | Each hop is requested with a ladder amount of the previous hop's output; the first uses the caller's amount. |
| `Simulation.SimulateOnlyDividesByZero` | gala/strategies.py:159-208 | Outside the cycle the result is None. Failed quotes and non-positive outputs give None, not an exception. The only error escaping is the division by a zero amount. |
| `Simulation.SimulateRotationInvariant` | gala/strategies.py:166-170 | All three rotations of a cycle simulate identically. |
| `Simulation.SimulateCycle` | gala/strategies.py:159-213 | Computes the simulation function. |
| `Simulation.FinishCycle` | gala/strategies.py:190-213 | The third hop and the result assembly compute the last stage of the simulation function. |
| `Simulation.CollectOkValues` | gala/strategies.py:218-235 | Collecting succeeds exactly when every item succeeds, and it keeps their values in order. |
| `Simulation.CollectOkFirstError` | gala/strategies.py:218-235 | A failure is the error of the first failing item. |
| `Simulation.CollectOkSticky` | gala/strategies.py:218-235 | The items after the first failure do not matter. |
| `Simulation.PreparedHops` | gala/strategies.py:218-234 | One payload build per hop, in order. |
| `Simulation.PrepareHopFields` | gala/strategies.py:219-234 | A prepared hop copies the tokens, fee and amounts and carries the built payload. The build fails exactly when the payload build fails. |
| `Simulation.PrepareProperties` | gala/strategies.py:216-235 | Preparation succeeds exactly when every hop's build succeeds. The hops then have the same length and order, the same fields, and a payload attached. Otherwise the first failing build's error escapes. |
| `Simulation.PreparedCarryPayloads` | gala/strategies.py:227-234 | Every prepared hop carries a payload. |
| `Simulation.PreparePayloads` | gala/strategies.py:216-235 | The append loop computes the preparation function. |
| `Bot.StartupExitCode` | main.py:16-22 | The only exit code at startup is 2. |
| `Bot.StartupGuards` | main.py:16-22 | A missing user address returns 2, even in dry run, and so does live mode with an empty private key. Passing startup in live mode means signing cannot fail for an empty key. |
| `Bot.Examined` | main.py:52 | The examined triangles are the prefix of length MAX_CYCLES_PER_SCAN, or all of them when there are that few. |
| `Bot.CandidateFromStart` | main.py:52-56 | A candidate comes from a triangle whose first element is START_TOKEN. It is simulated from START_AMOUNT along the triangle as listed. |
| `Bot.Candidates` | main.py:52-64 | One candidate per examined triangle, in order. |
| `Bot.BestOfExists` | main.py:50-70 | Some best exists exactly when some candidate is viable. |
| `Bot.BestOfIsEarliestMax` | main.py:50-64 | The best has strictly greater bps than every earlier candidate and at least that of every later one, so ties keep the earliest. |
| `Bot.EarliestMaxReplaced` | main.py:62-64 | A later candidate with strictly greater bps replaces the best. |
| `Bot.EarliestMaxKept` | main.py:62-64 | A later candidate with no greater bps keeps the best. |
| `Bot.SelectExists` | main.py:50-70 | Selection finds a cycle exactly when some examined triangle simulates successfully. |
| `Bot.SelectBest` | main.py:49-64 | The selection loop with best computes the earliest-max of the candidates of the examined triangles. |
| `Bot.DefaultGate` | main.py:75-80 | With the default thresholds 20 + 10, 29 bps is rejected and 30 accepted. |
| `Bot.GateOnAmounts` | main.py:75-80 | For a positive amount and a threshold of at least 1 bp, the gate passes exactly when the final amount reaches amount·(1 + threshold/10000). |
| `Bot.DryRunMinOutIsPayloadBound` | main.py:86-89 | The dry-run minOut equals the payload's amountOutMinimum for that hop. |
| `Bot.SendWithLabels` | main.py:100-108 | At most one send per label, and at least one send when there is a label. |
| `Bot.LabelFallback` | main.py:100-108 | "swap" is tried; "Swap" only if that raised; both failing is no id. An empty id from a send that did not raise is still a success. |
| `Bot.SendBundle` | main.py:100-108 | The label loop with tx_id and last_err computes the label fallback. |
| `Bot.SubmitIsPrefix` | main.py:95-114 | The ids returned belong to a prefix of the hops, in order. A shorter list means the next hop got no id. |
| `Bot.SubmitSignError` | main.py:96-98 | A signing error escapes from the first hop whose signing failed. Every earlier hop was delivered with an id. |
| `Bot.SubmitStopsAtFailedHop` | main.py:109-112 | After a hop with no id, later hops are never signed or sent, and nothing is rolled back. |
| `Bot.SubmitIgnoresStatus` | main.py:116-122 | The status check changes neither the ids nor the progress. This is a framing fact: the submission function never reads the status oracle. The loop itself is tied to that function by `Bot.SubmitHops`. |
| `Bot.SubmitHops` | main.py:95-122 | The hop loop with break computes the submission function. |
| `Bot.RefreshSchedule` | main.py:32-33 | Pools are rediscovered at scan 0 and then every k scans, never in between, where k is the magnitude of POOL_REFRESH_INTERVAL. A negative interval gives the same zero test as its magnitude. |
| `Bot.ScanGate` | main.py:66-92 | A scan reaches the gate only with the selected best cycle, which starts at START_TOKEN. It trades exactly when the gate passes. A dry run stops at the report and a live run submits the prepared hops. |
| `Bot.FoldQuotesQuoteOnly` | gala/gala_api.py:74-85 | The fee fold reads the quote oracle only. This is a framing fact. |
| `Bot.SafeQuoteQuoteOnly` | gala/strategies.py:134-155 | The safe quote reads the quote oracle only. This is a framing fact. |
| `Bot.SimulateQuoteOnly` | gala/strategies.py:159-213 | Simulation reads the quote oracle only. This is a framing fact. |
| `Bot.SelectQuoteOnly` | main.py:50-64 | Selection reads the quote oracle only. This is a framing fact. |
| `Bot.PrepareSwapOnly` | gala/strategies.py:216-235 | Preparation reads the swap oracle only. This is a framing fact. |
| `Bot.DryRunNeverSigns` | main.py:86-92 | In dry run the scan does not depend on the signer, the sender or the status check, so it never signs or sends. This is a framing fact. |
| `Bot.Trade` | main.py:75-126 | The gate, preparation, dry-run report and submission compute the trade stage of a scan. |
| `Bot.Scanner.constructor` | main.py:26-27 | A scanner starts at scan 0 with no active pools. |
| `Bot.Scanner.Scan` | main.py:28-126 | One pass replaces the pools when a refresh is due and re-enumerates the triangles. Its outcome is the scan function. scan_count goes up by exactly 1 on every path that does not raise. |
| `Bot.ScanPools` | main.py:35-126 | On the pools of the pass: no pools, no triangles, no viable cycle, or the trade. The triangles are a listing enumerate_triangles can give, and the outcome is the scan function of the pools and that listing. |
| `Bot.RunBot` | main.py:16-126 | A startup failure returns 2 and does no scanning. Otherwise scans run until the inputs end or one raises. The run log (`RunLog`) holds one entry per scan (`LoggedAt`). Scan i runs in envs[i] with scan count i, on the pools that scan i-1 left (none for scan 0). Its pools are those the refresh rule gives, its triangles are a listing enumerate_triangles can give for them (the de-duplication of a listing of the triangles in rotation groups), and its outcome is the scan function of those. The scan count is the number of passes that completed. |
| `Bot.RunLogSnoc` | main.py:26-126 | One more pass, logged against the previous pass's pools, extends the log. |

## Left out

- HTTP transport, URLs, `raise_for_status` and JSON parsing: the quote,
  swap-build, send and status endpoints are oracle functions in `Env`, each
  returning the outcomes the code tells apart.
- `json.dumps` canonical encoding, keccak-256 and ECDSA: the signer is an
  oracle applied to the sanitised payload.
- `time.sleep`, the endless `while True` loop and `sys.exit`. `Bot.RunBot`
  runs one scan per element of a finite list of environments, and its exit
  code is a return value.
- All `print` output, including the fixed GUSDC–GALA–GWETH diagnostic block
  (gala/strategies.py:79-94): it only prints.
- Environment-variable parsing in gala/config.py. The settings are the
  record `Config.Config`, with the file's defaults in
  `Config.DefaultConfig`. A `POOL_REFRESH_INTERVAL` of 0 is excluded,
  because `scan_count % 0` raises `ZeroDivisionError` on the first pass; the
  model does not show that crash. Negative intervals are modelled.
- `MAX_HOP_INPUT` is read by gala/strategies.py:140-142 but not defined in
  gala/config.py, so its default is 0 and clamping is off. It is a field of
  the configuration record.
- The first `_ckey_obj` (gala/gala_api.py:16-19): it is shadowed by the
  definition at line 165, so it is dead code.
- Decimal context precision (40 digits) and the `InvalidOperation` that
  `quantize` raises when a result would exceed it. Amounts are exact reals,
  and quantisation is round-half-even to 8 places, with no overflow.
- The shape of the bundle payload beyond its keys: the payload is a map
  from strings to strings, and only key removal matters to the model.
- `Simulation.PrepareProperties`: values are immutable, so "the input
  hops are left unmodified" holds by construction rather than being stated.
- `Bot.Examined`: `MAX_CYCLES_PER_SCAN` is a natural number. The negative
  slice bounds Python would accept are not modelled.
- `Triangles.EnumerateTriangles`: the start tokens come in `adj`'s
  insertion order, as `Triangles.BuildAdjacency` states. Python does not
  specify the iteration order of each neighbour `set`, however. The
  triangle methods therefore state membership, duplicate-freedom, rotation
  closure and the grouping of rotations. They do not fix one order of the
  triangles.
- `Bot.SubmitIgnoresStatus`: the status output is not modelled. It is only
  printed, and the status result never changes control flow.
- `GalaApi.SignPayload`: a key the signer rejects is reported as
  `ValueError`. In the source, a key that is not valid hex raises
  `ValueError` from `bytes.fromhex`, but a hex key of the wrong length
  raises the key library's own error class. Nothing catches either, so
  control flow is the same.
- Each scan's oracles in `Env` are fixed functions. Identical requests
  within one scan therefore get identical answers. For example, two
  examined triangles that begin with the same START_TOKEN→A hop share one
  first-hop quote. The real endpoints may answer differently, or time out,
  on a repeated call. `Simulation.SimulateRotationInvariant` relies on this
  snapshot.
- Concurrency: there is none; the bot is single-threaded.

Gross profit uses Python `int()`, which truncates toward zero rather than
flooring. A small loss therefore reports 0 bps, not -1
(`Simulation.GrossBpsTruncatesLosses`).
