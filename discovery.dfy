/** Pool discovery (discover_active_pools): probe every configured pair in
    both directions over its candidate fee tiers, probing each physical
    pool/tier (unordered pair, fee) once, and keep the combinations whose
    probe returned a quote. */
module Discovery {
  import opened Wrappers
  import opened Config
  import opened GalaApi

  /** A directed pool edge tokenA -> tokenB at a fee tier. */
  datatype ActivePool = ActivePool(tokenA: string, tokenB: string, fee: int) {
    /** __contains__ */
    predicate Contains(token: string) {
      token == tokenA || token == tokenB
    }

    /** get_other: the opposite token, ValueError for a token not in the pool. */
    function GetOther(token: string): (r: Result<string, ApiError>)
      ensures r.Ok? <==> Contains(token)
      ensures r.Err? ==> r.error == ValueError
      ensures r.Ok? ==> Contains(r.value)
      ensures r.Ok? && token == tokenA ==> r.value == tokenB
      ensures r.Ok? && token != tokenA ==> r.value == tokenA
    {
      if token == tokenA then Ok(tokenB)
      else if token == tokenB then Ok(tokenA)
      else Err(ValueError)
    }
  }

  /** In a pool of two distinct tokens, get_other is its own inverse. */
  lemma GetOtherInvolution(p: ActivePool, token: string)
    requires p.tokenA != p.tokenB && p.Contains(token)
    ensures p.GetOther(p.GetOther(token).value) == Ok(token)
  {
  }

  /** One liquidity probe: direction and fee tier. */
  datatype Probe = Probe(tokenIn: string, tokenOut: string, fee: int)

  /** The de-duplication key (sorted pair, fee); the sorted pair only ever
      serves as an unordered pair, so it is the set of its two tokens. */
  type PoolKey = (set<string>, int)

  function KeyOf(p: Probe): PoolKey {
    ({p.tokenIn, p.tokenOut}, p.fee)
  }

  /** The de-duplication key of a discovered pool. */
  function PoolKeyOf(x: ActivePool): PoolKey {
    ({x.tokenA, x.tokenB}, x.fee)
  }

  function PoolOf(p: Probe): ActivePool {
    ActivePool(p.tokenIn, p.tokenOut, p.fee)
  }

  /** The probes for one direction, in fee order. */
  function FeeProbes(tokenIn: string, tokenOut: string, fees: seq<int>): (r: seq<Probe>)
    ensures |r| == |fees|
    ensures forall i :: 0 <= i < |fees| ==> r[i] == Probe(tokenIn, tokenOut, fees[i])
  {
    seq(|fees|, i requires 0 <= i < |fees| => Probe(tokenIn, tokenOut, fees[i]))
  }

  /** The probes of the first d directions of the pair (a, b): a->b, then b->a. */
  function DirectionProbes(cfg: Config, a: string, b: string, d: nat): seq<Probe>
    requires d <= 2
  {
    if d == 0 then []
    else if d == 1 then FeeProbes(a, b, FeesForPair(cfg, a, b))
    else FeeProbes(a, b, FeesForPair(cfg, a, b)) + FeeProbes(b, a, FeesForPair(cfg, b, a))
  }

  /** Every candidate probe, in the order the nested loops visit them. */
  function ProbesOf(cfg: Config, pools: seq<PoolPair>): seq<Probe>
    decreases |pools|
  {
    if pools == [] then []
    else
      var last := pools[|pools| - 1];
      ProbesOf(cfg, pools[..|pools| - 1]) + DirectionProbes(cfg, last.0, last.1, 2)
  }

  /** The probe succeeded: get_quote returned without raising. */
  predicate ProbeOk(cfg: Config, env: Env, p: Probe) {
    GetQuote(cfg, env, p.tokenIn, p.tokenOut, cfg.liquidityCheckAmount, Some(p.fee)).Ok?
  }

  /** Loop state: seen_fees, the probes actually sent, active_pools. */
  datatype DiscoveryState = DiscoveryState(seen: set<PoolKey>, issued: seq<Probe>, active: seq<ActivePool>)

  function Step(cfg: Config, env: Env, st: DiscoveryState, p: Probe): DiscoveryState {
    if KeyOf(p) in st.seen then st
    else DiscoveryState(st.seen + {KeyOf(p)}, st.issued + [p],
                        if ProbeOk(cfg, env, p) then st.active + [PoolOf(p)] else st.active)
  }

  function RunFrom(cfg: Config, env: Env, st: DiscoveryState, probes: seq<Probe>): DiscoveryState
    decreases |probes|
  {
    if probes == [] then st
    else Step(cfg, env, RunFrom(cfg, env, st, probes[..|probes| - 1]), probes[|probes| - 1])
  }

  function Run(cfg: Config, env: Env, probes: seq<Probe>): DiscoveryState {
    RunFrom(cfg, env, DiscoveryState({}, [], []), probes)
  }

  /** What one discovery call returns (active) and sends (issued). */
  function Discovered(cfg: Config, env: Env): DiscoveryState {
    Run(cfg, env, ProbesOf(cfg, cfg.pools))
  }

  /** The successful probes among those sent, as pools, in order. */
  function Survivors(cfg: Config, env: Env, issued: seq<Probe>): seq<ActivePool>
    decreases |issued|
  {
    if issued == [] then []
    else
      var last := issued[|issued| - 1];
      Survivors(cfg, env, issued[..|issued| - 1]) + (if ProbeOk(cfg, env, last) then [PoolOf(last)] else [])
  }

  /** Index i holds the first probe of its key. */
  ghost predicate FirstOfKey(probes: seq<Probe>, i: int)
    requires 0 <= i < |probes|
  {
    forall j :: 0 <= j < i ==> KeyOf(probes[j]) != KeyOf(probes[i])
  }

  // ------------------------------------------------------------ the method

  method DiscoverActivePools(cfg: Config, env: Env) returns (active: seq<ActivePool>, ghost issued: seq<Probe>)
    ensures active == Discovered(cfg, env).active
    ensures issued == Discovered(cfg, env).issued
  {
    active := [];
    issued := [];
    var seen: set<PoolKey> := {};
    ghost var done: seq<Probe> := [];
    var i := 0;
    while i < |cfg.pools|
      invariant 0 <= i <= |cfg.pools|
      invariant done == ProbesOf(cfg, cfg.pools[..i])
      invariant DiscoveryState(seen, issued, active) == Run(cfg, env, done)
    {
      var (a, b) := cfg.pools[i];
      seen, issued, active, done := ProbePair(cfg, env, a, b, seen, issued, active, done);
      ProbesOfSnoc(cfg, cfg.pools, i);
      i := i + 1;
    }
    assert cfg.pools[..i] == cfg.pools;
  }

  lemma ProbesOfSnoc(cfg: Config, pools: seq<PoolPair>, i: nat)
    requires i < |pools|
    ensures ProbesOf(cfg, pools[..i + 1]) == ProbesOf(cfg, pools[..i]) + DirectionProbes(cfg, pools[i].0, pools[i].1, 2)
  {
    assert pools[..i + 1][..i] == pools[..i];
  }

  /** The middle loop: the directions a->b and b->a of one configured pair. */
  method ProbePair(cfg: Config, env: Env, a: string, b: string,
                   seen0: set<PoolKey>, ghost issued0: seq<Probe>, active0: seq<ActivePool>, ghost done0: seq<Probe>)
    returns (seen: set<PoolKey>, ghost issued: seq<Probe>, active: seq<ActivePool>, ghost done: seq<Probe>)
    requires DiscoveryState(seen0, issued0, active0) == Run(cfg, env, done0)
    ensures done == done0 + DirectionProbes(cfg, a, b, 2)
    ensures DiscoveryState(seen, issued, active) == Run(cfg, env, done)
  {
    seen, issued, active, done := seen0, issued0, active0, done0;
    var directions := [(a, b), (b, a)];
    var d := 0;
    while d < 2
      invariant 0 <= d <= 2
      invariant done == done0 + DirectionProbes(cfg, a, b, d)
      invariant DiscoveryState(seen, issued, active) == Run(cfg, env, done)
    {
      var (tokenIn, tokenOut) := directions[d];
      assert DirectionProbes(cfg, a, b, d + 1) == DirectionProbes(cfg, a, b, d) + FeeProbes(tokenIn, tokenOut, FeesForPair(cfg, tokenIn, tokenOut));
      seen, issued, active, done := ProbeDirection(cfg, env, tokenIn, tokenOut, seen, issued, active, done);
      d := d + 1;
    }
  }

  /** The innermost loop: probe one direction at each of its fee tiers,
      skipping keys already seen. */
  method ProbeDirection(cfg: Config, env: Env, tokenIn: string, tokenOut: string,
                        seen0: set<PoolKey>, ghost issued0: seq<Probe>, active0: seq<ActivePool>, ghost done0: seq<Probe>)
    returns (seen: set<PoolKey>, ghost issued: seq<Probe>, active: seq<ActivePool>, ghost done: seq<Probe>)
    requires DiscoveryState(seen0, issued0, active0) == Run(cfg, env, done0)
    ensures done == done0 + FeeProbes(tokenIn, tokenOut, FeesForPair(cfg, tokenIn, tokenOut))
    ensures DiscoveryState(seen, issued, active) == Run(cfg, env, done)
  {
    seen, issued, active, done := seen0, issued0, active0, done0;
    var fees := FeesForPair(cfg, tokenIn, tokenOut);
    var j := 0;
    while j < |fees|
      invariant 0 <= j <= |fees|
      invariant done == done0 + FeeProbes(tokenIn, tokenOut, fees[..j])
      invariant DiscoveryState(seen, issued, active) == Run(cfg, env, done)
    {
      var fee := fees[j];
      var key := ({tokenIn, tokenOut}, fee);
      if key !in seen {
        seen := seen + {key};
        issued := issued + [Probe(tokenIn, tokenOut, fee)];
        if GetQuote(cfg, env, tokenIn, tokenOut, cfg.liquidityCheckAmount, Some(fee)).Ok? {
          active := active + [ActivePool(tokenIn, tokenOut, fee)];
        }
      }
      assert FeeProbes(tokenIn, tokenOut, fees[..j + 1]) == FeeProbes(tokenIn, tokenOut, fees[..j]) + [Probe(tokenIn, tokenOut, fee)];
      RunSnoc(cfg, env, done, Probe(tokenIn, tokenOut, fee));
      done := done + [Probe(tokenIn, tokenOut, fee)];
      j := j + 1;
    }
    assert fees[..j] == fees;
  }

  // ------------------------------------------------------ state lemmas

  lemma {:induction false} RunFromConcat(cfg: Config, env: Env, st: DiscoveryState, s1: seq<Probe>, s2: seq<Probe>)
    ensures RunFrom(cfg, env, st, s1 + s2) == RunFrom(cfg, env, RunFrom(cfg, env, st, s1), s2)
    decreases |s2|
  {
    if s2 == [] {
      assert s1 + s2 == s1;
    } else {
      var n := |s2| - 1;
      assert (s1 + s2)[..|s1 + s2| - 1] == s1 + s2[..n];
      RunFromConcat(cfg, env, st, s1, s2[..n]);
    }
  }

  /** Running more probes only adds keys and only sends probes from the run. */
  lemma {:induction false} RunFromGrowth(cfg: Config, env: Env, st: DiscoveryState, s: seq<Probe>)
    ensures st.seen <= RunFrom(cfg, env, st, s).seen
    ensures forall i :: 0 <= i < |s| ==> KeyOf(s[i]) in RunFrom(cfg, env, st, s).seen
    ensures forall x :: x in RunFrom(cfg, env, st, s).issued ==> x in st.issued || x in s
    decreases |s|
  {
    if s != [] {
      var n := |s| - 1;
      RunFromGrowth(cfg, env, st, s[..n]);
      assert forall x :: x in s[..n] ==> x in s;
    }
  }

  /** Probes whose keys were all seen already change nothing. */
  lemma {:induction false} RunFromSkip(cfg: Config, env: Env, st: DiscoveryState, s: seq<Probe>)
    requires forall i :: 0 <= i < |s| ==> KeyOf(s[i]) in st.seen
    ensures RunFrom(cfg, env, st, s) == st
    decreases |s|
  {
    if s != [] {
      RunFromSkip(cfg, env, st, s[..|s| - 1]);
    }
  }

  lemma RunSnoc(cfg: Config, env: Env, s: seq<Probe>, p: Probe)
    ensures Run(cfg, env, s + [p]) == Step(cfg, env, Run(cfg, env, s), p)
  {
    assert (s + [p])[..|s|] == s;
  }

  /** seen holds exactly the keys of the probes run. */
  lemma {:induction false} RunSeen(cfg: Config, env: Env, s: seq<Probe>)
    ensures forall k :: k in Run(cfg, env, s).seen <==> exists i :: 0 <= i < |s| && KeyOf(s[i]) == k
    decreases |s|
  {
    if s != [] {
      var n := |s| - 1;
      RunSeen(cfg, env, s[..n]);
      assert s == s[..n] + [s[n]];
      RunSnoc(cfg, env, s[..n], s[n]);
      assert forall i :: 0 <= i < n ==> s[..n][i] == s[i];
      forall k | k in Run(cfg, env, s).seen ensures exists i :: 0 <= i < |s| && KeyOf(s[i]) == k {
        if k != KeyOf(s[n]) {
          var i :| 0 <= i < n && KeyOf(s[..n][i]) == k;
          assert KeyOf(s[i]) == k;
        }
      }
    }
  }

  /** issued holds exactly the first probe of each key, and keys of issued
      probes are pairwise distinct. */
  lemma {:induction false} RunIssued(cfg: Config, env: Env, s: seq<Probe>)
    ensures forall x :: x in Run(cfg, env, s).issued <==> exists i :: 0 <= i < |s| && s[i] == x && FirstOfKey(s, i)
    ensures forall i, j :: 0 <= i < j < |Run(cfg, env, s).issued| ==> KeyOf(Run(cfg, env, s).issued[i]) != KeyOf(Run(cfg, env, s).issued[j])
    decreases |s|
  {
    if s != [] {
      var n := |s| - 1;
      var pre := s[..n];
      var p := s[n];
      RunIssued(cfg, env, pre);
      RunSeen(cfg, env, pre);
      var st := Run(cfg, env, pre);
      assert s == pre + [p];
      RunSnoc(cfg, env, pre, p);
      assert forall i :: 0 <= i < n ==> pre[i] == s[i];
      assert forall i :: 0 <= i < n ==> (FirstOfKey(pre, i) <==> FirstOfKey(s, i));
      if KeyOf(p) in st.seen {
        var i0 :| 0 <= i0 < n && KeyOf(pre[i0]) == KeyOf(p);
        assert !FirstOfKey(s, n);
      } else {
        assert FirstOfKey(s, n);
        forall x | x in st.issued ensures KeyOf(x) != KeyOf(p) {
          var i :| 0 <= i < n && pre[i] == x && FirstOfKey(pre, i);
        }
      }
    }
  }

  /** active is the successful probes among those issued. */
  lemma {:induction false} RunActive(cfg: Config, env: Env, s: seq<Probe>)
    ensures Run(cfg, env, s).active == Survivors(cfg, env, Run(cfg, env, s).issued)
    decreases |s|
  {
    if s != [] {
      var n := |s| - 1;
      RunActive(cfg, env, s[..n]);
      assert s == s[..n] + [s[n]];
      RunSnoc(cfg, env, s[..n], s[n]);
      var iss := Run(cfg, env, s[..n]).issued + [s[n]];
      assert iss[..|iss| - 1] == Run(cfg, env, s[..n]).issued;
    }
  }

  lemma {:induction false} SurvivorsMembers(cfg: Config, env: Env, issued: seq<Probe>)
    ensures forall x :: x in Survivors(cfg, env, issued) <==> exists p :: p in issued && ProbeOk(cfg, env, p) && x == PoolOf(p)
    decreases |issued|
  {
    if issued != [] {
      var n := |issued| - 1;
      SurvivorsMembers(cfg, env, issued[..n]);
      assert issued == issued[..n] + [issued[n]];
    }
  }

  lemma {:induction false} SurvivorsKeysDistinct(cfg: Config, env: Env, issued: seq<Probe>)
    requires forall i, j :: 0 <= i < j < |issued| ==> KeyOf(issued[i]) != KeyOf(issued[j])
    ensures forall i, j :: 0 <= i < j < |Survivors(cfg, env, issued)| ==>
      PoolKeyOf(Survivors(cfg, env, issued)[i]) != PoolKeyOf(Survivors(cfg, env, issued)[j])
    decreases |issued|
  {
    if issued != [] {
      var n := |issued| - 1;
      var pre := issued[..n];
      var last := issued[n];
      assert forall i, j :: 0 <= i < j < |pre| ==> KeyOf(pre[i]) != KeyOf(pre[j]);
      SurvivorsKeysDistinct(cfg, env, pre);
      var rp := Survivors(cfg, env, pre);
      assert forall i, j :: 0 <= i < j < |rp| ==> PoolKeyOf(rp[i]) != PoolKeyOf(rp[j]);
      SurvivorsMembers(cfg, env, pre);
      var r := Survivors(cfg, env, issued);
      forall x | x in rp
        ensures PoolKeyOf(x) != KeyOf(last)
      {
        var p :| p in pre && ProbeOk(cfg, env, p) && x == PoolOf(p);
        var k :| 0 <= k < n && pre[k] == p;
        assert issued[k] == p;
      }
      if ProbeOk(cfg, env, last) {
        assert r == rp + [PoolOf(last)];
        forall i, j | 0 <= i < j < |r|
          ensures PoolKeyOf(r[i]) != PoolKeyOf(r[j])
        {
          if j == |rp| {
            assert r[i] == rp[i];
            assert r[i] in rp;
            assert r[j] == PoolOf(last);
          } else {
            assert r[i] == rp[i] && r[j] == rp[j];
            assert PoolKeyOf(rp[i]) != PoolKeyOf(rp[j]);
          }
        }
      } else {
        assert r == rp;
        assert forall i, j :: 0 <= i < j < |rp| ==> PoolKeyOf(rp[i]) != PoolKeyOf(rp[j]);
      }
    }
  }

  /** Every candidate probe comes from a configured pair, in one of its two
      directions, with a fee from that direction's candidate list. */
  lemma {:induction false} ProbesOfMembers(cfg: Config, pools: seq<PoolPair>)
    ensures forall p :: p in ProbesOf(cfg, pools) ==>
      p.fee in FeesForPair(cfg, p.tokenIn, p.tokenOut) &&
      exists k :: 0 <= k < |pools| && (pools[k] == (p.tokenIn, p.tokenOut) || pools[k] == (p.tokenOut, p.tokenIn))
    decreases |pools|
  {
    if pools != [] {
      var n := |pools| - 1;
      ProbesOfMembers(cfg, pools[..n]);
      var (a, b) := pools[n];
      forall p | p in ProbesOf(cfg, pools)
        ensures p.fee in FeesForPair(cfg, p.tokenIn, p.tokenOut)
        ensures exists k :: 0 <= k < |pools| && (pools[k] == (p.tokenIn, p.tokenOut) || pools[k] == (p.tokenOut, p.tokenIn))
      {
        if p in ProbesOf(cfg, pools[..n]) {
          var k :| 0 <= k < n && (pools[..n][k] == (p.tokenIn, p.tokenOut) || pools[..n][k] == (p.tokenOut, p.tokenIn));
          assert pools[k] == pools[..n][k];
        } else {
          var fwd := FeeProbes(a, b, FeesForPair(cfg, a, b));
          var rev := FeeProbes(b, a, FeesForPair(cfg, b, a));
          assert p in fwd + rev;
          if p in fwd {
            var i :| 0 <= i < |fwd| && fwd[i] == p;
          } else {
            var i :| 0 <= i < |rev| && rev[i] == p;
          }
        }
      }
    }
  }

  // ------------------------------------------------- discovery properties

  /** No two discovered pools share an unordered pair and fee, and the
      probes sent are pairwise distinct by that key. */
  lemma DiscoveredDistinct(cfg: Config, env: Env)
    ensures var iss := Discovered(cfg, env).issued;
      forall i, j :: 0 <= i < j < |iss| ==> KeyOf(iss[i]) != KeyOf(iss[j])
    ensures var r := Discovered(cfg, env).active;
      forall i, j :: 0 <= i < j < |r| ==> PoolKeyOf(r[i]) != PoolKeyOf(r[j])
  {
    var s := ProbesOf(cfg, cfg.pools);
    RunIssued(cfg, env, s);
    RunActive(cfg, env, s);
    SurvivorsKeysDistinct(cfg, env, Run(cfg, env, s).issued);
  }

  /** A pool is discovered exactly when it is the first candidate of its key
      and its probe returned a quote: failing probes add nothing, and no
      other combination is dropped. */
  lemma DiscoveredExactly(cfg: Config, env: Env, x: ActivePool)
    ensures var s := ProbesOf(cfg, cfg.pools);
      x in Discovered(cfg, env).active <==>
        exists i :: 0 <= i < |s| && FirstOfKey(s, i) && ProbeOk(cfg, env, s[i]) && PoolOf(s[i]) == x
  {
    var s := ProbesOf(cfg, cfg.pools);
    RunIssued(cfg, env, s);
    RunActive(cfg, env, s);
    SurvivorsMembers(cfg, env, Run(cfg, env, s).issued);
    if x in Discovered(cfg, env).active {
      var p :| p in Run(cfg, env, s).issued && ProbeOk(cfg, env, p) && x == PoolOf(p);
      var i :| 0 <= i < |s| && s[i] == p && FirstOfKey(s, i);
    }
  }

  /** Every discovered pool answered its probe, its fee is one of the
      candidates for its direction, and it is a configured pair. */
  lemma DiscoveredPoolsValid(cfg: Config, env: Env, x: ActivePool)
    requires x in Discovered(cfg, env).active
    ensures GetQuote(cfg, env, x.tokenA, x.tokenB, cfg.liquidityCheckAmount, Some(x.fee)).Ok?
    ensures x.fee in FeesForPair(cfg, x.tokenA, x.tokenB)
    ensures exists k :: 0 <= k < |cfg.pools| && (cfg.pools[k] == (x.tokenA, x.tokenB) || cfg.pools[k] == (x.tokenB, x.tokenA))
  {
    var s := ProbesOf(cfg, cfg.pools);
    DiscoveredExactly(cfg, env, x);
    var i :| 0 <= i < |s| && FirstOfKey(s, i) && ProbeOk(cfg, env, s[i]) && PoolOf(s[i]) == x;
    ProbesOfMembers(cfg, cfg.pools);
    assert s[i] in s;
  }

  /** When the override table holds at most one ordering of each configured
      pair, the b->a direction of a pair (a, b) is never probed: every probe
      sent runs in the orientation of some configured pair. */
  lemma ReverseNeverProbed(cfg: Config, env: Env)
    requires forall k :: 0 <= k < |cfg.pools| ==>
      Override(cfg, cfg.pools[k].0, cfg.pools[k].1) == [] || Override(cfg, cfg.pools[k].1, cfg.pools[k].0) == []
    ensures forall p :: p in Discovered(cfg, env).issued ==>
      exists k :: 0 <= k < |cfg.pools| && cfg.pools[k] == (p.tokenIn, p.tokenOut)
  {
    ReverseNeverProbedUpTo(cfg, env, |cfg.pools|);
    assert cfg.pools[..|cfg.pools|] == cfg.pools;
  }

  lemma {:induction false} ReverseNeverProbedUpTo(cfg: Config, env: Env, m: nat)
    requires m <= |cfg.pools|
    requires forall k :: 0 <= k < |cfg.pools| ==>
      Override(cfg, cfg.pools[k].0, cfg.pools[k].1) == [] || Override(cfg, cfg.pools[k].1, cfg.pools[k].0) == []
    ensures forall p :: p in Run(cfg, env, ProbesOf(cfg, cfg.pools[..m])).issued ==>
      exists k :: 0 <= k < m && cfg.pools[k] == (p.tokenIn, p.tokenOut)
    decreases m
  {
    if m > 0 {
      var n := m - 1;
      ReverseNeverProbedUpTo(cfg, env, n);
      assert cfg.pools[..m][..n] == cfg.pools[..n];
      var (a, b) := cfg.pools[n];
      FeesForPairSymmetric(cfg, a, b);
      var pre := ProbesOf(cfg, cfg.pools[..n]);
      var fees := FeesForPair(cfg, a, b);
      assert ProbesOf(cfg, cfg.pools[..m]) == pre + (FeeProbes(a, b, fees) + FeeProbes(b, a, fees));
      RunFromConcat(cfg, env, DiscoveryState({}, [], []), pre, FeeProbes(a, b, fees) + FeeProbes(b, a, fees));
      PairProbesOneWay(cfg, env, Run(cfg, env, pre), a, b, fees);
      forall p | p in Run(cfg, env, ProbesOf(cfg, cfg.pools[..m])).issued
        ensures exists k :: 0 <= k < m && cfg.pools[k] == (p.tokenIn, p.tokenOut)
      {
        if p in Run(cfg, env, pre).issued {
          var k :| 0 <= k < n && cfg.pools[k] == (p.tokenIn, p.tokenOut);
        } else {
          assert cfg.pools[n] == (p.tokenIn, p.tokenOut);
        }
      }
    }
  }

  /** Probing a->b and then b->a with the same fee list sends only a->b
      probes: every b->a key is already seen. */
  lemma PairProbesOneWay(cfg: Config, env: Env, st: DiscoveryState, a: string, b: string, fees: seq<int>)
    ensures forall x :: x in RunFrom(cfg, env, st, FeeProbes(a, b, fees) + FeeProbes(b, a, fees)).issued ==>
      x in st.issued || (x.tokenIn, x.tokenOut) == (a, b)
  {
    var fwd := FeeProbes(a, b, fees);
    var rev := FeeProbes(b, a, fees);
    var st2 := RunFrom(cfg, env, st, fwd);
    RunFromConcat(cfg, env, st, fwd, rev);
    RunFromGrowth(cfg, env, st, fwd);
    forall i | 0 <= i < |rev| ensures KeyOf(rev[i]) in st2.seen {
      assert {b, a} == {a, b};
      assert KeyOf(rev[i]) == KeyOf(fwd[i]);
    }
    RunFromSkip(cfg, env, st2, rev);
  }

}
