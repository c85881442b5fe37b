/** Where the saturating counters stop, and when they fit the bits they are given. */
module Saturation {
  import opened Bits
  import opened BranchPredictor
  import opened Histories

  lemma {:induction false} CountersStop(cfg: Config, trace: seq<Branch>, j: nat)
    requires Valid(cfg) && j < PhtSize(cfg)
    ensures Run(cfg, trace).pht[j] <= Limit(cfg)
  {
    hide GetIndex, Shift, PhtSize, Predict;
    if trace == [] {
      WeakBelowLimit(cfg);
    } else {
      CountersStop(cfg, trace[..|trace| - 1], j);
    }
  }

  lemma {:induction false} PowAbove(n: nat)
    ensures Pow2(n) > n
  {
    if n > 0 {
      PowAbove(n - 1);
    }
  }

  lemma WeakBelowLimit(cfg: Config)
    requires Valid(cfg)
    ensures WeaklyTaken(cfg) <= Limit(cfg)
  {
    PowAbove(WeaklyTaken(cfg) - 1);
  }

  /** The limit is the largest number of counterBits bits for one and two bits only. */
  lemma LimitFits(cfg: Config)
    requires Valid(cfg)
    ensures Limit(cfg) == Pow2(cfg.counterBits) - 1 <==> cfg.counterBits <= 2
    ensures cfg.counterBits > 2 ==> Limit(cfg) > Pow2(cfg.counterBits) - 1
  {
    assert Pow2(1) == 2 && Pow2(2) == 4 && Pow2(3) == 8 && Pow2(4) == 16 && Pow2(5) == 32;
    assert Pow2(7) == 128;
    PowLarger(7, 15);
  }

  lemma {:induction false} PowLarger(a: nat, b: nat)
    requires a <= b
    ensures Pow2(a) <= Pow2(b)
  {
    if a < b {
      PowLarger(a, b - 1);
    }
  }

  /** n taken branches at address 0. */
  function Taken(n: nat): seq<Branch> {
    seq(n, _ => Branch(0, true))
  }

  lemma {:induction false} TakenOf(cfg: Config, n: nat)
    requires Valid(cfg)
    ensures Hash(cfg, 0) == 0 && Of(cfg, Taken(n), 0) == Taken(n)
  {
    if n > 0 {
      TakenOf(cfg, n - 1);
      assert Taken(n)[..n - 1] == Taken(n - 1);
      assert Taken(n - 1) + [Branch(0, true)] == Taken(n);
    }
  }

  /** Once 64 branches have been taken the registers no longer change, nor does the index. */
  lemma SteadyIndex(cfg: Config, n: nat)
    requires Valid(cfg) && n >= WIDTH
    ensures GetIndex(cfg, Run(cfg, Taken(n)), 0) == GetIndex(cfg, Run(cfg, Taken(WIDTH)), 0)
  {
    hide Run, Low, Value, Pow2, And, Xor, PhtSize;
    assert Latest(Taken(n), WIDTH) == Taken(WIDTH) == Latest(Taken(WIDTH), WIDTH);
    LowIsLatest(Taken(n), WIDTH);
    LowIsLatest(Taken(WIDTH), WIDTH);
    Registers(cfg, Taken(n), 0);
    Registers(cfg, Taken(WIDTH), 0);
    TakenOf(cfg, n);
    TakenOf(cfg, WIDTH);
  }

  lemma {:induction false} CounterGrows(cfg: Config, m: nat)
    requires Valid(cfg)
    ensures var i := GetIndex(cfg, Run(cfg, Taken(WIDTH)), 0);
            && i < PhtSize(cfg)
            && (Run(cfg, Taken(WIDTH + m)).pht[i] >= m || Run(cfg, Taken(WIDTH + m)).pht[i] == Limit(cfg))
  {
    hide GetIndex, Shift, PhtSize, Limit, Pow2, Run;
    IndexInBounds(cfg, Run(cfg, Taken(WIDTH)), 0);
    if m > 0 {
      CounterGrows(cfg, m - 1);
      SteadyIndex(cfg, WIDTH + m - 1);
      TakenStep(cfg, WIDTH + m);
      CountersStop(cfg, Taken(WIDTH + m - 1), GetIndex(cfg, Run(cfg, Taken(WIDTH)), 0));
    }
  }

  lemma TakenStep(cfg: Config, n: nat)
    requires Valid(cfg) && n > 0
    ensures var t, i := Run(cfg, Taken(n - 1)), GetIndex(cfg, Run(cfg, Taken(n - 1)), 0);
            i < |t.pht| && Run(cfg, Taken(n)).pht == t.pht[i := Count(cfg, t.pht[i], true)]
  {
    hide GetIndex, Shift, PhtSize, Limit, Pow2, Count;
    assert Taken(n)[..n - 1] == Taken(n - 1);
    var t := Run(cfg, Taken(n - 1));
    IndexInBounds(cfg, t, 0);
    SameIndex(cfg, t, 0, Tally(t.stats, Predict(cfg, t, 0)));
  }

  /** All counters of all runs fit in counterBits bits if and only if there are at most two. */
  lemma CountersFit(cfg: Config)
    requires Valid(cfg)
    ensures (forall trace: seq<Branch>, j: nat :: j < PhtSize(cfg) ==> Run(cfg, trace).pht[j] < Pow2(cfg.counterBits))
            <==> cfg.counterBits <= 2
  {
    hide Run, PhtSize, Limit, Pow2, GetIndex;
    LimitFits(cfg);
    if cfg.counterBits <= 2 {
      forall trace: seq<Branch>, j: nat | j < PhtSize(cfg) ensures Run(cfg, trace).pht[j] < Pow2(cfg.counterBits) {
        CountersStop(cfg, trace, j);
      }
    } else {
      CounterGrows(cfg, Pow2(cfg.counterBits));
    }
  }
}
