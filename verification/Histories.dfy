/** A history register encodes the latest outcomes of its branches. */
module Histories {
  import opened Bits
  import opened BranchPredictor

  /** The branches that hash to entry s. */
  function Of(cfg: Config, trace: seq<Branch>, s: nat): seq<Branch>
    requires cfg.entries >= 1
  {
    if trace == [] then []
    else
      var last := trace[|trace| - 1];
      var before := Of(cfg, trace[..|trace| - 1], s);
      if Hash(cfg, last.pc) == s then before + [last] else before
  }

  /** Outcomes as a binary number, the latest in the lowest place. */
  function Value(trace: seq<Branch>): nat {
    if trace == [] then 0 else 2 * Value(trace[..|trace| - 1]) + if trace[|trace| - 1].taken then 1 else 0
  }

  function Latest(trace: seq<Branch>, n: nat): seq<Branch> {
    if |trace| <= n then trace else trace[|trace| - n..]
  }

  lemma {:induction false} LowIsLatest(trace: seq<Branch>, n: nat)
    ensures Low(Value(trace), n) == Value(Latest(trace, n))
  {
    if n > 0 && trace != [] {
      var k := |trace| - 1;
      LowIsLatest(trace[..k], n - 1);
      assert Value(trace) / 2 == Value(trace[..k]);
      assert Latest(trace, n)[..|Latest(trace, n)| - 1] == Latest(trace[..k], n - 1);
    } else if n > 0 {
      LowOfZero(n);
    }
  }

  lemma {:induction false} LowOfZero(n: nat)
    ensures Low(0, n) == 0
  {
    if n > 0 {
      LowOfZero(n - 1);
    }
  }

  lemma RunStep(cfg: Config, trace: seq<Branch>, s: nat)
    requires Valid(cfg) && s < cfg.entries && trace != []
    ensures var t, r, last := Run(cfg, trace), Run(cfg, trace[..|trace| - 1]), trace[|trace| - 1];
            && t.ghr == Shift(r.ghr, last.taken)
            && (KeepsHistories(cfg) ==> t.hist[s] == if Hash(cfg, last.pc) == s then Shift(r.hist[s], last.taken)
                else r.hist[s])
  {
    hide GetIndex, Shift, Predict, Hash, PhtSize;
  }

  lemma {:induction false} Registers(cfg: Config, trace: seq<Branch>, s: nat)
    requires Valid(cfg) && s < cfg.entries
    ensures Run(cfg, trace).ghr == Low(Value(trace), WIDTH)
    ensures KeepsHistories(cfg) ==> Run(cfg, trace).hist[s] == Low(Value(Of(cfg, trace, s)), WIDTH)
  {
    hide Low, Hash, PhtSize, Step;
    if trace == [] {
      LowOfZero(WIDTH);
    } else {
      var k := |trace| - 1;
      Registers(cfg, trace[..k], s);
      RunStep(cfg, trace, s);
      LowOfShift(Value(trace[..k]), if trace[k].taken then 1 else 0, WIDTH);
      LowOfShift(Value(Of(cfg, trace[..k], s)), if trace[k].taken then 1 else 0, WIDTH);
      if Hash(cfg, trace[k].pc) == s {
        assert Of(cfg, trace, s)[..|Of(cfg, trace, s)| - 1] == Of(cfg, trace[..k], s);
      }
    }
  }

  /** After any trace the masked history of entry s encodes exactly the last historyBits
      outcomes of the branches that hash to s, not taken where there were fewer, and the
      global register the last 64 outcomes of all branches. */
  lemma HistoriesAreWindows(cfg: Config, trace: seq<Branch>, s: nat)
    requires Valid(cfg) && s < cfg.entries
    ensures Run(cfg, trace).ghr == Value(Latest(trace, WIDTH))
    ensures KeepsHistories(cfg) ==>
              And(Run(cfg, trace).hist[s], Pow2(cfg.historyBits) - 1)
                == Value(Latest(Of(cfg, trace, s), cfg.historyBits))
  {
    hide Run, Low, Value, Pow2, And;
    Registers(cfg, trace, s);
    LowIsLatest(trace, WIDTH);
    if KeepsHistories(cfg) {
      var v := Value(Of(cfg, trace, s));
      AndOnes(Low(v, WIDTH), cfg.historyBits);
      LowOfLow(v, WIDTH, cfg.historyBits);
      LowIsLatest(Of(cfg, trace, s), cfg.historyBits);
    }
  }
}
