/** The branch predictor's own tables, updated in place. */
module Predictors {
  import opened Bits
  import opened BranchPredictor
  import LocalHistories

  /** The bits of the counters and of the history registers that predictions use. Except for
      Bimodal the table has one entry for each bit, not for each counter. */
  function Overhead(cfg: Config): nat {
    match cfg.kind
    case Bimodal => PhtSize(cfg) * cfg.counterBits
    case TwoLevel => cfg.historyBits * cfg.entries + PhtSize(cfg)
    case Local => cfg.historyBits * cfg.entries + PhtSize(cfg)
    case Gshare => PhtSize(cfg) + cfg.historyBits
  }

  /** Counters that branches can use. */
  function Counters(cfg: Config): nat {
    match cfg.kind
    case Bimodal => cfg.entries
    case TwoLevel => Pow2(cfg.historyBits)
    case Local => cfg.entries * Pow2(cfg.historyBits)
    case Gshare => cfg.entries
  }

  function Registers(cfg: Config): nat {
    match cfg.kind
    case Bimodal => 0
    case TwoLevel => cfg.entries
    case Local => cfg.entries
    case Gshare => 1
  }

  /** The overhead is counterBits for each counter and historyBits for each register. */
  lemma OverheadIsBits(cfg: Config)
    ensures Overhead(cfg) == Counters(cfg) * cfg.counterBits + Registers(cfg) * cfg.historyBits
  {
    hide Pow2;
    var p, c, n := Pow2(cfg.historyBits), cfg.counterBits, cfg.entries;
    if cfg.kind == Local {
      assert p * c * n == n * p * c by { Swap(p, c, n); }
    }
  }

  lemma Swap(p: nat, c: nat, n: nat)
    ensures p * c * n == n * p * c
  {
  }

  /** Entries of the pattern history table, and bits in all. */
  method Storage(cfg: Config) returns (size: nat, overhead: nat)
    ensures size == PhtSize(cfg) && overhead == Overhead(cfg)
  {
    match cfg.kind
    case Bimodal =>
      size := cfg.entries;
      overhead := size * cfg.counterBits;
    case TwoLevel =>
      size := Pow2(cfg.historyBits) * cfg.counterBits;
      overhead := cfg.historyBits * cfg.entries + size;
    case Local =>
      size := Pow2(cfg.historyBits) * cfg.counterBits * cfg.entries;
      overhead := cfg.historyBits * cfg.entries + size;
    case Gshare =>
      size := cfg.entries * cfg.counterBits;
      overhead := size + cfg.historyBits;
  }

  class Predictor {
    const cfg: Config
    const pht: array<nat>
    const hist: array<nat>
    var ghr: nat
    var stats: Stats
    const overhead: nat

    /** All counters weakly taken, all histories empty, and the storage reported. */
    constructor (cfg: Config)
      requires BranchPredictor.Valid(cfg)
      ensures this.cfg == cfg && Valid() && View() == Setup(cfg) && fresh(pht) && fresh(hist)
      ensures overhead == Overhead(cfg)
    {
      hide Pow2, PhtSize, Overhead;
      var size, bits := Storage(cfg);
      this.cfg, overhead, ghr, stats := cfg, bits, 0, Stats(0, 0, 0, 0);
      pht := new nat[size];
      hist := new nat[if KeepsHistories(cfg) then cfg.entries else 0];
      new;
      for i := 0 to pht.Length
        invariant ghr == 0 && stats == Stats(0, 0, 0, 0)
        invariant forall j :: 0 <= j < i ==> pht[j] == WeaklyTaken(cfg)
      {
        pht[i] := WeaklyTaken(cfg);
      }
      for i := 0 to hist.Length
        invariant ghr == 0 && stats == Stats(0, 0, 0, 0)
        invariant forall j :: 0 <= j < i ==> hist[j] == 0
        invariant forall j :: 0 <= j < pht.Length ==> pht[j] == WeaklyTaken(cfg)
      {
        hist[i] := 0;
      }
      assert pht[..] == Setup(cfg).pht && hist[..] == Setup(cfg).hist;
    }

    ghost predicate Valid()
      reads this, pht, hist
    {
      pht != hist && Sized(cfg, View())
    }

    ghost function View(): Tables
      reads this, pht, hist
    {
      Tables(pht[..], ghr, hist[..], stats)
    }

    method Index(pc: nat) returns (i: nat)
      requires Valid()
      ensures i == GetIndex(cfg, View(), pc) && i < pht.Length
    {
      hide PhtSize, And, Xor, Pow2;
      IndexInBounds(cfg, View(), pc);
      var s := Hash(cfg, pc);
      match cfg.kind
      case Bimodal => i := s;
      case TwoLevel => i := And(hist[s], Pow2(cfg.historyBits) - 1);
      case Local => i := s * Pow2(cfg.historyBits) + And(hist[s], Pow2(cfg.historyBits) - 1);
      case Gshare => i := Xor(And(pc, cfg.entries - 1), And(ghr, cfg.entries - 1));
    }

    method PredictBranch(pc: nat) returns (taken: bool)
      requires Valid()
      modifies this`stats
      ensures Valid() && taken == Predict(cfg, old(View()), pc)
      ensures View() == old(View()).(stats := Tally(old(stats), taken))
    {
      hide PhtSize, And, Xor, Pow2;
      stats := stats.(branches := stats.branches + 1);
      SameIndex(cfg, old(View()), pc, stats);
      var i := Index(pc);
      if pht[i] >= WeaklyTaken(cfg) {
        stats := stats.(predTaken := stats.predTaken + 1);
        taken := true;
      } else {
        stats := stats.(predNotTaken := stats.predNotTaken + 1);
        taken := false;
      }
    }

    /** The score, the global history, the branch's counter and its entry's history. */
    method UpdatePredictor(br: Branch, predicted: bool)
      requires Valid()
      modifies this`ghr, this`stats, pht, hist
      ensures Valid() && View() == Update(cfg, old(View()), br, predicted)
    {
      hide PhtSize, And, Xor, Pow2, Low, GetIndex;
      var i := Index(br.pc);
      if br.taken == predicted {
        stats := stats.(correct := stats.correct + 1);
      }
      ghr := Shift(ghr, br.taken);
      if br.taken {
        if pht[i] < 2 * Pow2(WeaklyTaken(cfg) - 1) - 1 {
          pht[i] := pht[i] + 1;
        }
      } else if pht[i] > 0 {
        pht[i] := pht[i] - 1;
      }
      if KeepsHistories(cfg) {
        var s := Hash(cfg, br.pc);
        hist[s] := Shift(hist[s], br.taken);
      }
    }
  }

  /** Every prediction is counted once. */
  lemma {:induction false} PredictionsCounted(cfg: Config, trace: seq<Branch>)
    requires BranchPredictor.Valid(cfg)
    ensures var stats := Run(cfg, trace).stats; stats.branches == |trace| == stats.predTaken + stats.predNotTaken
  {
    hide GetIndex, Shift, Predict, PhtSize;
    if trace != [] {
      PredictionsCounted(cfg, trace[..|trace| - 1]);
    }
  }

  /** A whole simulation, from trace to statistics. */
  method Simulate(cfg: Config, trace: seq<Branch>) returns (stats: Stats, overhead: nat)
    requires BranchPredictor.Valid(cfg)
    ensures stats == Run(cfg, trace).stats
    ensures stats.branches == |trace| == stats.predTaken + stats.predNotTaken
    ensures overhead == Overhead(cfg)
    ensures cfg.kind == Local ==> stats.correct == LocalHistories.CorrectOf(cfg, trace, cfg.entries)
  {
    hide Step, Overhead, LocalHistories.CorrectOf;
    var predictor := new Predictor(cfg);
    for k := 0 to |trace|
      invariant predictor.Valid() && predictor.cfg == cfg && predictor.View() == Run(cfg, trace[..k])
      invariant fresh(predictor) && fresh(predictor.pht) && fresh(predictor.hist)
    {
      ghost var t := predictor.View();
      var predicted := predictor.PredictBranch(trace[k].pc);
      predictor.UpdatePredictor(trace[k], predicted);
      assert trace[..k + 1][..k] == trace[..k];
      StepIs(cfg, t, trace[k]);
    }
    assert trace[..|trace|] == trace;
    PredictionsCounted(cfg, trace);
    if cfg.kind == Local {
      LocalHistories.LocalCorrect(cfg, trace);
    }
    stats, overhead := predictor.stats, predictor.overhead;
  }

  lemma StepIs(cfg: Config, t: Tables, br: Branch)
    requires Sized(cfg, t)
    ensures var p := Predict(cfg, t, br.pc); Step(cfg, t, br) == Update(cfg, t.(stats := Tally(t.stats, p)), br, p)
  {
  }
}
