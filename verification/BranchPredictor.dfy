/** The branch predictors as functions on values: saturating counters in a pattern history
    table, indexed by the branch's address and by recorded outcomes. */
module BranchPredictor {
  import opened Bits

  datatype Kind = Bimodal | TwoLevel | Local | Gshare

  datatype Config = Config(kind: Kind, entries: nat, counterBits: nat, historyBits: nat)

  datatype Branch = Branch(pc: nat, taken: bool)

  datatype Stats = Stats(branches: nat, predTaken: nat, predNotTaken: nat, correct: nat)

  datatype Tables = Tables(pht: seq<nat>, ghr: nat, hist: seq<nat>, stats: Stats)

  /** The program's integer shifts are defined. */
  predicate Valid(cfg: Config) {
    cfg.entries >= 1 && 1 <= cfg.counterBits <= 5 && cfg.historyBits <= 30
  }

  function WeaklyTaken(cfg: Config): nat
    requires Valid(cfg)
  {
    Pow2(cfg.counterBits - 1)
  }

  /** The value at which a counter stops, 2 << (WeaklyTaken - 1), less one. */
  function Limit(cfg: Config): nat
    requires Valid(cfg)
  {
    2 * Pow2(WeaklyTaken(cfg) - 1) - 1
  }

  function PhtSize(cfg: Config): nat {
    match cfg.kind
    case Bimodal => cfg.entries
    case TwoLevel => Pow2(cfg.historyBits) * cfg.counterBits
    case Local => Pow2(cfg.historyBits) * cfg.counterBits * cfg.entries
    case Gshare => cfg.entries * cfg.counterBits
  }

  predicate KeepsHistories(cfg: Config) {
    cfg.kind == Local || cfg.kind == TwoLevel
  }

  function Setup(cfg: Config): Tables
    requires Valid(cfg)
  {
    Tables(seq(PhtSize(cfg), _ => WeaklyTaken(cfg)), 0, seq(if KeepsHistories(cfg) then cfg.entries else 0, _ => 0),
           Stats(0, 0, 0, 0))
  }

  /** pc & index_mask; the mask need not be all ones. */
  function Hash(cfg: Config, pc: nat): (i: nat)
    requires cfg.entries >= 1
    ensures i < cfg.entries
  {
    AndBound(pc, cfg.entries - 1);
    And(pc, cfg.entries - 1)
  }

  predicate Sized(cfg: Config, t: Tables) {
    Valid(cfg) && |t.pht| == PhtSize(cfg) && |t.hist| == if KeepsHistories(cfg) then cfg.entries else 0
  }

  function GetIndex(cfg: Config, t: Tables, pc: nat): nat
    requires Sized(cfg, t)
  {
    match cfg.kind
    case Bimodal => Hash(cfg, pc)
    case TwoLevel => And(t.hist[Hash(cfg, pc)], Pow2(cfg.historyBits) - 1)
    case Local => Hash(cfg, pc) * Pow2(cfg.historyBits) + And(t.hist[Hash(cfg, pc)], Pow2(cfg.historyBits) - 1)
    case Gshare => Xor(And(pc, cfg.entries - 1), And(t.ghr, cfg.entries - 1))
  }

  /** The index stays inside the table for every kind of predictor and any number of entries. */
  lemma IndexInBounds(cfg: Config, t: Tables, pc: nat)
    requires Sized(cfg, t)
    ensures GetIndex(cfg, t, pc) < |t.pht|
  {
    var p := Pow2(cfg.historyBits);
    match cfg.kind
    case Bimodal =>
    case TwoLevel =>
      AndOnes(t.hist[Hash(cfg, pc)], cfg.historyBits);
      LowBound(t.hist[Hash(cfg, pc)], cfg.historyBits);
      Monotone(1, cfg.counterBits, p);
    case Local =>
      AndOnes(t.hist[Hash(cfg, pc)], cfg.historyBits);
      LowBound(t.hist[Hash(cfg, pc)], cfg.historyBits);
      LocalRoom(Hash(cfg, pc), cfg.entries, p, cfg.counterBits);
    case Gshare =>
      XorMasked(pc, t.ghr, cfg.entries - 1);
      Monotone(1, cfg.counterBits, cfg.entries);
  }

  lemma LocalRoom(s: nat, n: nat, p: nat, c: nat)
    requires s < n && c >= 1
    ensures s * p + p <= n * p <= p * c * n
  {
    Monotone(s + 1, n, p);
    assert (s + 1) * p == s * p + p;
    Monotone(1, c, p);
    Monotone(p, p * c, n);
  }

  function Predict(cfg: Config, t: Tables, pc: nat): bool
    requires Sized(cfg, t)
  {
    IndexInBounds(cfg, t, pc);
    t.pht[GetIndex(cfg, t, pc)] >= WeaklyTaken(cfg)
  }

  function Count(cfg: Config, counter: nat, taken: bool): nat
    requires Valid(cfg)
  {
    if taken then if counter < Limit(cfg) then counter + 1 else counter
    else if counter > 0 then counter - 1 else counter
  }

  /** Bits of a history register. */
  const WIDTH: nat := 64

  /** A register shifted left, with the outcome as its new lowest bit. */
  function Shift(reg: nat, taken: bool): nat {
    Low(2 * reg + if taken then 1 else 0, WIDTH)
  }

  function Tally(stats: Stats, predicted: bool): Stats {
    var s := stats.(branches := stats.branches + 1);
    if predicted then s.(predTaken := s.predTaken + 1) else s.(predNotTaken := s.predNotTaken + 1)
  }

  function Update(cfg: Config, t: Tables, br: Branch, predicted: bool): (r: Tables)
    requires Sized(cfg, t)
    ensures Sized(cfg, r)
  {
    IndexInBounds(cfg, t, br.pc);
    var i := GetIndex(cfg, t, br.pc);
    Tables(t.pht[i := Count(cfg, t.pht[i], br.taken)],
           Shift(t.ghr, br.taken),
           if KeepsHistories(cfg) then t.hist[Hash(cfg, br.pc) := Shift(t.hist[Hash(cfg, br.pc)], br.taken)]
             else t.hist,
           if br.taken == predicted then t.stats.(correct := t.stats.correct + 1) else t.stats)
  }

  /** One branch of the trace: predicted, then learnt. */
  function Step(cfg: Config, t: Tables, br: Branch): (r: Tables)
    requires Sized(cfg, t)
    ensures Sized(cfg, r)
  {
    var predicted := Predict(cfg, t, br.pc);
    Update(cfg, t.(stats := Tally(t.stats, predicted)), br, predicted)
  }

  function Run(cfg: Config, trace: seq<Branch>): (t: Tables)
    requires Valid(cfg)
    ensures Sized(cfg, t)
  {
    if trace == [] then Setup(cfg) else Step(cfg, Run(cfg, trace[..|trace| - 1]), trace[|trace| - 1])
  }

  lemma SameIndex(cfg: Config, t: Tables, pc: nat, stats: Stats)
    requires Sized(cfg, t)
    ensures GetIndex(cfg, t.(stats := stats), pc) == GetIndex(cfg, t, pc)
  {
  }
}
