/** Every counter and every prediction from the trace alone: which branches a counter has seen,
    and that it saturates over exactly their outcomes. */
module Predictions {
  import opened Bits
  import opened BranchPredictor
  import opened Histories

  // ---------------------------------------------------------------- which branches a counter sees

  /** At every bit i is pc under the mask. */
  ghost predicate Masked(i: nat, pc: nat, mask: nat) {
    forall j: nat :: Bit(i, j) == (Bit(pc, j) && Bit(mask, j))
  }

  /** At every bit i is the exclusive or of pc and the history under the mask. */
  ghost predicate MaskedXor(i: nat, pc: nat, history: nat, mask: nat) {
    forall j: nat :: Bit(i, j) == ((Bit(pc, j) && Bit(mask, j)) != (Bit(history, j) && Bit(mask, j)))
  }

  /** The outcomes of entry s that the mask lets through, after `before`. */
  function Window(cfg: Config, before: seq<Branch>, s: nat): nat
    requires cfg.entries >= 1
  {
    Value(Latest(Of(cfg, before, s), cfg.historyBits))
  }

  /** A branch at pc after `before` uses counter i. */
  ghost predicate Uses(cfg: Config, before: seq<Branch>, pc: nat, i: nat)
    requires cfg.entries >= 1
  {
    match cfg.kind
    case Bimodal => Masked(i, pc, cfg.entries - 1)
    case TwoLevel => exists s: nat :: Masked(s, pc, cfg.entries - 1) && i == Window(cfg, before, s)
    case Local =>
      exists s: nat :: Masked(s, pc, cfg.entries - 1) && i == s * Pow2(cfg.historyBits) + Window(cfg, before, s)
    case Gshare => MaskedXor(i, pc, Value(Latest(before, 64)), cfg.entries - 1)
  }

  /** The outcomes of the branches that used counter i, in order. */
  ghost function Seen(cfg: Config, trace: seq<Branch>, i: nat): seq<bool>
    requires cfg.entries >= 1
  {
    if trace == [] then []
    else
      var k := |trace| - 1;
      if Uses(cfg, trace[..k], trace[k].pc, i) then Seen(cfg, trace[..k], i) + [trace[k].taken]
      else Seen(cfg, trace[..k], i)
  }

  // ---------------------------------------------------------------- saturating

  function Up(value: nat, top: nat): nat { if value + 1 <= top then value + 1 else top }

  function Down(value: nat): nat { if value == 0 then 0 else value - 1 }

  /** One up for each taken branch as far as the top, one down for each other as far as 0. */
  function Walk(top: nat, start: nat, outcomes: seq<bool>): nat {
    if outcomes == [] then start
    else
      var before := Walk(top, start, outcomes[..|outcomes| - 1]);
      if outcomes[|outcomes| - 1] then Up(before, top) else Down(before)
  }

  /** The program's limit; for one and two bits it is the largest number they hold. */
  function Top(cfg: Config): nat
    requires Valid(cfg)
  {
    Pow2(Pow2(cfg.counterBits - 1)) - 1
  }

  /** Half of the counter's range, where it starts and from where on it predicts taken. */
  function Half(cfg: Config): nat
    requires Valid(cfg)
  {
    Pow2(cfg.counterBits - 1)
  }

  function Repeated(taken: bool, n: nat): seq<bool> { seq(n, _ => taken) }

  lemma {:induction false} WalkUp(top: nat, start: nat, k: nat)
    requires start <= top
    ensures Walk(top, start, Repeated(true, k)) == if start + k <= top then start + k else top
  {
    if k > 0 {
      WalkUp(top, start, k - 1);
      assert Repeated(true, k)[..k - 1] == Repeated(true, k - 1);
    }
  }

  /** k taken branches and then j others move a counter up by k as far as the top, and then
      down by j as far as 0. */
  lemma {:induction false} WalkUpAndDown(top: nat, start: nat, k: nat, j: nat)
    requires start <= top
    ensures var high := if start + k <= top then start + k else top;
            Walk(top, start, Repeated(true, k) + Repeated(false, j)) == if j <= high then high - j else 0
  {
    var both := Repeated(true, k) + Repeated(false, j);
    if j > 0 {
      WalkUpAndDown(top, start, k, j - 1);
      assert both[..|both| - 1] == Repeated(true, k) + Repeated(false, j - 1);
    } else {
      WalkUp(top, start, k);
      assert both == Repeated(true, k);
    }
  }

  /** A saturated counter of two bits keeps its prediction over one wrong outcome, and not
      over two. */
  lemma TwoWrong(cfg: Config)
    requires Valid(cfg) && cfg.counterBits == 2
    ensures Top(cfg) == 3 && Half(cfg) == 2
    ensures forall k: nat :: k >= 1 ==>
              && Walk(3, 2, Repeated(true, k)) >= 2
              && Walk(3, 2, Repeated(true, k) + Repeated(false, 1)) >= 2
              && Walk(3, 2, Repeated(true, k) + Repeated(false, 2)) < 2
  {
    hide Walk;
    assert Pow2(1) == 2 && Pow2(2) == 4;
    forall k: nat | k >= 1
      ensures Walk(3, 2, Repeated(true, k)) >= 2
      ensures Walk(3, 2, Repeated(true, k) + Repeated(false, 1)) >= 2
      ensures Walk(3, 2, Repeated(true, k) + Repeated(false, 2)) < 2
    {
      WalkUp(3, 2, k);
      WalkUpAndDown(3, 2, k, 1);
      WalkUpAndDown(3, 2, k, 2);
    }
  }

  // ---------------------------------------------------------------- the index

  lemma MaskedIsAnd(i: nat, pc: nat, mask: nat)
    ensures Masked(i, pc, mask) <==> i == And(pc, mask)
  {
    hide Bit, And;
    forall j: nat ensures Bit(And(pc, mask), j) == (Bit(pc, j) && Bit(mask, j)) {
      AndBit(pc, mask, j);
    }
    if Masked(i, pc, mask) {
      SameBits(i, And(pc, mask));
    }
  }

  lemma MaskedXorIsXor(i: nat, pc: nat, history: nat, mask: nat)
    ensures MaskedXor(i, pc, history, mask) <==> i == Xor(And(pc, mask), And(history, mask))
  {
    hide Bit, And, Xor;
    var x := Xor(And(pc, mask), And(history, mask));
    forall j: nat ensures Bit(x, j) == ((Bit(pc, j) && Bit(mask, j)) != (Bit(history, j) && Bit(mask, j))) {
      AndBit(pc, mask, j);
      AndBit(history, mask, j);
      XorBit(And(pc, mask), And(history, mask), j);
    }
    if MaskedXor(i, pc, history, mask) {
      SameBits(i, x);
    }
  }

  /** Each branch uses exactly one counter, the one the program indexes. */
  lemma UsesIndex(cfg: Config, before: seq<Branch>, pc: nat, i: nat)
    requires Valid(cfg)
    ensures Uses(cfg, before, pc, i) <==> i == GetIndex(cfg, Run(cfg, before), pc)
  {
    hide Run, And, Xor, Bit, Masked, MaskedXor, Latest, Of, Value, Pow2, PhtSize, Low;
    var s := Hash(cfg, pc);
    HistoriesAreWindows(cfg, before, s);
    if cfg.kind == Bimodal {
      MaskedIsAnd(i, pc, cfg.entries - 1);
    } else if cfg.kind == Gshare {
      MaskedXorIsXor(i, pc, Value(Latest(before, 64)), cfg.entries - 1);
    } else {
      var mask: nat := cfg.entries - 1;
      forall z: nat ensures Masked(z, pc, mask) <==> z == s {
        MaskedIsAnd(z, pc, mask);
      }
      assert Masked(s, pc, cfg.entries - 1);
      assert Uses(cfg, before, pc, i) <==>
               i == if cfg.kind == TwoLevel then Window(cfg, before, s)
                    else s * Pow2(cfg.historyBits) + Window(cfg, before, s);
    }
  }

  // ---------------------------------------------------------------- counters and predictions

  lemma TopIsLimit(cfg: Config)
    requires Valid(cfg)
    ensures Top(cfg) == Limit(cfg) && Half(cfg) == WeaklyTaken(cfg) <= Top(cfg)
  {
    hide Pow2;
    var w := WeaklyTaken(cfg);
    DoublePow(w);
    Above(w);
  }

  lemma DoublePow(w: nat)
    requires w > 0
    ensures Pow2(w) == 2 * Pow2(w - 1)
  {
  }

  lemma {:induction false} Above(n: nat)
    ensures Pow2(n) > n
  {
    if n > 0 {
      Above(n - 1);
    }
  }

  lemma CountIsStep(cfg: Config, value: nat, taken: bool)
    requires Valid(cfg) && value <= Top(cfg)
    ensures BranchPredictor.Count(cfg, value, taken) == if taken then Up(value, Top(cfg)) else Down(value)
    ensures BranchPredictor.Count(cfg, value, taken) <= Top(cfg)
  {
    hide Limit, Top;
    TopIsLimit(cfg);
  }

  lemma StepOne(cfg: Config, trace: seq<Branch>, i: nat)
    requires Valid(cfg) && trace != [] && i < PhtSize(cfg)
    ensures var k := |trace| - 1;
            var was := Run(cfg, trace[..k]);
            var j := GetIndex(cfg, was, trace[k].pc);
            Run(cfg, trace).pht[i] == if i == j then BranchPredictor.Count(cfg, was.pht[i], trace[k].taken)
              else was.pht[i]
  {
    hide GetIndex, PhtSize, BranchPredictor.Count, Shift, Hash;
    var k := |trace| - 1;
    var was := Run(cfg, trace[..k]);
    SameIndex(cfg, was, trace[k].pc, Tally(was.stats, Predict(cfg, was, trace[k].pc)));
  }

  /** After any trace counter i is the saturating count of the outcomes of exactly the branches
      that used it. */
  lemma {:induction false} CountersExact(cfg: Config, trace: seq<Branch>, i: nat)
    requires Valid(cfg) && i < PhtSize(cfg)
    ensures Run(cfg, trace).pht[i] == Walk(Top(cfg), Half(cfg), Seen(cfg, trace, i)) <= Top(cfg)
  {
    hide Run, Uses, GetIndex, PhtSize, Top, Half, BranchPredictor.Count;
    TopIsLimit(cfg);
    if trace == [] {
      FreshCounter(cfg, i);
    } else {
      var k := |trace| - 1;
      CountersExact(cfg, trace[..k], i);
      UsesIndex(cfg, trace[..k], trace[k].pc, i);
      StepOne(cfg, trace, i);
      CountIsStep(cfg, Run(cfg, trace[..k]).pht[i], trace[k].taken);
      var seen := Seen(cfg, trace[..k], i);
      assert (seen + [trace[k].taken])[..|seen|] == seen;
    }
  }

  lemma FreshCounter(cfg: Config, i: nat)
    requires Valid(cfg) && i < PhtSize(cfg)
    ensures Run(cfg, []).pht[i] == Half(cfg)
  {
  }

  /** A branch is predicted taken exactly if its counter is in the upper half; a counter that has
      seen no branch is. */
  lemma PredictionsExact(cfg: Config, before: seq<Branch>, pc: nat, i: nat)
    requires Valid(cfg) && Uses(cfg, before, pc, i)
    ensures Predict(cfg, Run(cfg, before), pc) <==> Walk(Top(cfg), Half(cfg), Seen(cfg, before, i)) >= Half(cfg)
    ensures Seen(cfg, before, i) == [] ==> Predict(cfg, Run(cfg, before), pc)
  {
    hide Run, Uses, GetIndex, PhtSize, Top, Seen;
    UsesIndex(cfg, before, pc, i);
    IndexInBounds(cfg, Run(cfg, before), pc);
    CountersExact(cfg, before, i);
  }

  /** One more branch moves the counter it used by one, unless it is at its end, and no other. */
  lemma OneBranch(cfg: Config, before: seq<Branch>, br: Branch, i: nat)
    requires Valid(cfg) && i < PhtSize(cfg)
    ensures var was, now := Run(cfg, before).pht[i], Run(cfg, before + [br]).pht[i];
            if !Uses(cfg, before, br.pc, i) then now == was
            else if br.taken then now == (if was < Top(cfg) then was + 1 else was)
            else now == (if was > 0 then was - 1 else was)
  {
    hide Run, Uses, PhtSize, Top, Half;
    CountersExact(cfg, before, i);
    CountersExact(cfg, before + [br], i);
    assert (before + [br])[..|before|] == before;
    var seen := Seen(cfg, before, i);
    assert (seen + [br.taken])[..|seen|] == seen;
  }

  // ---------------------------------------------------------------- the score

  /** What the rules above predict for branch k of a trace. */
  ghost predicate Foretold(cfg: Config, trace: seq<Branch>, k: nat)
    requires Valid(cfg) && k < |trace|
  {
    exists i: nat :: Uses(cfg, trace[..k], trace[k].pc, i)
                     && Walk(Top(cfg), Half(cfg), Seen(cfg, trace[..k], i)) >= Half(cfg)
  }

  lemma ForetoldIsPredicted(cfg: Config, trace: seq<Branch>, k: nat)
    requires Valid(cfg) && k < |trace|
    ensures Foretold(cfg, trace, k) == Predict(cfg, Run(cfg, trace[..k]), trace[k].pc)
  {
    hide Run, Uses, GetIndex, PhtSize, Top, Half, Seen, Walk;
    var i := GetIndex(cfg, Run(cfg, trace[..k]), trace[k].pc);
    UsesIndex(cfg, trace[..k], trace[k].pc, i);
    PredictionsExact(cfg, trace[..k], trace[k].pc, i);
    forall z: nat | Uses(cfg, trace[..k], trace[k].pc, z) ensures z == i {
      UsesIndex(cfg, trace[..k], trace[k].pc, z);
    }
  }

  ghost function Score(cfg: Config, trace: seq<Branch>, n: nat): Stats
    requires Valid(cfg) && n <= |trace|
  {
    if n == 0 then Stats(0, 0, 0, 0)
    else
      var s, said := Score(cfg, trace, n - 1), Foretold(cfg, trace, n - 1);
      Stats(n, s.predTaken + if said then 1 else 0, s.predNotTaken + if said then 0 else 1,
            s.correct + if said == trace[n - 1].taken then 1 else 0)
  }

  /** The statistics of any run, from its trace. */
  lemma {:induction false} ScoreExact(cfg: Config, trace: seq<Branch>, n: nat)
    requires Valid(cfg) && n <= |trace|
    ensures Run(cfg, trace[..n]).stats == Score(cfg, trace, n)
  {
    hide Foretold, Predict, GetIndex, PhtSize, BranchPredictor.Count, Shift, Hash;
    if n > 0 {
      ScoreExact(cfg, trace, n - 1);
      ForetoldIsPredicted(cfg, trace, n - 1);
      assert trace[..n][..n - 1] == trace[..n - 1];
    }
  }
}
