/** The entries of a local-history predictor do not influence each other: each behaves like a
    predictor of one entry that sees only its own branches. */
module LocalHistories {
  import opened Bits
  import opened BranchPredictor
  import opened Histories

  /** The predictor of one entry. */
  function One(cfg: Config): Config { cfg.(entries := 1) }

  /** Where the counters of entry s begin. */
  function Start(cfg: Config, s: nat): nat {
    s * Pow2(cfg.historyBits)
  }

  lemma StartApart(cfg: Config, a: nat, b: nat)
    requires a < b
    ensures Start(cfg, a) + Pow2(cfg.historyBits) <= Start(cfg, b)
  {
    NextStretch(a, b, Pow2(cfg.historyBits));
  }

  lemma StartRoom(cfg: Config, s: nat)
    requires Valid(cfg) && cfg.kind == Local && s < cfg.entries
    ensures Start(cfg, s) + Pow2(cfg.historyBits) <= PhtSize(cfg)
  {
    LocalRoom(s, cfg.entries, Pow2(cfg.historyBits), cfg.counterBits);
  }

  /** The counters of entry s. */
  function Segment(cfg: Config, t: Tables, s: nat): (r: seq<nat>)
    requires Sized(cfg, t) && cfg.kind == Local && s < cfg.entries
    ensures |r| == Pow2(cfg.historyBits)
  {
    StartRoom(cfg, s);
    t.pht[Start(cfg, s)..Start(cfg, s) + Pow2(cfg.historyBits)]
  }

  /** Entry s of t and the only entry of o agree. */
  ghost predicate Agrees(cfg: Config, t: Tables, o: Tables, s: nat)
    requires Sized(cfg, t) && Sized(One(cfg), o) && cfg.kind == Local && s < cfg.entries
  {
    t.hist[s] == o.hist[0] && Segment(cfg, t, s) == Segment(One(cfg), o, 0)
  }

  lemma OneHash(cfg: Config, pc: nat)
    requires cfg.entries >= 1
    ensures Hash(One(cfg), pc) == 0
  {
  }

  lemma SegmentAt(cfg: Config, t: Tables, s: nat, j: nat)
    requires Sized(cfg, t) && cfg.kind == Local && s < cfg.entries && j < Pow2(cfg.historyBits)
    ensures Start(cfg, s) + j < |t.pht| && Segment(cfg, t, s)[j] == t.pht[Start(cfg, s) + j]
  {
    hide Pow2, Start, PhtSize;
    StartRoom(cfg, s);
  }

  /** The index of a branch lies in the segment of its entry, at its masked history. */
  lemma IndexInSegment(cfg: Config, t: Tables, pc: nat)
    requires Sized(cfg, t) && cfg.kind == Local
    ensures var s := Hash(cfg, pc);
            var j := Low(t.hist[s], cfg.historyBits);
            && j < Pow2(cfg.historyBits) && GetIndex(cfg, t, pc) == Start(cfg, s) + j < |t.pht|
            && t.pht[GetIndex(cfg, t, pc)] == Segment(cfg, t, s)[j]
  {
    hide Pow2, And, Low, PhtSize, Segment, Hash;
    AndOnes(t.hist[Hash(cfg, pc)], cfg.historyBits);
    LowBound(t.hist[Hash(cfg, pc)], cfg.historyBits);
    SegmentAt(cfg, t, Hash(cfg, pc), Low(t.hist[Hash(cfg, pc)], cfg.historyBits));
  }

  lemma SliceUpdate(q: seq<nat>, i: nat, v: nat, a: nat, p: nat)
    requires a + p <= |q| && i < |q|
    ensures if a <= i < a + p then q[i := v][a..a + p] == q[a..a + p][i - a := v]
            else q[i := v][a..a + p] == q[a..a + p]
  {
  }

  lemma SamePrediction(cfg: Config, t: Tables, o: Tables, pc: nat)
    requires Sized(cfg, t) && Sized(One(cfg), o) && cfg.kind == Local && Agrees(cfg, t, o, Hash(cfg, pc))
    ensures Predict(cfg, t, pc) == Predict(One(cfg), o, pc)
  {
    hide GetIndex, Segment;
    OneHash(cfg, pc);
    IndexInSegment(cfg, t, pc);
    IndexInSegment(One(cfg), o, pc);
  }

  /** A branch writes one counter of its own entry's segment and that entry's history. */
  lemma StepInSegment(cfg: Config, t: Tables, br: Branch, s: nat)
    requires Sized(cfg, t) && cfg.kind == Local && s < cfg.entries
    ensures var x := Step(cfg, t, br);
            var j := Low(t.hist[Hash(cfg, br.pc)], cfg.historyBits);
            if Hash(cfg, br.pc) == s then
              && x.hist[s] == Shift(t.hist[s], br.taken) && j < Pow2(cfg.historyBits)
              && Segment(cfg, x, s) == Segment(cfg, t, s)[j := Count(cfg, Segment(cfg, t, s)[j], br.taken)]
            else x.hist[s] == t.hist[s] && Segment(cfg, x, s) == Segment(cfg, t, s)
  {
    hide GetIndex, Predict, Count, Shift, Low, PhtSize, Pow2, Hash, Start;
    var p := Pow2(cfg.historyBits);
    var h := Hash(cfg, br.pc);
    IndexInSegment(cfg, t, br.pc);
    SameIndex(cfg, t, br.pc, Tally(t.stats, Predict(cfg, t, br.pc)));
    StartRoom(cfg, s);
    var i := Start(cfg, h) + Low(t.hist[h], cfg.historyBits);
    SliceUpdate(t.pht, i, Count(cfg, t.pht[i], br.taken), Start(cfg, s), p);
    if s < h {
      StartApart(cfg, s, h);
    } else if h < s {
      StartApart(cfg, h, s);
    }
  }

  lemma StepAgrees(cfg: Config, t: Tables, o: Tables, br: Branch, s: nat)
    requires Sized(cfg, t) && Sized(One(cfg), o) && cfg.kind == Local && s < cfg.entries && Agrees(cfg, t, o, s)
    ensures Agrees(cfg, Step(cfg, t, br), if Hash(cfg, br.pc) == s then Step(One(cfg), o, br) else o, s)
  {
    hide Segment, Step, Shift, Low, PhtSize, Hash, Pow2;
    OneHash(cfg, br.pc);
    StepInSegment(cfg, t, br, s);
    StepInSegment(One(cfg), o, br, 0);
  }

  lemma SetupAgrees(cfg: Config, s: nat)
    requires Valid(cfg) && cfg.kind == Local && s < cfg.entries
    ensures Agrees(cfg, Setup(cfg), Setup(One(cfg)), s)
  {
    hide Pow2, PhtSize, Start;
    StartRoom(cfg, s);
    StartRoom(One(cfg), 0);
  }

  /** The tables of a local-history predictor are those of one-entry predictors, one for each
      value of pc & index_mask, that have seen only the branches of their value. */
  lemma {:induction false} LocalDecomposes(cfg: Config, trace: seq<Branch>, s: nat)
    requires Valid(cfg) && cfg.kind == Local && s < cfg.entries
    ensures Run(cfg, trace).hist[s] == Run(One(cfg), Of(cfg, trace, s)).hist[0]
    ensures Segment(cfg, Run(cfg, trace), s) == Segment(One(cfg), Run(One(cfg), Of(cfg, trace, s)), 0)
  {
    hide Segment, Step, Hash;
    if trace == [] {
      SetupAgrees(cfg, s);
    } else {
      var k := |trace| - 1;
      LocalDecomposes(cfg, trace[..k], s);
      var before := Of(cfg, trace[..k], s);
      StepAgrees(cfg, Run(cfg, trace[..k]), Run(One(cfg), before), trace[k], s);
      assert (before + [trace[k]])[..|before|] == before;
    }
  }

  /** So is every prediction: branch k is predicted as by the predictor of its own entry. */
  lemma LocalPredictions(cfg: Config, trace: seq<Branch>, k: nat)
    requires Valid(cfg) && cfg.kind == Local && k < |trace|
    ensures Predict(cfg, Run(cfg, trace[..k]), trace[k].pc)
            == Predict(One(cfg), Run(One(cfg), Of(cfg, trace[..k], Hash(cfg, trace[k].pc))), trace[k].pc)
  {
    hide Run, Segment;
    var s := Hash(cfg, trace[k].pc);
    LocalDecomposes(cfg, trace[..k], s);
    SamePrediction(cfg, Run(cfg, trace[..k]), Run(One(cfg), Of(cfg, trace[..k], s)), trace[k].pc);
  }

  /** The correct predictions of the first n one-entry predictors. */
  function CorrectOf(cfg: Config, trace: seq<Branch>, n: nat): nat
    requires Valid(cfg)
  {
    if n == 0 then 0 else CorrectOf(cfg, trace, n - 1) + Run(One(cfg), Of(cfg, trace, n - 1)).stats.correct
  }

  lemma StepCorrect(cfg: Config, t: Tables, br: Branch)
    requires Sized(cfg, t)
    ensures Step(cfg, t, br).stats.correct == t.stats.correct + if Predict(cfg, t, br.pc) == br.taken then 1 else 0
  {
    hide GetIndex, Shift;
  }

  /** One more branch changes the score of its own entry's predictor alone. */
  lemma {:induction false} CorrectOfNext(cfg: Config, trace: seq<Branch>, n: nat)
    requires Valid(cfg) && cfg.kind == Local && trace != [] && n <= cfg.entries
    ensures var k := |trace| - 1;
            CorrectOf(cfg, trace, n) == CorrectOf(cfg, trace[..k], n)
              + if Hash(cfg, trace[k].pc) < n
                && Predict(cfg, Run(cfg, trace[..k]), trace[k].pc) == trace[k].taken then 1 else 0
  {
    hide Predict, Step, Hash;
    if n > 0 {
      CorrectOfNext(cfg, trace, n - 1);
      var k := |trace| - 1;
      var before := Of(cfg, trace[..k], n - 1);
      if Hash(cfg, trace[k].pc) == n - 1 {
        LocalPredictions(cfg, trace, k);
        StepCorrect(One(cfg), Run(One(cfg), before), trace[k]);
        assert (before + [trace[k]])[..|before|] == before;
      }
    }
  }

  lemma {:induction false} NothingCorrect(cfg: Config, n: nat)
    requires Valid(cfg)
    ensures CorrectOf(cfg, [], n) == 0
  {
    if n > 0 {
      NothingCorrect(cfg, n - 1);
    }
  }

  /** The number of correct predictions is the sum over the one-entry predictors. */
  lemma {:induction false} LocalCorrect(cfg: Config, trace: seq<Branch>)
    requires Valid(cfg) && cfg.kind == Local
    ensures Run(cfg, trace).stats.correct == CorrectOf(cfg, trace, cfg.entries)
  {
    hide Predict, Step, Hash, CorrectOf;
    if trace == [] {
      NothingCorrect(cfg, cfg.entries);
    } else {
      var k := |trace| - 1;
      LocalCorrect(cfg, trace[..k]);
      CorrectOfNext(cfg, trace, cfg.entries);
      StepCorrect(cfg, Run(cfg, trace[..k]), trace[k]);
      HashBelow(cfg, trace[k].pc);
    }
  }

  lemma HashBelow(cfg: Config, pc: nat)
    requires cfg.entries >= 1
    ensures Hash(cfg, pc) < cfg.entries
  {
  }
}
