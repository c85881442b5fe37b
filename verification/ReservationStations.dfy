/** The scheduler's own objects and loops, proved to compute module Scheduler's functions. The
    stations share one array: each owns the entries lo, ..., hi-1, whose tags are their
    indices plus one. */
module ReservationStations {
  import opened Scheduler
  import SchedulerInv
  import SchedulerBounds

  /** Registers are numbered from 1. */
  class Rat {
    const table: array<int>

    constructor (regs: nat)
      ensures fresh(table) && table[..] == seq(regs, _ => NONE)
    {
      table := new int[regs];
      new;
      for i := 0 to regs
        invariant forall j :: 0 <= j < i ==> table[j] == NONE
      {
        table[i] := NONE;
      }
    }

    method SetReg(reg: nat, val: int)
      requires 1 <= reg <= table.Length
      modifies table
      ensures table[..] == old(table[..])[reg - 1 := val]
    {
      table[reg - 1] := val;
    }

    method GetReg(reg: nat) returns (val: int)
      requires 1 <= reg <= table.Length
      ensures val == table[reg - 1]
    {
      val := table[reg - 1];
    }
  }

  /** The first startable entry of its type among table[lo..]. */
  predicate FiresIn(table: seq<Entry>, lo: nat, k: nat)
    requires lo <= k < |table|
  {
    Startable(table[k]) && forall j :: lo <= j < k ==> !(Startable(table[j]) && table[j].op == table[k].op)
  }

  predicate StartableOp(table: seq<Entry>, lo: nat, hi: nat, op: OpType)
    requires lo <= hi <= |table|
  {
    exists j :: lo <= j < hi && Startable(table[j]) && table[j].op == op
  }

  /** The flagged positions of a stretch of the table. */
  function FiresFlags(table: seq<Entry>, lo: nat, hi: nat): (f: seq<bool>)
    requires lo <= hi <= |table|
    ensures |f| == hi - lo
  {
    seq(hi - lo, i requires 0 <= i < hi - lo => FiresIn(table, lo, lo + i))
  }

  function ActiveFlags(table: seq<Entry>, lo: nat, hi: nat, op: OpType): (f: seq<bool>)
    requires lo <= hi <= |table|
    ensures |f| == hi - lo
  {
    seq(hi - lo, i requires 0 <= i < hi - lo => Active(table[lo + i], op))
  }

  function BusyFlags(table: seq<Entry>, lo: nat, hi: nat): (f: seq<bool>)
    requires lo <= hi <= |table|
    ensures |f| == hi - lo
  {
    seq(hi - lo, i requires 0 <= i < hi - lo => table[lo + i].valid && table[lo + i].start > 0)
  }

  lemma NextFires(table: seq<Entry>, lo: nat, i: nat)
    requires lo <= i < |table|
    ensures FiresIn(table, lo, i) == (Startable(table[i]) && !StartableOp(table, lo, i, table[i].op))
    ensures Count(FiresFlags(table, lo, i + 1))
            == Count(FiresFlags(table, lo, i)) + if FiresIn(table, lo, i) then 1 else 0
    ensures forall op ::
              StartableOp(table, lo, i + 1, op)
              == (StartableOp(table, lo, i, op) || (Startable(table[i]) && table[i].op == op))
  {
    hide Count;
    var f, more := FiresFlags(table, lo, i), FiresFlags(table, lo, i + 1);
    forall k | 0 <= k < |more| ensures more[k] == (f + [FiresIn(table, lo, i)])[k] {
    }
    assert more == f + [FiresIn(table, lo, i)];
    SchedulerBounds.CountAppend(f, FiresIn(table, lo, i));
  }

  lemma NothingFires(table: seq<Entry>, lo: nat)
    requires lo <= |table|
    ensures Count(FiresFlags(table, lo, lo)) == 0 && forall op :: !StartableOp(table, lo, lo, op)
  {
  }

  class Rest {
    const table: array<Entry>
    const lo: nat
    const hi: nat

    constructor (table: array<Entry>, lo: nat, hi: nat)
      requires lo <= hi <= table.Length
      ensures this.table == table && this.lo == lo && this.hi == hi
    {
      this.table, this.lo, this.hi := table, lo, hi;
    }

    /** The first free entry takes the instruction, and its destination the entry's tag; the
        instruction or the stall is counted. */
    method AddEntry(op: OpType, dest: nat, src1: int, src2: int, rat: Rat, counts: Stats)
      returns (ok: bool, counted: Stats)
      requires lo <= hi <= table.Length && 1 <= dest <= rat.table.Length
      modifies table, rat.table
      ensures var k := FirstFree(old(table[..]), lo, hi);
              && ok == (k < hi)
              && table[..] == (if ok then old(table[..])[k := Entry(true, op, dest, src1, src2, 0)] else old(table[..]))
              && rat.table[..] == (if ok then old(rat.table[..])[dest - 1 := k + 1] else old(rat.table[..]))
              && counted == if ok then counts.(insts := counts.insts + 1) else counts.(stalls := counts.stalls + 1)
    {
      var i := lo;
      while i < hi
        invariant lo <= i <= hi
        invariant table[..] == old(table[..]) && rat.table[..] == old(rat.table[..])
        invariant FirstFree(table[..], lo, hi) == FirstFree(table[..], i, hi)
      {
        if !table[i].valid {
          rat.SetReg(dest, i + 1);
          table[i] := Entry(true, op, dest, src1, src2, 0);
          return true, counts.(insts := counts.insts + 1);
        }
        i := i + 1;
      }
      ok, counted := false, counts.(stalls := counts.stalls + 1);
    }

    method IsEmpty() returns (empty: bool)
      requires lo <= hi <= table.Length
      ensures empty == forall k :: lo <= k < hi ==> !table[k].valid
    {
      for i := lo to hi
        invariant forall k :: lo <= k < i ==> !table[k].valid
      {
        if table[i].valid {
          return false;
        }
      }
      empty := true;
    }

    /** Starts the first startable entry of each type. */
    method FireReady(cycle: nat) returns (fired: nat)
      requires lo <= hi <= table.Length
      modifies table
      ensures forall k :: 0 <= k < table.Length ==>
                table[k] == if lo <= k < hi && FiresIn(old(table[..]), lo, k) then old(table[k]).(start := cycle)
                  else old(table[k])
      ensures fired == Count(FiresFlags(old(table[..]), lo, hi))
    {
      hide FiresIn, StartableOp, FiresFlags, Count;
      ghost var t := table[..];
      NothingFires(t, lo);
      fired := 0;
      var addFired, divFired, memFired := false, false, false;
      for i := lo to hi
        invariant addFired == StartableOp(t, lo, i, Add)
        invariant divFired == StartableOp(t, lo, i, Div)
        invariant memFired == StartableOp(t, lo, i, Mem)
        invariant forall k :: 0 <= k < table.Length ==>
                    table[k] == if lo <= k < i && FiresIn(t, lo, k) then t[k].(start := cycle) else t[k]
        invariant fired == Count(FiresFlags(t, lo, i))
      {
        NextFires(t, lo, i);
        var e := table[i];
        if e.valid && e.src1 == NONE && e.src2 == NONE && e.start == 0 {
          match e.op
          case Add =>
            if !addFired {
              table[i] := e.(start := cycle);
              fired := fired + 1;
              addFired := true;
            }
          case Div =>
            if !divFired {
              table[i] := e.(start := cycle);
              fired := fired + 1;
              divFired := true;
            }
          case Mem =>
            if !memFired {
              table[i] := e.(start := cycle);
              fired := fired + 1;
              memFired := true;
            }
        }
      }
    }

    method UpdateSources(tag: int)
      requires lo <= hi <= table.Length
      modifies table
      ensures forall k :: 0 <= k < table.Length ==>
                table[k] == if lo <= k < hi then Hear(old(table[k]), tag) else old(table[k])
    {
      for i := lo to hi
        invariant forall k :: 0 <= k < table.Length ==>
                    table[k] == if lo <= k < i then Hear(old(table[k]), tag) else old(table[k])
      {
        var e := table[i];
        if e.valid {
          if e.src1 == tag {
            e := e.(src1 := NONE);
          }
          if e.src2 == tag {
            e := e.(src2 := NONE);
          }
          table[i] := e;
        }
      }
    }

    /** For the station of a single functional unit. */
    method CountActive() returns (n: nat)
      requires lo <= hi <= table.Length
      ensures n == Count(BusyFlags(table[..], lo, hi))
    {
      ghost var t := table[..];
      n := 0;
      for i := lo to hi
        invariant n == Count(BusyFlags(t, lo, i))
      {
        assert BusyFlags(t, lo, i + 1) == BusyFlags(t, lo, i) + [t[i].valid && t[i].start > 0];
        SchedulerBounds.CountAppend(BusyFlags(t, lo, i), t[i].valid && t[i].start > 0);
        if table[i].valid && table[i].start > 0 {
          n := n + 1;
        }
      }
    }

    /** For the unified station. */
    method CountActiveU() returns (a: nat, d: nat, m: nat)
      requires lo <= hi <= table.Length
      ensures a == Count(ActiveFlags(table[..], lo, hi, Add))
      ensures d == Count(ActiveFlags(table[..], lo, hi, Div))
      ensures m == Count(ActiveFlags(table[..], lo, hi, Mem))
    {
      ghost var t := table[..];
      a, d, m := 0, 0, 0;
      for i := lo to hi
        invariant a == Count(ActiveFlags(t, lo, i, Add)) && d == Count(ActiveFlags(t, lo, i, Div))
        invariant m == Count(ActiveFlags(t, lo, i, Mem))
      {
        forall op ensures Count(ActiveFlags(t, lo, i + 1, op)) == Count(ActiveFlags(t, lo, i, op))
               + if Active(t[i], op) then 1 else 0 {
          assert ActiveFlags(t, lo, i + 1, op) == ActiveFlags(t, lo, i, op) + [Active(t[i], op)];
          SchedulerBounds.CountAppend(ActiveFlags(t, lo, i, op), Active(t[i], op));
        }
        if table[i].valid && table[i].start > 0 {
          match table[i].op
          case Add => a := a + 1;
          case Div => d := d + 1;
          case Mem => m := m + 1;
        }
      }
    }
  }

  // ---------------------------------------------------------------- stations within the table

  /** Every instruction in flight is in a station for its type. */
  predicate Placed(st: Stations, table: seq<Entry>) {
    forall k :: 0 <= k < |table| && table[k].valid ==> Low(st, table[k].op) <= k < High(st, table[k].op)
  }

  lemma IssuePlaced(st: Stations, s: Sched, inst: Inst)
    requires |s.table| == Slots(st) && ValidInst(inst, |s.rat|) && Placed(st, s.table)
    ensures Placed(st, TryIssue(st, s, inst).table)
  {
  }

  lemma StepPlaced(st: Stations, s: Sched)
    requires Fits(s) && Placed(st, s.table)
    ensures Placed(st, ClearCompleted(s).table) && Placed(st, FireTable(s.table, s.cycle))
  {
    SchedulerInv.CompleteFacts(s, |s.table|);
    forall k | 0 <= k < |s.table| ensures SchedulerInv.Cleared(s, |s.table|, ClearCompleted(s).table[k], k) {
    }
  }

  /** Within the station of one type nothing outside decides what starts. */
  lemma FiresInStation(st: Stations, table: seq<Entry>, op: OpType, t: seq<Entry>)
    requires Placed(st, table) && |table| == Slots(st) == |t| && st.PerUnit?
    requires t[Low(st, op)..] == table[Low(st, op)..]
    ensures forall k :: Low(st, op) <= k < High(st, op) ==>
              t[k] == table[k] && FiresIn(t, Low(st, op), k) == Fires(table, k)
    ensures FiresFlags(t, Low(st, op), High(st, op)) == FiresFlags(table, 0, |table|)[Low(st, op)..High(st, op)]
  {
    forall k | Low(st, op) <= k < |table| ensures t[k] == table[k] {
      assert t[Low(st, op)..][k - Low(st, op)] == table[Low(st, op)..][k - Low(st, op)];
    }
  }

  lemma {:induction false} CountThree(f: seq<bool>, i: nat, j: nat)
    requires i <= j <= |f|
    ensures Count(f) == Count(f[..i]) + Count(f[i..j]) + Count(f[j..])
  {
    hide Count;
    assert f == f[..j] + f[j..];
    assert f[..j] == f[..i] + f[i..j];
    SchedulerBounds.CountConcat(f[..i], f[i..j]);
    SchedulerBounds.CountConcat(f[..j], f[j..]);
  }

  lemma WholeTable(table: seq<Entry>)
    ensures Count(FiresFlags(table, 0, |table|)) == Starts(table)
    ensures forall op :: Count(ActiveFlags(table, 0, |table|, op)) == Running(table, op)
  {
    var n := |table|;
    assert FiresFlags(table, 0, n) == seq(n, k requires 0 <= k < n => Fires(table, k));
    forall op ensures Count(ActiveFlags(table, 0, n, op)) == Running(table, op) {
      assert ActiveFlags(table, 0, n, op) == seq(n, k requires 0 <= k < n => Active(table[k], op));
    }
  }

  lemma OnlyInStation(st: Stations, table: seq<Entry>, op: OpType)
    requires Placed(st, table) && |table| == Slots(st) && st.PerUnit?
    ensures forall k :: 0 <= k < |table| ==>
              Active(table[k], op) == (Low(st, op) <= k < High(st, op) && table[k].valid && table[k].start > 0)
  {
  }

  /** A station's running instructions are all those of its type. */
  lemma BusyInStation(st: Stations, table: seq<Entry>, op: OpType)
    requires Placed(st, table) && |table| == Slots(st) && st.PerUnit?
    ensures Count(BusyFlags(table, Low(st, op), High(st, op))) == Running(table, op)
  {
    hide Placed, Active, Count, Low, High;
    var n, lo, hi := |table|, Low(st, op), High(st, op);
    var f := ActiveFlags(table, 0, n, op);
    WholeTable(table);
    CountThree(f, lo, hi);
    OnlyInStation(st, table, op);
    assert f[lo..hi] == BusyFlags(table, lo, hi);
    SchedulerBounds.CountZero(f[..lo]);
    SchedulerBounds.CountZero(f[hi..]);
  }

  // ---------------------------------------------------------------- the scheduler

  function CompletionFlags(s: Sched, lo: nat, hi: nat): (f: seq<bool>)
    requires lo <= hi <= |s.table|
    ensures |f| == hi - lo
  {
    seq(hi - lo, i requires 0 <= i < hi - lo => Completing(s.table[lo + i], s.cycle))
  }

  lemma CompleteNext(s: Sched, k: nat)
    requires Fits(s) && k < |s.table|
    ensures Completing(Complete(s, k).table[k], s.cycle) == Completing(s.table[k], s.cycle)
    ensures Complete(s, k + 1) == CompleteSlot(Complete(s, k), k)
    ensures Complete(s, k).table[k].valid ==> 1 <= Complete(s, k).table[k].dest <= |s.rat|
  {
    SchedulerInv.CompleteFacts(s, k);
    assert SchedulerInv.Cleared(s, k, Complete(s, k).table[k], k);
  }

  lemma CompletionsNext(s: Sched, lo: nat, k: nat)
    requires lo <= k < |s.table|
    ensures Count(CompletionFlags(s, lo, k + 1)) == Count(CompletionFlags(s, lo, k))
            + if Completing(s.table[k], s.cycle) then 1 else 0
  {
    assert CompletionFlags(s, lo, k + 1) == CompletionFlags(s, lo, k) + [Completing(s.table[k], s.cycle)];
    SchedulerBounds.CountAppend(CompletionFlags(s, lo, k), Completing(s.table[k], s.cycle));
  }

  lemma NoCompletions(s: Sched, lo: nat)
    requires lo <= |s.table|
    ensures Count(CompletionFlags(s, lo, lo)) == 0
  {
  }

  lemma CompleteNone(s: Sched)
    requires Fits(s)
    ensures Complete(s, 0) == s
  {
  }

  lemma FireFits(s: Sched)
    requires Fits(s)
    ensures Fits(s.(table := FireTable(s.table, s.cycle)))
  {
  }

  lemma CompletionStretch(s: Sched, i: nat, j: nat)
    requires i <= j <= |s.table|
    ensures CompletionFlags(s, 0, |s.table|)[i..j] == CompletionFlags(s, i, j)
  {
    forall k | 0 <= k < j - i ensures CompletionFlags(s, 0, |s.table|)[i..j][k] == CompletionFlags(s, i, j)[k] {
      assert CompletionFlags(s, 0, |s.table|)[i + k] == Completing(s.table[i + k], s.cycle);
    }
  }

  lemma AllTogether(s: Sched)
    ensures Count(CompletionFlags(s, 0, |s.table|)) == Completions(s.table, s.cycle)
  {
    var n := |s.table|;
    assert CompletionFlags(s, 0, n) == seq(n, k requires 0 <= k < n => Completing(s.table[k], s.cycle));
  }

  lemma AllCompletions(s: Sched, i: nat, j: nat)
    requires i <= j <= |s.table|
    ensures Completions(s.table, s.cycle) == Count(CompletionFlags(s, 0, i)) + Count(CompletionFlags(s, i, j))
                                             + Count(CompletionFlags(s, j, |s.table|))
  {
    hide CompletionFlags, Count, Completions;
    var n := |s.table|;
    var f := CompletionFlags(s, 0, n);
    AllTogether(s);
    CountThree(f, i, j);
    CompletionStretch(s, 0, i);
    CompletionStretch(s, i, j);
    CompletionStretch(s, j, n);
    assert f[..i] == f[0..i] && f[j..] == f[j..n];
  }

  lemma FiresAlone(table: seq<Entry>)
    ensures forall k :: 0 <= k < |table| ==> FiresIn(table, 0, k) == Fires(table, k)
  {
  }

  /** Three stations start what the whole table would. */
  lemma ThreeFire(st: Stations, t0: seq<Entry>, t1: seq<Entry>, t2: seq<Entry>, t3: seq<Entry>, cycle: nat)
    requires st.PerUnit? && Placed(st, t0) && |t0| == |t1| == |t2| == |t3| == Slots(st)
    requires forall k :: 0 <= k < |t0| ==>
               t1[k] == if k < st.add && FiresIn(t0, 0, k) then t0[k].(start := cycle) else t0[k]
    requires forall k :: 0 <= k < |t0| ==>
               t2[k] == if st.add <= k < st.add + st.div && FiresIn(t1, st.add, k)
                        then t1[k].(start := cycle) else t1[k]
    requires forall k :: 0 <= k < |t0| ==>
               t3[k] == if st.add + st.div <= k && FiresIn(t2, st.add + st.div, k)
                        then t2[k].(start := cycle) else t2[k]
    ensures t3 == FireTable(t0, cycle)
    ensures Count(FiresFlags(t0, 0, st.add)) + Count(FiresFlags(t1, st.add, st.add + st.div))
            + Count(FiresFlags(t2, st.add + st.div, |t0|)) == Starts(t0)
  {
    hide FiresIn, Fires, FiresFlags, Count, Starts, Placed;
    var a, b, n := st.add, st.add + st.div, |t0|;
    assert t1[a..] == t0[a..];
    assert t2[b..] == t0[b..];
    FiresInStation(st, t0, Add, t0);
    FiresInStation(st, t0, Div, t1);
    FiresInStation(st, t0, Mem, t2);
    WholeTable(t0);
    CountThree(FiresFlags(t0, 0, n), a, b);
    assert FiresFlags(t0, 0, n)[b..] == FiresFlags(t0, 0, n)[b..n]
           && FiresFlags(t0, 0, n)[..a] == FiresFlags(t0, 0, n)[0..a];
  }

  lemma NotFinished(trace: seq<Inst>, r: Run)
    requires r.next < |trace|
    ensures !Finished(trace, r)
  {
  }

  lemma StepCycle(s: Sched)
    requires Fits(s)
    ensures Scheduler.Step(s).cycle == s.cycle + 1
  {
  }

  lemma IssueCycle(st: Stations, s: Sched, inst: Inst)
    requires |s.table| == Slots(st) && ValidInst(inst, |s.rat|)
    ensures TryIssue(st, s, inst).cycle == s.cycle
  {
  }

  lemma NoCycles(st: Stations, regs: nat, trace: seq<Inst>)
    requires Good(st, regs, trace)
    ensures After(st, regs, trace, 0) == Run(Initial(st, regs), 0)
  {
  }

  lemma CountsIssued(st: Stations, regs: nat, trace: seq<Inst>, r: Run)
    requires Sized(st, regs, trace, r) && r.s.stats.insts == r.next
    ensures Advance(st, regs, trace, r).s.stats.insts == Advance(st, regs, trace, r).next
  {
  }

  /** The counter of issued instructions is the position in the trace. */
  lemma {:induction false} IssuedAreCounted(st: Stations, regs: nat, trace: seq<Inst>, m: nat)
    requires Good(st, regs, trace)
    ensures After(st, regs, trace, m).s.stats.insts == After(st, regs, trace, m).next
  {
    hide After, Advance;
    if m > 0 {
      IssuedAreCounted(st, regs, trace, m - 1);
      AfterNext(st, regs, trace, m - 1);
      CountsIssued(st, regs, trace, After(st, regs, trace, m - 1));
    } else {
      NoCycles(st, regs, trace);
    }
  }

  /** The alias table, the stations and the clock. With one station it takes every type, with
      three they are for ADD, DIV and MEM. */
  class Core {
    const st: Stations
    const rat: Rat
    const table: array<Entry>
    const rests: seq<Rest>
    var cycle: nat
    var stats: Stats

    constructor (st: Stations, regs: nat)
      ensures this.st == st && Valid() && View() == Initial(st, regs) && fresh(table) && fresh(rat.table)
    {
      var entries := new Entry[Slots(st)](_ => Entry(false, Add, 0, 0, 0, 0));
      this.st, table, cycle, stats := st, entries, 1, Stats(0, 0, 0, 0, 0, 0, 0);
      rat := new Rat(regs);
      match st {
        case Unified(n) =>
          var u := new Rest(entries, 0, n);
          rests := [u];
        case PerUnit(a, d, m) =>
          var addRest := new Rest(entries, 0, a);
          var divRest := new Rest(entries, a, a + d);
          var memRest := new Rest(entries, a + d, a + d + m);
          rests := [addRest, divRest, memRest];
      }
    }

    ghost predicate Owns(j: nat, lo: nat, hi: nat)
    {
      j < |rests| && rests[j].table == table && rests[j].lo == lo && rests[j].hi == hi
    }

    ghost predicate Wired()
    {
      && table.Length == Slots(st)
      && match st
         case Unified(n) => |rests| == 1 && Owns(0, 0, n)
         case PerUnit(a, d, m) => |rests| == 3 && Owns(0, 0, a) && Owns(1, a, a + d) && Owns(2, a + d, a + d + m)
    }

    ghost predicate Valid()
      reads this, table, rat.table
    {
      Wired() && Fits(View()) && Placed(st, table[..])
    }

    ghost function View(): Sched
      reads this, table, rat.table
    {
      Sched(rat.table[..], table[..], cycle, stats)
    }

    method Station(op: OpType) returns (rest: Rest)
      requires Wired()
      ensures rest.table == table && rest.lo == Low(st, op) && rest.hi == High(st, op)
    {
      if st.Unified? {
        return rests[0];
      }
      match op
      case Add => rest := rests[0];
      case Div => rest := rests[1];
      case Mem => rest := rests[2];
    }

    method ReadAlias(src: int) returns (alias: int)
      requires src == NONE || 1 <= src <= rat.table.Length
      ensures alias == Alias(rat.table[..], src)
    {
      alias := src;
      if src != NONE {
        alias := rat.GetReg(src);
      }
    }

    /** Sources become the tags of their writers, and the station for the type is tried. */
    method TryIssue(inst: Inst) returns (ok: bool)
      requires Valid() && ValidInst(inst, rat.table.Length)
      modifies this`stats, table, rat.table
      ensures Valid() && ok == CanIssue(st, old(View()), inst.op)
      ensures View() == Scheduler.TryIssue(st, old(View()), inst)
    {
      hide FirstFree, Placed, Fits;
      IssuePlaced(st, View(), inst);
      var alias1 := ReadAlias(inst.src1);
      var alias2 := ReadAlias(inst.src2);
      var rest := Station(inst.op);
      ok, stats := rest.AddEntry(inst.op, inst.dest, alias1, alias2, rat, stats);
    }

    method BroadcastComplete(tag: int)
      requires Wired()
      modifies table
      ensures table[..] == Broadcast(old(table[..]), tag)
    {
      rests[0].UpdateSources(tag);
      if st.PerUnit? {
        rests[1].UpdateSources(tag);
        rests[2].UpdateSources(tag);
      }
    }

    /** The entries of one station whose time has come complete in turn. */
    method CompleteInsts(rest: Rest, ghost s: Sched) returns (completed: nat)
      requires Wired() && Fits(s) && |s.table| == table.Length && |s.rat| == rat.table.Length
      requires rest.table == table && rest.lo <= rest.hi <= table.Length && View() == Complete(s, rest.lo)
      modifies table, rat.table
      ensures View() == Complete(s, rest.hi)
      ensures completed == Count(CompletionFlags(s, rest.lo, rest.hi))
    {
      hide Complete, Count, CompletionFlags, Latency;
      completed := 0;
      NoCompletions(s, rest.lo);
      for i := rest.lo to rest.hi
        invariant View() == Complete(s, i)
        invariant completed == Count(CompletionFlags(s, rest.lo, i))
      {
        CompleteNext(s, i);
        CompletionsNext(s, rest.lo, i);
        var e := table[i];
        if e.valid && e.start != 0 {
          if cycle - Latency(e.op) == e.start {
            rat.SetReg(e.dest, NONE);
            table[i] := e.(valid := false);
            BroadcastComplete(i + 1);
            completed := completed + 1;
          }
        }
      }
    }

    method ClearCompleted()
      requires Valid()
      modifies this`stats, table, rat.table
      ensures Valid() && cycle == old(cycle) && View() == Scheduler.ClearCompleted(old(View()))
    {
      hide Complete, Completions, CompletionFlags, Count, Placed;
      ghost var s := View();
      StepPlaced(st, s);
      CompleteNone(s);
      AllTogether(s);
      var completed := CompleteInsts(rests[0], s);
      if st.PerUnit? {
        AllCompletions(s, st.add, st.add + st.div);
        var d := CompleteInsts(rests[1], s);
        var m := CompleteInsts(rests[2], s);
        completed := completed + d + m;
      }
      if completed > stats.maxCompleted {
        stats := stats.(maxCompleted := completed);
      }
    }

    method FireReady() returns (fired: nat)
      requires Valid()
      modifies table
      ensures Valid() && table[..] == FireTable(old(table[..]), cycle) && fired == Starts(old(table[..]))
    {
      hide FiresIn, FiresFlags, Count, Starts, Placed;
      ghost var s := View();
      ghost var t0 := table[..];
      StepPlaced(st, s);
      FireFits(s);
      WholeTable(t0);
      fired := rests[0].FireReady(cycle);
      if st.Unified? {
        FiresAlone(t0);
        assert forall k :: 0 <= k < |t0| ==> table[k] == FireTable(t0, cycle)[k];
        assert table[..] == FireTable(t0, cycle);
      } else {
        ghost var t1 := table[..];
        var d := rests[1].FireReady(cycle);
        ghost var t2 := table[..];
        var m := rests[2].FireReady(cycle);
        fired := fired + d + m;
        ThreeFire(st, t0, t1, t2, table[..], cycle);
      }
      assert View() == s.(table := FireTable(t0, cycle));
    }

    method CountRunning() returns (a: nat, d: nat, m: nat)
      requires Valid()
      ensures a == Running(table[..], Add) && d == Running(table[..], Div) && m == Running(table[..], Mem)
    {
      hide BusyFlags, ActiveFlags, Count, Running, Placed;
      WholeTable(table[..]);
      if st.Unified? {
        a, d, m := rests[0].CountActiveU();
      } else {
        BusyInStation(st, table[..], Add);
        BusyInStation(st, table[..], Div);
        BusyInStation(st, table[..], Mem);
        a := rests[0].CountActive();
        d := rests[1].CountActive();
        m := rests[2].CountActive();
      }
    }

    method StartReady()
      requires Valid()
      modifies this`stats, table
      ensures Valid() && View() == Scheduler.StartReady(old(View()))
    {
      hide Starts, Running, FireTable, Placed;
      var fired := FireReady();
      if fired > stats.maxFired {
        stats := stats.(maxFired := fired);
      }
      var a, d, m := CountRunning();
      if a > stats.maxAdd {
        stats := stats.(maxAdd := a);
      }
      if d > stats.maxDiv {
        stats := stats.(maxDiv := d);
      }
      if m > stats.maxMem {
        stats := stats.(maxMem := m);
      }
    }

    method Step()
      requires Valid()
      modifies this`cycle, this`stats, table, rat.table
      ensures Valid() && View() == Scheduler.Step(old(View()))
    {
      hide Scheduler.ClearCompleted, Scheduler.StartReady, Placed;
      cycle := cycle + 1;
      ClearCompleted();
      StartReady();
    }

    method Completed() returns (done: bool)
      requires Valid()
      ensures done == Empty(View())
    {
      done := rests[0].IsEmpty();
      if st.PerUnit? {
        var d := rests[1].IsEmpty();
        var m := rests[2].IsEmpty();
        done := done && d && m;
      }
    }

    /** The core has run the first cycles of the trace and the run is not over before now. */
    ghost predicate OnTrack(trace: seq<Inst>, next: nat)
      requires Good(st, rat.table.Length, trace)
      reads this, table, rat.table
    {
      && Valid() && cycle >= 1
      && After(st, rat.table.Length, trace, cycle - 1) == Run(View(), next)
      && forall j :: 0 <= j < cycle - 1 ==> !Finished(trace, After(st, rat.table.Length, trace, j))
    }

    /** One attempt to issue, and the cycle that follows it either way. */
    method Attempt(trace: seq<Inst>, next: nat) returns (ok: bool)
      requires next < |trace| && Good(st, rat.table.Length, trace) && OnTrack(trace, next)
      modifies this`cycle, this`stats, table, rat.table
      ensures OnTrack(trace, if ok then next + 1 else next)
      ensures cycle == old(cycle) + 1 <= 21 * |trace| + 1
    {
      hide After, Scheduler.TryIssue, Scheduler.Step;
      ghost var r := Run(View(), next);
      NotFinished(trace, r);
      SchedulerBounds.StillTime(st, rat.table.Length, trace, cycle - 1);
      AfterNext(st, rat.table.Length, trace, cycle - 1);
      IssueCycle(st, r.s, trace[next]);
      ok := TryIssue(trace[next]);
      StepCycle(View());
      Step();
    }

    /** A cycle in which the trace has been read. */
    method Drain(trace: seq<Inst>)
      requires Good(st, rat.table.Length, trace) && OnTrack(trace, |trace|) && !Empty(View())
      modifies this`cycle, this`stats, table, rat.table
      ensures OnTrack(trace, |trace|)
      ensures cycle == old(cycle) + 1 <= 21 * |trace| + 1
    {
      hide After, Scheduler.Step;
      SchedulerBounds.StillTime(st, rat.table.Length, trace, cycle - 1);
      AfterNext(st, rat.table.Length, trace, cycle - 1);
      StepCycle(View());
      Step();
    }

    /** Every instruction is retried until it is issued, one cycle per attempt, and then the
        pipeline drains. */
    method RunTrace(trace: seq<Inst>)
      requires Valid() && Good(st, rat.table.Length, trace) && View() == Initial(st, rat.table.Length)
      modifies this`cycle, this`stats, table, rat.table
      ensures Valid() && 1 <= cycle <= 21 * |trace| + 1
      ensures var r := After(st, rat.table.Length, trace, cycle - 1); View() == r.s && Finished(trace, r)
      ensures forall j :: 0 <= j < cycle - 1 ==> !Finished(trace, After(st, rat.table.Length, trace, j))
      ensures stats.insts == |trace| && SchedulerBounds.Modest(stats)
    {
      hide After, SchedulerBounds.Modest, Valid;
      NoCycles(st, rat.table.Length, trace);
      for next := 0 to |trace|
        invariant OnTrack(trace, next) && cycle <= 21 * |trace| + 1
      {
        var success := false;
        while !success
          invariant OnTrack(trace, if success then next + 1 else next) && cycle <= 21 * |trace| + 1
          decreases !success, 21 * |trace| + 1 - cycle
        {
          success := Attempt(trace, next);
        }
      }
      var done := Completed();
      while !done
        invariant OnTrack(trace, |trace|) && cycle <= 21 * |trace| + 1 && done == Empty(View())
        decreases 21 * |trace| + 1 - cycle
      {
        Drain(trace);
        done := Completed();
      }
      IssuedAreCounted(st, rat.table.Length, trace, cycle - 1);
      SchedulerBounds.Occupancy(st, rat.table.Length, trace, cycle - 1);
    }
  }

  /** A whole simulation, from trace to statistics. */
  method Simulate(st: Stations, regs: nat, trace: seq<Inst>) returns (cycles: nat, stats: Stats)
    requires Good(st, regs, trace)
    ensures 1 <= cycles <= 21 * |trace| + 1
    ensures var r := After(st, regs, trace, cycles - 1); Finished(trace, r) && stats == r.s.stats
    ensures forall j :: 0 <= j < cycles - 1 ==> !Finished(trace, After(st, regs, trace, j))
    ensures stats.insts == |trace| && SchedulerBounds.Modest(stats)
  {
    hide After, SchedulerBounds.Modest, Finished;
    var core := new Core(st, regs);
    core.RunTrace(trace);
    cycles, stats := core.cycle, core.stats;
  }
}
