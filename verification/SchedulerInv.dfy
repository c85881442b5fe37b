/** What holds in every cycle of the scheduler: tags name older instructions in flight, aliases
    name the latest writers, and running instructions of one type started in different
    recent cycles. */
module SchedulerInv {
  import opened Scheduler

  /** The history the scheduler does not keep: the number of the instruction in each entry, and
      by instruction the cycle of its issue and of its start (0 if it has not started). */
  datatype Past = Past(ids: seq<nat>, issuedAt: seq<nat>, starts: seq<nat>)

  predicate Recorded(r: Run, p: Past) {
    |p.ids| == |r.s.table| && |p.issuedAt| == |p.starts| == r.next
  }

  function PastFeed(st: Stations, regs: nat, trace: seq<Inst>, r: Run, p: Past): (p': Past)
    requires Sized(st, regs, trace, r) && Recorded(r, p)
    ensures Recorded(Feed(st, regs, trace, r), p')
  {
    if r.next == |trace| || !CanIssue(st, r.s, trace[r.next].op) then p
    else Past(p.ids[FreeSlot(st, r.s, trace[r.next].op) := r.next], p.issuedAt + [r.s.cycle], p.starts + [0])
  }

  /** Alongside FireTable. */
  function PastFire(table: seq<Entry>, cycle: nat, p: Past): (p': Past)
    requires |p.ids| == |table|
    ensures p'.ids == p.ids && p'.issuedAt == p.issuedAt && |p'.starts| == |p.starts|
  {
    p.(starts := seq(|p.starts|, i requires 0 <= i < |p.starts| =>
                       if exists k :: 0 <= k < |table| && p.ids[k] == i && Fires(table, k) then cycle else p.starts[i]))
  }

  function PastAdvance(st: Stations, regs: nat, trace: seq<Inst>, r: Run, p: Past): (p': Past)
    requires Sized(st, regs, trace, r) && Recorded(r, p)
    ensures Recorded(Advance(st, regs, trace, r), p')
  {
    var x := Feed(st, regs, trace, r);
    var s := ClearCompleted(x.s.(cycle := x.s.cycle + 1));
    PastFire(s.table, s.cycle, PastFeed(st, regs, trace, r, p))
  }

  function PastAfter(st: Stations, regs: nat, trace: seq<Inst>, m: nat): (p: Past)
    requires Good(st, regs, trace)
    ensures Recorded(After(st, regs, trace, m), p)
  {
    if m == 0 then Past(seq(Slots(st), _ => 0), [], [])
    else PastAdvance(st, regs, trace, After(st, regs, trace, m - 1), PastAfter(st, regs, trace, m - 1))
  }

  // ---------------------------------------------------------------- the invariant

  ghost predicate Ids(trace: seq<Inst>, r: Run, p: Past) {
    && Recorded(r, p) && r.next <= |trace|
    && (forall k :: 0 <= k < |r.s.table| && r.s.table[k].valid ==>
          && p.ids[k] < r.next && p.starts[p.ids[k]] == r.s.table[k].start
          && r.s.table[k].op == trace[p.ids[k]].op && r.s.table[k].dest == trace[p.ids[k]].dest)
    && (forall j, k :: 0 <= j < k < |r.s.table| && r.s.table[j].valid && r.s.table[k].valid ==> p.ids[j] != p.ids[k])
  }

  /** Source `src` of entry k is ready or the tag of an older instruction in flight. */
  predicate NamesOlder(table: seq<Entry>, ids: seq<nat>, k: nat, src: int)
    requires |ids| == |table| && k < |table|
  {
    src == NONE || (1 <= src <= |table| && table[src - 1].valid && ids[src - 1] < ids[k])
  }

  ghost predicate Tags(r: Run, p: Past) {
    && |p.ids| == |r.s.table|
    && forall k :: 0 <= k < |r.s.table| && r.s.table[k].valid ==>
         NamesOlder(r.s.table, p.ids, k, r.s.table[k].src1) && NamesOlder(r.s.table, p.ids, k, r.s.table[k].src2)
  }

  /** Instruction i is the last of trace[..n] to write register x. */
  predicate LastWriter(trace: seq<Inst>, n: nat, i: nat, x: nat)
    requires n <= |trace|
  {
    i < n && trace[i].dest == x && forall j :: i < j < n ==> trace[j].dest != x
  }

  /** An alias is the tag of an instruction in flight, the latest issued writer of its register. */
  ghost predicate Aliases(trace: seq<Inst>, r: Run, p: Past) {
    && |p.ids| == |r.s.table| && r.next <= |trace|
    && forall x {:trigger r.s.rat[x]} :: 0 <= x < |r.s.rat| && r.s.rat[x] != NONE ==>
         && 1 <= r.s.rat[x] <= |r.s.table| && r.s.table[r.s.rat[x] - 1].valid
         && LastWriter(trace, r.next, p.ids[r.s.rat[x] - 1], x + 1)
  }

  /** Between steps `slack` is 0; while the clock has moved and completed instructions are not
      yet cleared it is 1. */
  ghost predicate Timing(s: Sched, slack: nat) {
    && (forall k :: 0 <= k < |s.table| && s.table[k].valid && s.table[k].start != 0 ==>
          && s.table[k].src1 == NONE && s.table[k].src2 == NONE
          && s.table[k].start + slack <= s.cycle < s.table[k].start + Latency(s.table[k].op) + slack)
    && (forall j, k :: 0 <= j < k < |s.table| && SameUnit(s.table[j], s.table[k]) ==>
          s.table[j].start != s.table[k].start)
  }

  /** Both entries are running, in the same functional unit. */
  predicate SameUnit(d: Entry, e: Entry) {
    d.valid && e.valid && d.start != 0 && e.start != 0 && d.op == e.op
  }

  predicate InFlight(r: Run, p: Past, i: nat)
    requires |p.ids| == |r.s.table|
  {
    exists k :: 0 <= k < |r.s.table| && r.s.table[k].valid && p.ids[k] == i
  }

  /** Instruction i has completed by the given cycle. */
  predicate Completed(trace: seq<Inst>, p: Past, cycle: nat, i: nat)
    requires i < |p.starts| <= |trace|
  {
    p.starts[i] != 0 && p.starts[i] + Latency(trace[i].op) <= cycle
  }

  /** An issued instruction is in flight or has run for its latency. */
  ghost predicate Accounted(trace: seq<Inst>, r: Run, p: Past) {
    && Recorded(r, p) && r.next <= |trace|
    && forall i :: 0 <= i < r.next ==> InFlight(r, p, i) || Completed(trace, p, r.s.cycle, i)
  }

  ghost predicate Inv(trace: seq<Inst>, r: Run, p: Past, slack: nat) {
    && r.s.cycle >= 1
    && Ids(trace, r, p) && Tags(r, p) && Aliases(trace, r, p) && Timing(r.s, slack) && Accounted(trace, r, p)
  }

  // ---------------------------------------------------------------- issue

  /** Run x is run r after instruction r.next has been put into entry k. */
  ghost predicate Issues(trace: seq<Inst>, r: Run, p: Past, x: Run, p': Past, k: nat) {
    && r.next < |trace| && k < |r.s.table| == |p.ids| && !r.s.table[k].valid
    && var i := trace[r.next];
       && ValidInst(i, |r.s.rat|)
       && x == Run(x.s, r.next + 1)
       && x.s.table == r.s.table[k := Entry(true, i.op, i.dest, Alias(r.s.rat, i.src1), Alias(r.s.rat, i.src2), 0)]
       && x.s.rat == r.s.rat[i.dest - 1 := k + 1] && x.s.cycle == r.s.cycle
       && p' == Past(p.ids[k := r.next], p.issuedAt + [r.s.cycle], p.starts + [0])
  }

  lemma IssueKeepsIds(trace: seq<Inst>, r: Run, p: Past, x: Run, p': Past, k: nat)
    requires Ids(trace, r, p) && Issues(trace, r, p, x, p', k)
    ensures Ids(trace, x, p')
  {
  }

  lemma IssueKeepsTags(trace: seq<Inst>, r: Run, p: Past, x: Run, p': Past, k: nat)
    requires Ids(trace, r, p) && Tags(r, p) && Aliases(trace, r, p) && Issues(trace, r, p, x, p', k)
    ensures Tags(x, p')
  {
    hide Ids, Aliases, NamesOlder;
    forall j | 0 <= j < |x.s.table| && x.s.table[j].valid
      ensures NamesOlder(x.s.table, p'.ids, j, x.s.table[j].src1) && NamesOlder(x.s.table, p'.ids, j, x.s.table[j].src2)
    {
      if j == k {
        AliasNamesOlder(trace, r, p, x, p', k, trace[r.next].src1);
        AliasNamesOlder(trace, r, p, x, p', k, trace[r.next].src2);
      } else {
        OldNamesOlder(trace, r, p, x, p', k, j, r.s.table[j].src1);
        OldNamesOlder(trace, r, p, x, p', k, j, r.s.table[j].src2);
      }
    }
  }

  lemma AliasNamesOlder(trace: seq<Inst>, r: Run, p: Past, x: Run, p': Past, k: nat, src: int)
    requires Ids(trace, r, p) && Aliases(trace, r, p) && Issues(trace, r, p, x, p', k)
    requires src == NONE || 1 <= src <= |r.s.rat|
    ensures NamesOlder(x.s.table, p'.ids, k, Alias(r.s.rat, src))
  {
    if src != NONE && r.s.rat[src - 1] != NONE {
      var w := r.s.rat[src - 1] - 1;
      assert r.s.table[w].valid && w != k;
    }
  }

  lemma OldNamesOlder(trace: seq<Inst>, r: Run, p: Past, x: Run, p': Past, k: nat, j: nat, src: int)
    requires Issues(trace, r, p, x, p', k) && j < |r.s.table| && j != k && NamesOlder(r.s.table, p.ids, j, src)
    ensures NamesOlder(x.s.table, p'.ids, j, src)
  {
  }

  lemma IssueKeepsAliases(trace: seq<Inst>, r: Run, p: Past, x: Run, p': Past, k: nat)
    requires Ids(trace, r, p) && Aliases(trace, r, p) && Issues(trace, r, p, x, p', k)
    ensures Aliases(trace, x, p')
  {
  }

  lemma IssueKeepsAccounts(trace: seq<Inst>, r: Run, p: Past, x: Run, p': Past, k: nat)
    requires Accounted(trace, r, p) && Issues(trace, r, p, x, p', k)
    ensures Accounted(trace, x, p')
  {
    forall i | 0 <= i < x.next ensures InFlight(x, p', i) || Completed(trace, p', x.s.cycle, i) {
      if i == r.next {
        assert x.s.table[k].valid && p'.ids[k] == i;
      } else if InFlight(r, p, i) {
        var j :| 0 <= j < |r.s.table| && r.s.table[j].valid && p.ids[j] == i;
        assert x.s.table[j].valid && p'.ids[j] == i;
      }
    }
  }

  lemma FeedKeeps(st: Stations, regs: nat, trace: seq<Inst>, r: Run, p: Past)
    requires Sized(st, regs, trace, r) && Inv(trace, r, p, 0)
    ensures Inv(trace, Feed(st, regs, trace, r), PastFeed(st, regs, trace, r, p), 0)
  {
    hide Tags, Aliases, Accounted;
    if r.next < |trace| && CanIssue(st, r.s, trace[r.next].op) {
      var x := Feed(st, regs, trace, r);
      var p' := PastFeed(st, regs, trace, r, p);
      var k := FreeSlot(st, r.s, trace[r.next].op);
      assert ValidInst(trace[r.next], regs);
      IssueKeepsIds(trace, r, p, x, p', k);
      IssueKeepsTags(trace, r, p, x, p', k);
      IssueKeepsAliases(trace, r, p, x, p', k);
      IssueKeepsAccounts(trace, r, p, x, p', k);
    } else {
      StallKeeps(trace, r, p, Feed(st, regs, trace, r));
    }
  }

  lemma StallKeeps(trace: seq<Inst>, r: Run, p: Past, x: Run)
    requires Inv(trace, r, p, 0)
    requires x.next == r.next && x.s.table == r.s.table && x.s.rat == r.s.rat && x.s.cycle == r.s.cycle
    ensures Inv(trace, x, p, 0)
  {
    forall i | 0 <= i < x.next ensures InFlight(x, p, i) || Completed(trace, p, x.s.cycle, i) {
      assert InFlight(r, p, i) || Completed(trace, p, r.s.cycle, i);
    }
  }

  // ---------------------------------------------------------------- completion

  /** One of the first k entries completes and is the writer of register x. */
  predicate Frees(s: Sched, k: nat, x: nat)
    requires k <= |s.table|
  {
    exists j :: 0 <= j < k && Completing(s.table[j], s.cycle) && s.table[j].dest == x
  }

  predicate Silenced(s: Sched, k: nat, src: int)
    requires k <= |s.table|
  {
    1 <= src <= k && Completing(s.table[src - 1], s.cycle)
  }

  /** Entry j after the first k entries have had their turn to complete. */
  ghost predicate Cleared(s: Sched, k: nat, e: Entry, j: nat)
    requires k <= |s.table| && j < |s.table|
  {
    var o := s.table[j];
    && e.op == o.op && e.dest == o.dest && e.start == o.start
    && e.valid == (o.valid && !(j < k && Completing(o, s.cycle)))
    && (e.valid ==>
          && e.src1 == (if Silenced(s, k, o.src1) then NONE else o.src1)
          && e.src2 == (if Silenced(s, k, o.src2) then NONE else o.src2))
  }

  /** Completion one entry at a time is completion of all that are due at once: nothing that a
      completing entry changes makes another one due or not. */
  lemma {:induction false} CompleteFacts(s: Sched, k: nat)
    requires Fits(s) && k <= |s.table|
    ensures forall j :: 0 <= j < |s.table| ==> Cleared(s, k, Complete(s, k).table[j], j)
    ensures forall x :: 0 <= x < |s.rat| ==> Complete(s, k).rat[x] == if Frees(s, k, x + 1) then NONE else s.rat[x]
  {
    if k > 0 {
      CompleteFacts(s, k - 1);
      var y := Complete(s, k - 1);
      var z := CompleteSlot(y, k - 1);
      assert Cleared(s, k - 1, y.table[k - 1], k - 1);
      assert Completing(y.table[k - 1], s.cycle) == Completing(s.table[k - 1], s.cycle);
      forall j | 0 <= j < |s.table| ensures Cleared(s, k, z.table[j], j) {
        assert Cleared(s, k - 1, y.table[j], j);
      }
      forall x | 0 <= x < |s.rat| ensures z.rat[x] == if Frees(s, k, x + 1) then NONE else s.rat[x] {
        assert Frees(s, k, x + 1) == (Frees(s, k - 1, x + 1)
                                      || (Completing(s.table[k - 1], s.cycle) && s.table[k - 1].dest == x + 1));
      }
    }
  }

  lemma ClearKeeps(trace: seq<Inst>, r: Run, p: Past)
    requires Fits(r.s) && Inv(trace, r, p, 1)
    ensures Inv(trace, r.(s := ClearCompleted(r.s)), p, 0)
    ensures var x := ClearCompleted(r.s);
            forall k :: 0 <= k < |x.table| && x.table[k].valid ==> x.table[k].start < x.cycle
  {
    hide Tags, Aliases, Timing, Accounted, Cleared, Complete, Completions;
    var n := |r.s.table|;
    var x := r.(s := ClearCompleted(r.s));
    CompleteFacts(r.s, n);
    ClearKeepsTags(r, p, x);
    ClearKeepsAliases(trace, r, p, x);
    ClearKeepsTiming(r.s, x.s);
    ClearKeepsAccount(trace, r, p, x);
    ClearKeepsIds(trace, r, p, x);
  }

  lemma ClearKeepsTiming(s: Sched, x: Sched)
    requires Fits(s) && Timing(s, 1) && s.cycle >= 1 && x.table == Complete(s, |s.table|).table && x.cycle == s.cycle
    ensures Timing(x, 0)
    ensures forall k :: 0 <= k < |x.table| && x.table[k].valid ==> x.table[k].start < x.cycle
  {
    hide Silenced, Complete;
    CompleteFacts(s, |s.table|);
    assert forall j :: 0 <= j < |s.table| ==> Cleared(s, |s.table|, x.table[j], j);
  }

  lemma ClearKeepsAccount(trace: seq<Inst>, r: Run, p: Past, x: Run)
    requires Fits(r.s) && Inv(trace, r, p, 1)
    requires x.next == r.next && x.s.table == Complete(r.s, |r.s.table|).table && x.s.cycle == r.s.cycle
    ensures Accounted(trace, x, p)
  {
    hide Tags, Aliases, Timing, Complete, Silenced;
    var n := |r.s.table|;
    CompleteFacts(r.s, n);
    forall i | 0 <= i < r.next ensures InFlight(x, p, i) || Completed(trace, p, x.s.cycle, i) {
      if InFlight(r, p, i) {
        var j :| 0 <= j < n && r.s.table[j].valid && p.ids[j] == i;
        assert Cleared(r.s, n, x.s.table[j], j);
      }
    }
  }

  lemma ClearKeepsIds(trace: seq<Inst>, r: Run, p: Past, x: Run)
    requires Fits(r.s) && Inv(trace, r, p, 1)
    requires x.next == r.next && x.s.table == Complete(r.s, |r.s.table|).table
    ensures Ids(trace, x, p)
  {
    hide Tags, Aliases, Timing, Accounted, Complete, Silenced;
    CompleteFacts(r.s, |r.s.table|);
    assert forall j :: 0 <= j < |r.s.table| ==> Cleared(r.s, |r.s.table|, x.s.table[j], j);
  }

  lemma ClearKeepsTags(r: Run, p: Past, x: Run)
    requires Fits(r.s) && Tags(r, p) && x.s.table == Complete(r.s, |r.s.table|).table
    ensures Tags(x, p)
  {
    var n := |r.s.table|;
    CompleteFacts(r.s, n);
    forall k | 0 <= k < n && x.s.table[k].valid
      ensures NamesOlder(x.s.table, p.ids, k, x.s.table[k].src1) && NamesOlder(x.s.table, p.ids, k, x.s.table[k].src2)
    {
      assert Cleared(r.s, n, x.s.table[k], k);
      var a, b := r.s.table[k].src1, r.s.table[k].src2;
      if a != NONE {
        assert Cleared(r.s, n, x.s.table[a - 1], a - 1);
      }
      if b != NONE {
        assert Cleared(r.s, n, x.s.table[b - 1], b - 1);
      }
    }
  }

  lemma ClearKeepsAliases(trace: seq<Inst>, r: Run, p: Past, x: Run)
    requires Fits(r.s) && Aliases(trace, r, p) && Ids(trace, r, p)
    requires x.next == r.next && x.s.table == Complete(r.s, |r.s.table|).table
             && x.s.rat == Complete(r.s, |r.s.table|).rat
    ensures Aliases(trace, x, p)
  {
    var n := |r.s.table|;
    CompleteFacts(r.s, n);
    forall y | 0 <= y < |x.s.rat| && x.s.rat[y] != NONE
      ensures 1 <= x.s.rat[y] <= n && x.s.table[x.s.rat[y] - 1].valid
      ensures LastWriter(trace, x.next, p.ids[x.s.rat[y] - 1], y + 1)
    {
      var k := r.s.rat[y] - 1;
      assert Cleared(r.s, n, x.s.table[k], k);
      assert !Frees(r.s, n, y + 1);
      assert r.s.table[k].dest == y + 1;
    }
  }

  // ---------------------------------------------------------------- execution

  lemma FireIds(trace: seq<Inst>, r: Run, p: Past)
    requires Fits(r.s) && Ids(trace, r, p)
    ensures Ids(trace, r.(s := StartReady(r.s)), PastFire(r.s.table, r.s.cycle, p))
  {
    var x := r.(s := StartReady(r.s));
    var p' := PastFire(r.s.table, r.s.cycle, p);
    forall k | 0 <= k < |x.s.table| && x.s.table[k].valid
      ensures p'.starts[p.ids[k]] == x.s.table[k].start
    {
      if !Fires(r.s.table, k) {
        assert forall j :: 0 <= j < |r.s.table| && p.ids[j] == p.ids[k] && Fires(r.s.table, j) ==> j == k;
      }
    }
  }

  lemma FireAccounts(trace: seq<Inst>, r: Run, p: Past)
    requires Fits(r.s) && Accounted(trace, r, p)
    ensures Accounted(trace, r.(s := StartReady(r.s)), PastFire(r.s.table, r.s.cycle, p))
  {
    var x := r.(s := StartReady(r.s));
    var p' := PastFire(r.s.table, r.s.cycle, p);
    forall i | 0 <= i < r.next ensures InFlight(x, p', i) || Completed(trace, p', x.s.cycle, i) {
      if InFlight(r, p, i) {
        var j :| 0 <= j < |r.s.table| && r.s.table[j].valid && p.ids[j] == i;
        assert x.s.table[j].valid && p'.ids[j] == i;
      } else {
        assert forall k :: 0 <= k < |r.s.table| && p.ids[k] == i ==> !Fires(r.s.table, k);
      }
    }
  }

  lemma SameNames(table: seq<Entry>, after: seq<Entry>, ids: seq<nat>, k: nat, src: int)
    requires |table| == |after| == |ids| && k < |table| && NamesOlder(table, ids, k, src)
    requires forall j :: 0 <= j < |table| ==> after[j].valid == table[j].valid
    ensures NamesOlder(after, ids, k, src)
  {
  }

  lemma FireTags(trace: seq<Inst>, r: Run, p: Past)
    requires Fits(r.s) && Tags(r, p) && Aliases(trace, r, p)
    ensures Tags(r.(s := StartReady(r.s)), PastFire(r.s.table, r.s.cycle, p))
    ensures Aliases(trace, r.(s := StartReady(r.s)), PastFire(r.s.table, r.s.cycle, p))
  {
    hide Fires, NamesOlder, LastWriter;
    var x := r.(s := StartReady(r.s));
    forall k | 0 <= k < |x.s.table| && x.s.table[k].valid
      ensures NamesOlder(x.s.table, p.ids, k, x.s.table[k].src1) && NamesOlder(x.s.table, p.ids, k, x.s.table[k].src2)
    {
      SameNames(r.s.table, x.s.table, p.ids, k, r.s.table[k].src1);
      SameNames(r.s.table, x.s.table, p.ids, k, r.s.table[k].src2);
    }
  }

  /** No running entry started in this cycle, so the one that starts is the only one of its type. */
  lemma FireTiming(s: Sched)
    requires Fits(s) && Timing(s, 0) && s.cycle >= 1
    requires forall k :: 0 <= k < |s.table| && s.table[k].valid ==> s.table[k].start < s.cycle
    ensures Timing(StartReady(s), 0)
  {
  }

  lemma FireKeeps(trace: seq<Inst>, r: Run, p: Past)
    requires Fits(r.s) && Inv(trace, r, p, 0)
    requires forall k :: 0 <= k < |r.s.table| && r.s.table[k].valid ==> r.s.table[k].start < r.s.cycle
    ensures Inv(trace, r.(s := StartReady(r.s)), PastFire(r.s.table, r.s.cycle, p), 0)
  {
    hide Ids, Tags, Aliases, Accounted, Timing;
    FireIds(trace, r, p);
    FireTags(trace, r, p);
    FireAccounts(trace, r, p);
    FireTiming(r.s);
  }

  // ---------------------------------------------------------------- runs

  lemma TickKeeps(trace: seq<Inst>, r: Run, p: Past)
    requires Inv(trace, r, p, 0)
    ensures Inv(trace, r.(s := r.s.(cycle := r.s.cycle + 1)), p, 1)
  {
    var x := r.(s := r.s.(cycle := r.s.cycle + 1));
    forall i | 0 <= i < x.next ensures InFlight(x, p, i) || Completed(trace, p, x.s.cycle, i) {
      assert InFlight(r, p, i) || Completed(trace, p, r.s.cycle, i);
    }
  }

  lemma AdvanceKeeps(st: Stations, regs: nat, trace: seq<Inst>, r: Run, p: Past)
    requires Sized(st, regs, trace, r) && Recorded(r, p) && Inv(trace, r, p, 0)
    ensures Inv(trace, Advance(st, regs, trace, r), PastAdvance(st, regs, trace, r, p), 0)
  {
    hide Inv, Feed, PastFeed, StartReady, ClearCompleted, PastFire;
    FeedKeeps(st, regs, trace, r, p);
    var x := Feed(st, regs, trace, r);
    var q := PastFeed(st, regs, trace, r, p);
    TickKeeps(trace, x, q);
    var y := x.(s := x.s.(cycle := x.s.cycle + 1));
    ClearKeeps(trace, y, q);
    FireKeeps(trace, y.(s := ClearCompleted(y.s)), q);
  }

  /** The invariant holds in every cycle of every run: the sources of an entry are ready or the
      tags of older instructions in flight, so the dependence graph has no cycle and a tag
      never outlives its instruction; an alias is the tag of the latest issued writer of its
      register; running entries of one type have different starts within the latency. */
  lemma {:induction false} AlwaysInv(st: Stations, regs: nat, trace: seq<Inst>, m: nat)
    requires Good(st, regs, trace)
    ensures Inv(trace, After(st, regs, trace, m), PastAfter(st, regs, trace, m), 0)
  {
    hide Advance, PastAdvance;
    if m > 0 {
      AlwaysInv(st, regs, trace, m - 1);
      AdvanceKeeps(st, regs, trace, After(st, regs, trace, m - 1), PastAfter(st, regs, trace, m - 1));
    }
  }

  /** The oldest instruction in flight has all its sources. */
  lemma OldestReady(trace: seq<Inst>, r: Run, p: Past) returns (k: nat)
    requires Inv(trace, r, p, 0) && !Empty(r.s)
    ensures k < |r.s.table| && r.s.table[k].valid
    ensures r.s.table[k].src1 == NONE && r.s.table[k].src2 == NONE
    ensures forall j :: 0 <= j < |r.s.table| && r.s.table[j].valid ==> p.ids[k] <= p.ids[j]
  {
    k :| k < |r.s.table| && r.s.table[k].valid;
    while exists j: nat :: j < |r.s.table| && r.s.table[j].valid && p.ids[j] < p.ids[k]
      invariant k < |r.s.table| && r.s.table[k].valid
      decreases p.ids[k]
    {
      var j: nat :| j < |r.s.table| && r.s.table[j].valid && p.ids[j] < p.ids[k];
      k := j;
    }
  }
}
