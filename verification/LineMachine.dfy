/** One line of the machine seen on its own: the column of its states in the n caches and
    the bus transaction about it, if there is one. Every step of the simulator changes a
    column in one of the ways below. */
module LineMachine {
  import opened Messages
  import opened Reactions
  import opened Protocols

  datatype Reply = NoReply | FromCache | FromMemory

  /** `req` asked for the line, caches below `seen` have snooped the GET, `reply` says who
      has put DATA in the bus's reply slot, and `shared` is the bus's shared line. */
  datatype Txn = Quiet | Busy(req: nat, seen: nat, reply: Reply, shared: bool)

  /** At most one owner, and an exclusive line is the only live copy. */
  ghost predicate SingleWriter(p: Protocol, col: seq<LineState>) {
    && (forall i, j {:trigger col[i], col[j]} :: 0 <= i < |col| && 0 <= j < |col| && i != j && Owner(col[i]) ==>
          !Owner(col[j]))
    && (forall i, j {:trigger col[i], col[j]} :: 0 <= i < |col| && 0 <= j < |col| && i != j && Exclusive(col[i]) ==>
          !Live(p, col[j]))
  }

  /** An owner that may have given the line to others. */
  predicate Sharing(st: LineState) { st == O || st == OM }

  /** Another cache that raises the shared line on behalf of an O or OM line. */
  ghost predicate HasSharer(col: seq<LineState>, i: nat) {
    exists j :: 0 <= j < |col| && j != i && (col[j] == S || col[j] == SM)
  }

  /** MOESI's O lines do not raise the shared line themselves: another copy does, and stays
      when they become OM. */
  ghost predicate OwnedIsShared(p: Protocol, col: seq<LineState>, t: Txn) {
    p == MOESI && !(t.Busy? && t.shared) ==>
      forall i :: 0 <= i < |col| && Sharing(col[i]) ==> HasSharer(col, i)
  }

  /** What the caches that have already snooped the GET may still hold. */
  ghost predicate Snooped(p: Protocol, col: seq<LineState>, t: Txn)
    requires t.Busy? && t.req < |col| && t.seen <= |col|
  {
    && (WantsM(col[t.req]) ==> forall j :: 0 <= j < t.seen && j != t.req ==> !Live(p, col[j]))
    && (WantsS(col[t.req]) ==> forall j :: 0 <= j < t.seen && j != t.req ==> !Exclusive(col[j]))
    && (col[t.req] == ISE && !t.shared ==>
        forall j :: 0 <= j < t.seen && j != t.req ==> !Raises(col[j]) && col[j] != OM)
    && (t.reply == FromCache ==> forall j :: t.seen <= j < |col| ==> !Owner(col[j]))
    && (t.reply != FromCache ==> forall j :: 0 <= j < t.seen ==> !Owner(col[j]))
    && (t.reply == FromMemory ==> t.seen == |col|)
  }

  ghost predicate LineInv(p: Protocol, col: seq<LineState>, t: Txn) {
    && (forall i :: 0 <= i < |col| ==> Legal(p, col[i]))
    && SingleWriter(p, col)
    && OwnedIsShared(p, col, t)
    && (t.Busy? ==> t.req < |col| && t.seen <= |col| && Transient(col[t.req]) && Snooped(p, col, t))
  }

  /** When every cache has snooped a GETS and the shared line is still down, nobody else
      holds the line in any form. */
  lemma UnsharedMeansAlone(p: Protocol, col: seq<LineState>, t: Txn, j: nat)
    requires LineInv(p, col, t) && t.Busy? && t.seen == |col|
    requires col[t.req] == ISE && !t.shared
    requires j < |col| && j != t.req
    ensures col[j] == I || col[j] == IM || col[j] == ISE
  {
    if Sharing(col[j]) {
      assert HasSharer(col, j);
      var m :| 0 <= m < |col| && m != j && (col[m] == S || col[m] == SM);
      assert Raises(col[m]);
    }
  }

  /** `next` claims no more than `st` did; this is all a processor request can do to a line. */
  ghost predicate ClaimsNoMore(p: Protocol, st: LineState, next: LineState) {
    && Legal(p, next)
    && (Owner(next) ==> Owner(st))
    && (Exclusive(next) ==> Exclusive(st))
    && (Live(p, next) ==> Live(p, st))
    && (Sharing(next) ==> Sharing(st))
    && (st == S || st == SM ==> next == S || next == SM)
    && (st == I ==> !Raises(next) && next != OM)
  }

  lemma ServedClaimsNoMore(p: Protocol, st: LineState, store: bool)
    requires Legal(p, st) && !Transient(st)
    ensures OnProcessor(p, st, store).answer != Abort
    ensures ClaimsNoMore(p, st, OnProcessor(p, st, store).next)
  {
  }

  lemma MilderKeepsSingleWriter(p: Protocol, col: seq<LineState>, i: nat, next: LineState)
    requires SingleWriter(p, col)
    requires i < |col|
    requires (Owner(next) ==> Owner(col[i])) && (Exclusive(next) ==> Exclusive(col[i]))
             && (Live(p, next) ==> Live(p, col[i]))
    ensures SingleWriter(p, col[i := next])
  {
  }

  lemma MilderKeepsSharers(p: Protocol, col: seq<LineState>, t: Txn, i: nat, next: LineState, t': Txn)
    requires OwnedIsShared(p, col, t)
    requires i < |col| && (Sharing(next) && !(t'.Busy? && t'.shared) ==> Sharing(col[i]))
    requires t.Busy? == t'.Busy? && (t.Busy? && t.shared ==> t'.shared)
    requires (col[i] == S || col[i] == SM) && !(t'.Busy? && t'.shared) ==> next == S || next == SM
    ensures OwnedIsShared(p, col[i := next], t')
  {
    var col' := col[i := next];
    if p == MOESI && !(t'.Busy? && t'.shared) {
      forall m | 0 <= m < |col'| && Sharing(col'[m])
        ensures HasSharer(col', m)
      {
        assert HasSharer(col, m);
        var w :| 0 <= w < |col| && w != m && (col[w] == S || col[w] == SM);
        assert col'[w] == S || col'[w] == SM;
      }
    }
  }

  lemma MilderKeepsSnooped(p: Protocol, col: seq<LineState>, t: Txn, i: nat, next: LineState, raise: bool)
    requires t.Busy? && t.req < |col| && t.seen <= |col| && Transient(col[t.req]) && Snooped(p, col, t)
    requires i < |col| && !Transient(col[i]) && ClaimsNoMore(p, col[i], next)
    requires t.seen <= i || t.seen == |col|
    requires col[t.req] == ISE && !t.shared && t.seen == |col| ==> col[i] == I
    ensures Snooped(p, col[i := next], t.(shared := t.shared || raise))
  {
  }

  lemma MilderColumn(p: Protocol, col: seq<LineState>, t: Txn, i: nat, next: LineState, raise: bool)
    requires LineInv(p, col, t)
    requires i < |col| && !Transient(col[i]) && ClaimsNoMore(p, col[i], next)
    requires t.Busy? ==> t.seen <= i || t.seen == |col|
    ensures LineInv(p, col[i := next], if t.Busy? then t.(shared := t.shared || raise) else t)
  {
    var t' := if t.Busy? then t.(shared := t.shared || raise) else t;
    MilderKeepsSingleWriter(p, col, i, next);
    MilderKeepsSharers(p, col, t, i, next, t');
    if t.Busy? {
      if col[t.req] == ISE && !t.shared && t.seen == |col| {
        UnsharedMeansAlone(p, col, t, i);
      }
      MilderKeepsSnooped(p, col, t, i, next, raise);
    }
  }

  /** Raising the shared line never hurts. */
  lemma RaiseKeepsInv(p: Protocol, col: seq<LineState>, t: Txn, raise: bool)
    requires LineInv(p, col, t)
    ensures LineInv(p, col, if t.Busy? then t.(shared := t.shared || raise) else t)
  {
  }

  /** A processor request handled by cache i. */
  lemma ServeKeepsInv(p: Protocol, col: seq<LineState>, t: Txn, i: nat, store: bool)
    requires LineInv(p, col, t)
    requires i < |col| && !Transient(col[i])
    requires t.Busy? ==> t.seen <= i || t.seen == |col|
    ensures OnProcessor(p, col[i], store).answer != Abort
    ensures var r := OnProcessor(p, col[i], store);
            LineInv(p, col[i := r.next], if t.Busy? then t.(shared := t.shared || r.raise) else t)
  {
    ServedClaimsNoMore(p, col[i], store);
    var r := OnProcessor(p, col[i], store);
    MilderColumn(p, col, t, i, r.next, r.raise);
  }

  /** What snooping a GET of kind `msg` does to a line; `own` means the requester's line. */
  ghost predicate GivesWay(p: Protocol, st: LineState, next: LineState, msg: Msg, own: bool, raise: bool) {
    && Legal(p, next)
    && (Owner(next) ==> Owner(st))
    && (Live(p, next) ==> Live(p, st))
    && (Exclusive(next) ==> Exclusive(st))
    && (next == ISE ==> st == ISE)
    && (WantsM(st) ==> WantsM(next))
    && (WantsS(st) ==> next == st)
    && (msg == GETM && !own ==> !Live(p, next))
    && (msg == GETS && !own ==> !Exclusive(next))
    && (!raise ==> !Raises(next) && next != OM && (next == O ==> st == O))
    && (!raise && (st == S || st == SM) ==> next == st)
  }

  lemma SnoopedGivesWay(p: Protocol, st: LineState, msg: Msg, own: bool, shared: bool)
    requires Legal(p, st) && msg != DATA
    requires own ==> WantsM(st) == (msg == GETM) && Transient(st)
    requires !(p == MOESI && msg == GETS && st == OM)
    ensures var r := OnSnoop(p, st, msg, own, shared);
            && !r.abort && !r.fill && r.supply == Owner(st)
            && GivesWay(p, st, r.next, msg, own, r.raise)
  {
    match p
    case MI => match msg { case GETS => case GETM => }
    case MSI => match msg { case GETS => case GETM => }
    case MESI => match msg { case GETS => case GETM => }
    case MOSI => match msg { case GETS => case GETM => }
    case MOESI => match msg { case GETS => case GETM => }
  }

  lemma SnoopedStaysTransient(p: Protocol, st: LineState, msg: Msg, own: bool, shared: bool)
    requires Legal(p, st) && msg != DATA
    requires !(p == MOESI && msg == GETS && st == OM)
    ensures var r := OnSnoop(p, st, msg, own, shared);
            && Transient(r.next) == Transient(st)
            && WantsM(r.next) == WantsM(st)
  {
    match p
    case MI => match msg { case GETS => case GETM => }
    case MSI => match msg { case GETS => case GETM => }
    case MESI => match msg { case GETS => case GETM => }
    case MOSI => match msg { case GETS => case GETM => }
    case MOESI => match msg { case GETS => case GETM => }
  }

  lemma SnoopedOneMore(p: Protocol, col: seq<LineState>, t: Txn, msg: Msg, next: LineState, raise: bool)
    requires LineInv(p, col, t) && t.Busy? && t.seen < |col|
    requires msg == (if WantsM(col[t.req]) then GETM else GETS)
    requires GivesWay(p, col[t.seen], next, msg, t.seen == t.req, raise)
    ensures Owner(col[t.seen]) ==> t.reply != FromCache
    ensures Transient(col[t.seen := next][t.req])
    ensures Snooped(p, col[t.seen := next],
                    Busy(t.req, t.seen + 1, if Owner(col[t.seen]) then FromCache else t.reply, t.shared || raise))
  {
    hide OwnedIsShared, Legal;
    var i := t.seen;
    var col' := col[i := next];
    assert forall j :: 0 <= j < |col| && j != i ==> col'[j] == col[j];
    if Owner(col[i]) {
      assert forall j :: i < j < |col| ==> !Owner(col[j]);
    }
  }

  lemma SnoopedColumn(p: Protocol, col: seq<LineState>, t: Txn, msg: Msg, next: LineState, raise: bool)
    requires LineInv(p, col, t) && t.Busy? && t.seen < |col|
    requires msg == (if WantsM(col[t.req]) then GETM else GETS)
    requires GivesWay(p, col[t.seen], next, msg, t.seen == t.req, raise)
    ensures Owner(col[t.seen]) ==> t.reply != FromCache
    ensures LineInv(p, col[t.seen := next],
                    Busy(t.req, t.seen + 1, if Owner(col[t.seen]) then FromCache else t.reply, t.shared || raise))
  {
    var t' := Busy(t.req, t.seen + 1, if Owner(col[t.seen]) then FromCache else t.reply, t.shared || raise);
    MilderKeepsSingleWriter(p, col, t.seen, next);
    MilderKeepsSharers(p, col, t, t.seen, next, t');
    SnoopedOneMore(p, col, t, msg, next, raise);
  }

  /** Cache i snoops the GET on the bus. Only an OM line of MOESI snooping another cache's
      GETS is excluded. */
  lemma SnoopKeepsInv(p: Protocol, col: seq<LineState>, t: Txn, msg: Msg)
    requires LineInv(p, col, t) && t.Busy? && t.seen < |col|
    requires msg == (if WantsM(col[t.req]) then GETM else GETS)
    requires !(p == MOESI && msg == GETS && col[t.seen] == OM)
    ensures var r := OnSnoop(p, col[t.seen], msg, t.seen == t.req, t.shared);
            && !r.abort && !r.fill
            && r.supply == Owner(col[t.seen])
            && (r.supply ==> t.reply != FromCache)
            && LineInv(p, col[t.seen := r.next],
                       Busy(t.req, t.seen + 1, if r.supply then FromCache else t.reply, t.shared || r.raise))
  {
    SnoopedGivesWay(p, col[t.seen], msg, t.seen == t.req, t.shared);
    var r := OnSnoop(p, col[t.seen], msg, t.seen == t.req, t.shared);
    SnoopedColumn(p, col, t, msg, r.next, r.raise);
  }

  /** DATA reaches the requester: its processor is answered and the transaction is over. */
  lemma FillTable(p: Protocol, st: LineState, own: bool, shared: bool)
    requires Legal(p, st) && Transient(st)
    ensures var r := OnSnoop(p, st, DATA, own, shared);
            && r.fill && !r.abort && !r.supply
            && r.next == (if WantsM(st) then M else if st == ISE && !shared then E else S) && Legal(p, r.next)
  {
  }

  lemma FillKeepsInv(p: Protocol, col: seq<LineState>, t: Txn, own: bool)
    requires LineInv(p, col, t) && t.Busy? && t.seen == |col|
    ensures var r := OnSnoop(p, col[t.req], DATA, own, t.shared);
            && r.fill && !r.abort && !r.supply
            && r.next == (if WantsM(col[t.req]) then M else if col[t.req] == ISE && !t.shared then E else S)
            && LineInv(p, col[t.req := r.next], Quiet)
  {
    hide OnSnoop;
    FillTable(p, col[t.req], own, t.shared);
    var r := OnSnoop(p, col[t.req], DATA, own, t.shared);
    var col' := col[t.req := r.next];
    if col[t.req] == ISE && !t.shared {
      forall j | 0 <= j < |col| && j != t.req
        ensures col[j] == I || col[j] == IM || col[j] == ISE
      {
        UnsharedMeansAlone(p, col, t, j);
      }
    }
    assert SingleWriter(p, col');
    FillKeepsSharers(p, col, t, r.next);
  }

  lemma FillKeepsSharers(p: Protocol, col: seq<LineState>, t: Txn, next: LineState)
    requires LineInv(p, col, t) && t.Busy? && t.seen == |col|
    requires next == (if WantsM(col[t.req]) then M else if col[t.req] == ISE && !t.shared then E else S)
    ensures OwnedIsShared(p, col[t.req := next], Quiet)
  {
    hide SingleWriter;
    var col' := col[t.req := next];
    if p == MOESI {
      forall m | 0 <= m < |col'| && Sharing(col'[m]) ensures HasSharer(col', m) {
        assert Sharing(col[m]) && m != t.req;
        if col[t.req] == ISE && !t.shared {
          UnsharedMeansAlone(p, col, t, m);
        }
        assert col'[t.req] == S;
      }
    }
  }

  /** A queued GET is granted the bus. */
  lemma GrantKeepsInv(p: Protocol, col: seq<LineState>, r: nat)
    requires LineInv(p, col, Quiet)
    requires r < |col| && Transient(col[r])
    ensures LineInv(p, col, Busy(r, 0, NoReply, false))
  {
  }

  /** The memory controller answers a GET no cache has answered. */
  lemma MemoryReplyKeepsInv(p: Protocol, col: seq<LineState>, t: Txn)
    requires LineInv(p, col, t) && t.Busy? && t.seen == |col| && t.reply == NoReply
    ensures LineInv(p, col, t.(reply := FromMemory))
  {
  }
}
