/** The contents of one line: which version each cache holds, which version is on the wire
    and which one main memory has. `latest` is the version of the last store. */
module LineValues {
  import opened Messages
  import opened Reactions
  import opened Protocols
  import opened LineMachine

  /** Protocols in which a modified line is handed from owner to owner and main memory need
      never be written. Under MSI and MESI a modified line that answers GETS becomes S, so
      memory has to copy the DATA it sees on the bus. */
  predicate KeepsOwner(p: Protocol) { p == MI || p == MOSI || p == MOESI }

  /** A line may be newer than memory's copy and have no owner. */
  predicate Forgets(p: Protocol, copies: bool) { !copies && !KeepsOwner(p) }

  /** Even so n <= 2 caches never need memory's copy then: both hold their own. */
  predicate Trusts(p: Protocol, copies: bool, n: nat) { Forgets(p, copies) ==> n <= 2 }

  predicate Copied(st: LineState) { st == S || st == SM }

  /** A line of which memory is behind while nobody owns it. */
  ghost predicate Unneeded(col: seq<LineState>, t: Txn) {
    if t.Busy? then t.req < |col| && WantsM(col[t.req]) else forall j :: 0 <= j < |col| ==> Copied(col[j])
  }

  /** All others hold the line, and there is another. */
  ghost predicate OthersCopied(col: seq<LineState>, i: nat) {
    |col| > 1 && forall j :: 0 <= j < |col| && j != i ==> Copied(col[j])
  }

  ghost predicate Owned(col: seq<LineState>) {
    exists j :: 0 <= j < |col| && Owner(col[j])
  }

  ghost predicate ValuesOk(p: Protocol, copies: bool, col: seq<LineState>, t: Txn,
                           vals: seq<nat>, wire: nat, memory: nat, latest: nat)
  {
    && |vals| == |col|
    // every live copy is current
    && (forall j :: 0 <= j < |col| && Live(p, col[j]) ==> vals[j] == latest)
    // so is DATA on its way, except what memory sends for a store to replace
    && (t.Busy? && t.reply != NoReply ==>
          wire == latest || (Forgets(p, copies) && t.reply == FromMemory && Unneeded(col, t)))
    // and so is memory, when it may be asked
    && (!Owned(col) && !(t.Busy? && t.reply == FromCache) ==>
          memory == latest || (Forgets(p, copies) && Unneeded(col, t)))
    && (forall j :: 0 <= j < |col| && col[j] == E ==> memory == latest)
    && (!copies && t.Busy? && t.reply == FromCache && t.req < |col| && WantsS(col[t.req]) && !Owned(col) ==>
          memory == latest || (Forgets(p, copies) && OthersCopied(col, t.req)))
  }

  lemma StillOwned(col: seq<LineState>, i: nat, next: LineState)
    requires i < |col| && Owner(next) == Owner(col[i])
    ensures Owned(col[i := next]) == Owned(col)
  {
    if Owned(col) {
      var j :| 0 <= j < |col| && Owner(col[j]);
      assert Owner(col[i := next][j]);
    }
  }

  /** A request that misses, or a load that hits, changes no version. */
  lemma MissKeepsValues(p: Protocol, copies: bool, col: seq<LineState>, t: Txn, vals: seq<nat>, wire: nat, memory: nat,
                        latest: nat, i: nat, store: bool)
    requires LineInv(p, col, t) && ValuesOk(p, copies, col, t, vals, wire, memory, latest)
    requires i < |col| && !Transient(col[i])
    requires OnProcessor(p, col[i], store).answer != Hit || !store
    ensures var r := OnProcessor(p, col[i], store);
            ValuesOk(p, copies, col[i := r.next], if t.Busy? then t.(shared := t.shared || r.raise) else t,
                     vals, wire, memory, latest)
    ensures OnProcessor(p, col[i], store).answer == Hit ==> Live(p, col[i])
  {
    hide OnProcessor, OwnedIsShared, SingleWriter, Snooped, Legal;
    var r := OnProcessor(p, col[i], store);
    MissKeepsOwner(p, col[i], store);
    StillOwned(col, i, r.next);
  }

  lemma RaiseKeepsValues(p: Protocol, copies: bool, col: seq<LineState>, t: Txn, vals: seq<nat>, wire: nat, memory: nat,
                         latest: nat, raise: bool)
    requires ValuesOk(p, copies, col, t, vals, wire, memory, latest)
    ensures ValuesOk(p, copies, col, if t.Busy? then t.(shared := t.shared || raise) else t, vals, wire, memory, latest)
  {
  }

  lemma QuietIgnoresWire(p: Protocol, copies: bool, col: seq<LineState>, vals: seq<nat>, wire: nat, wire': nat,
                         memory: nat,
                         latest: nat)
    requires ValuesOk(p, copies, col, Quiet, vals, wire, memory, latest)
    ensures ValuesOk(p, copies, col, Quiet, vals, wire', memory, latest)
  {
  }

  lemma MissKeepsOwner(p: Protocol, st: LineState, store: bool)
    requires Legal(p, st) && !Transient(st)
    ensures var r := OnProcessor(p, st, store);
            && (r.answer != Hit || !store ==>
                  Owner(r.next) == Owner(st) && (Live(p, r.next) ==> Live(p, st)) && (r.next == E ==> st == E))
            && (r.answer != Hit || !store ==> Copied(st) ==> Copied(r.next))
            && (r.answer == Hit ==> Live(p, st))
            && (r.answer == Hit && store ==> Exclusive(st) && r.next == M && !r.raise)
            && (WantsS(r.next) ==> st == I)
  {
  }

  /** A store that hits. */
  lemma StoreHitKeepsValues(p: Protocol, copies: bool, col: seq<LineState>, t: Txn, vals: seq<nat>, wire: nat,
                            memory: nat,
                            latest: nat, i: nat, version: nat)
    requires LineInv(p, col, t) && ValuesOk(p, copies, col, t, vals, wire, memory, latest)
    requires i < |col| && Exclusive(col[i])
    requires t.Busy? ==> t.seen <= i || t.seen == |col|
    ensures ValuesOk(p, copies, col[i := M], t, vals[i := version], wire, memory, version)
  {
    var col' := col[i := M];
    assert Owner(col'[i]);
    if t.Busy? {
      assert i != t.req;
      assert t.reply != FromCache;
      assert t.reply != FromMemory;
    }
  }

  /** What the versions need to know about a snooped GET. */
  ghost predicate KeepsVersions(p: Protocol, copies: bool, st: LineState, next: LineState, msg: Msg) {
    && (msg == GETS && Copied(st) ==> Copied(next))
    && (Live(p, next) ==> Live(p, st))
    && (Owner(next) ==> Owner(st))
    && next != E
    && (!copies && msg == GETS && Owner(st) && st != E ==> Owner(next) || (Forgets(p, copies) && next == S))
    && WantsM(next) == WantsM(st)
    && WantsS(next) == WantsS(st)
  }

  lemma SnoopKeepsVersions(p: Protocol, copies: bool, st: LineState, msg: Msg, own: bool, shared: bool)
    requires Legal(p, st) && msg != DATA
    requires !(p == MOESI && msg == GETS && st == OM)
    requires p == MI ==> msg == GETM
    requires own ==> WantsM(st) == (msg == GETM) && Transient(st)
    ensures KeepsVersions(p, copies, st, OnSnoop(p, st, msg, own, shared).next, msg)
  {
    SnoopedGivesWay(p, st, msg, own, shared);
    SnoopedStaysTransient(p, st, msg, own, shared);
    OwnerAfterSnoop(p, st, msg, own, shared);
  }

  lemma SnoopedVersions(p: Protocol, copies: bool, col: seq<LineState>, t: Txn, vals: seq<nat>, wire: nat, memory: nat,
                        latest: nat, msg: Msg, next: LineState, raise: bool)
    requires LineInv(p, col, t) && t.Busy? && t.seen < |col|
    requires ValuesOk(p, copies, col, t, vals, wire, memory, latest)
    requires msg == (if WantsM(col[t.req]) then GETM else GETS)
    requires KeepsVersions(p, copies, col[t.seen], next, msg) && Trusts(p, copies, |col|)
    ensures var supply := Owner(col[t.seen]);
            ValuesOk(p, copies, col[t.seen := next],
                     Busy(t.req, t.seen + 1, if supply then FromCache else t.reply, t.shared || raise),
                     vals, if supply then vals[t.seen] else wire, memory, latest)
  {
    hide OwnedIsShared, Legal, SingleWriter;
    var i := t.seen;
    var col' := col[i := next];
    assert Owner(col[i]) ==> Live(p, col[i]) && vals[i] == latest;
    if Owner(next) == Owner(col[i]) {
      StillOwned(col, i, next);
    } else {
      assert Owned(col);
    }
  }

  /** A cache snoops a GET; an owner puts its version on the wire. */
  lemma SnoopKeepsValues(p: Protocol, copies: bool, col: seq<LineState>, t: Txn, vals: seq<nat>, wire: nat, memory: nat,
                         latest: nat, msg: Msg)
    requires LineInv(p, col, t) && t.Busy? && t.seen < |col|
    requires ValuesOk(p, copies, col, t, vals, wire, memory, latest)
    requires Trusts(p, copies, |col|)
    requires msg == (if WantsM(col[t.req]) then GETM else GETS)
    requires !(p == MOESI && msg == GETS && col[t.seen] == OM)
    ensures var r := OnSnoop(p, col[t.seen], msg, t.seen == t.req, t.shared);
            ValuesOk(p, copies, col[t.seen := r.next],
                     Busy(t.req, t.seen + 1, if r.supply then FromCache else t.reply, t.shared || r.raise),
                     vals, if r.supply then vals[t.seen] else wire, memory, latest)
  {
    var r := OnSnoop(p, col[t.seen], msg, t.seen == t.req, t.shared);
    SnoopedGivesWay(p, col[t.seen], msg, t.seen == t.req, t.shared);
    SnoopKeepsVersions(p, copies, col[t.seen], msg, t.seen == t.req, t.shared);
    SnoopedVersions(p, copies, col, t, vals, wire, memory, latest, msg, r.next, r.raise);
  }

  lemma OwnerAfterSnoop(p: Protocol, st: LineState, msg: Msg, own: bool, shared: bool)
    requires Legal(p, st) && msg != DATA
    requires !(p == MOESI && msg == GETS && st == OM)
    ensures var r := OnSnoop(p, st, msg, own, shared);
            && (p != MI && msg == GETS && Owner(st) && st != E ==> if KeepsOwner(p) then Owner(r.next) else r.next == S)
            && (msg == GETS && Copied(st) ==> Copied(r.next))
            && r.next != E
  {
    match p
    case MI => match msg { case GETS => case GETM => }
    case MSI => match msg { case GETS => case GETM => }
    case MESI => match msg { case GETS => case GETM => }
    case MOSI => match msg { case GETS => case GETM => }
    case MOESI => match msg { case GETS => case GETM => }
  }

  /** DATA arrives: a load takes the version, a store replaces it. `seenByMemory` is memory's
      version after it has seen the same DATA. */
  lemma FillKeepsValues(p: Protocol, copies: bool, col: seq<LineState>, t: Txn, vals: seq<nat>, wire: nat, memory: nat,
                        latest: nat, own: bool, store: bool, version: nat)
    requires LineInv(p, col, t) && t.Busy? && t.seen == |col| && t.reply != NoReply
    requires ValuesOk(p, copies, col, t, vals, wire, memory, latest)
    requires copies ==> memory == wire
    requires store ==> WantsM(col[t.req])
    requires p != MI && WantsM(col[t.req]) ==> store
    ensures var r := OnSnoop(p, col[t.req], DATA, own, t.shared);
            ValuesOk(p, copies, col[t.req := r.next], Quiet, vals[t.req := if store then version else wire],
                     wire, memory, if store then version else latest)
    ensures !store || !Forgets(p, copies) ==> wire == latest
  {
    hide OnSnoop, OwnedIsShared, Legal, SingleWriter, Snooped;
    FillKeepsInv(p, col, t, own);
    var r := OnSnoop(p, col[t.req], DATA, own, t.shared);
    var col' := col[t.req := r.next];
    if r.next == M {
      assert Owner(col'[t.req]);
      LiveAfterStore(p, col, t);
    } else if Owned(col) {
      var j :| 0 <= j < |col| && Owner(col[j]);
      assert Owner(col'[j]);
    }
    if r.next == E {
      AloneIsCurrent(p, copies, col, t, vals, wire, memory, latest);
    }
  }

  lemma LiveAfterStore(p: Protocol, col: seq<LineState>, t: Txn)
    requires LineInv(p, col, t) && t.Busy? && t.seen == |col| && WantsM(col[t.req])
    ensures forall j :: 0 <= j < |col| && j != t.req ==> !Live(p, col[j])
  {
  }

  /** A line that fills to E comes from memory, and memory has the latest version. */
  lemma AloneIsCurrent(p: Protocol, copies: bool, col: seq<LineState>, t: Txn, vals: seq<nat>, wire: nat, memory: nat,
                       latest: nat)
    requires LineInv(p, col, t) && t.Busy? && t.seen == |col| && t.reply != NoReply
    requires col[t.req] == ISE && !t.shared
    requires ValuesOk(p, copies, col, t, vals, wire, memory, latest) && (copies ==> memory == wire)
    ensures memory == latest
  {
    hide OwnedIsShared, Legal, SingleWriter, Snooped;
    if Owned(col) {
      var j :| 0 <= j < |col| && Owner(col[j]);
      UnsharedMeansAlone(p, col, t, j);
    } else if OthersCopied(col, t.req) {
      UnsharedMeansAlone(p, col, t, if t.req == 0 then 1 else 0);
    }
  }

  lemma GrantKeepsValues(p: Protocol, copies: bool, col: seq<LineState>, r: nat, vals: seq<nat>, wire: nat,
                         memory: nat, latest: nat)
    requires ValuesOk(p, copies, col, Quiet, vals, wire, memory, latest)
    requires r < |col| && Transient(col[r])
    ensures ValuesOk(p, copies, col, Busy(r, 0, NoReply, false), vals, wire, memory, latest)
  {
  }

  /** Memory may store the DATA on its way. */
  lemma CopyKeepsValues(p: Protocol, copies: bool, col: seq<LineState>, t: Txn, vals: seq<nat>, wire: nat,
                        memory: nat, latest: nat)
    requires copies && t.Busy? && t.reply != NoReply
    requires ValuesOk(p, copies, col, t, vals, wire, memory, latest)
    ensures ValuesOk(p, copies, col, t, vals, wire, wire, latest)
  {
  }

  /** Memory is asked only when its version is the latest, or for a store to replace. */
  lemma MemoryReplyKeepsValues(p: Protocol, copies: bool, col: seq<LineState>, t: Txn, vals: seq<nat>, wire: nat,
                               memory: nat, latest: nat)
    requires LineInv(p, col, t) && t.Busy? && t.seen == |col| && t.reply == NoReply
    requires ValuesOk(p, copies, col, t, vals, wire, memory, latest)
    ensures memory == latest || (Forgets(p, copies) && WantsM(col[t.req]))
    ensures ValuesOk(p, copies, col, t.(reply := FromMemory), vals, memory, memory, latest)
  {
  }
}
