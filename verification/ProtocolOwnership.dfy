/** The protocol keeps the ownership discipline: every step of RecordingProtocol
  * is a move of the Ledger, so its invariant holds in every run. */
module ProtocolOwnership {
  import opened Common
  import opened RecordingTable
  import opened RecordingProtocol
  import L = Ledger

  /** The recording a thread at `pc` keeps alive by a pin. */
  ghost function Pin(pc: PC): Option<RecId> {
    match pc
    case Binding(r) => Some(r)
    case Preparing(r) => Some(r)
    case Inviting(r) => Some(r)
    case Attaching(r) => Some(r)
    case Wiring(r) => Some(r)
    case Finishing(r) => Some(r)
    case Discarding(r) => Some(r)
    case Dropping(r, _) => Some(r)
    case Gating(r, _) => Some(r)
    case Checking(r, _, _) => Some(r)
    case Reinviting(r, _, _) => Some(r)
    case Ungating(r, _) => Some(r)
    case Releasing(r, _) => Some(r)
    case Tearing(_, _, ToBind(r)) => Some(r)
    case _ => None
  }

  /** The recording a thread at `pc` alone may free. */
  ghost function Own(pc: PC): Option<RecId> {
    match pc
    case Allocated(r) => Some(r)
    case Refused(r) => Some(r)
    case Tearing(v, _, _) => Some(v)
    case _ => None
  }

  /** How far the owner at `pc` has taken its recording. */
  ghost function OwnPhase(pc: PC): Phase {
    match pc
    case Tearing(_, DoDetach, _) => Retired
    case Tearing(_, DoBye, _) => Detached
    case Tearing(_, DoFree, _) => Byed
    case _ => Private
  }

  ghost function Pins(threads: map<Tid, PC>): map<Tid, RecId> {
    map t | t in threads && Pin(threads[t]).Some? :: Pin(threads[t]).value
  }

  ghost function Owns(threads: map<Tid, PC>): map<Tid, RecId> {
    map t | t in threads && Own(threads[t]).Some? :: Own(threads[t]).value
  }

  ghost function AccountOf(rec: Rec): L.Account { L.Account(rec.key, rec.useCount, rec.doomed) }

  ghost function Accounts(recs: map<RecId, Rec>): map<RecId, L.Account> {
    map r | r in recs :: AccountOf(recs[r])
  }

  ghost function LedgerOf(s: State): L.Ledger {
    L.Ledger(s.table.hash, Accounts(s.table.recs), Pins(s.threads), Owns(s.threads))
  }

  ghost function PhaseOf(s: State, r: RecId): Phase {
    if r in s.phase then s.phase[r] else Unborn
  }

  /** The history phase of a recording agrees with the table. */
  ghost predicate PhaseOk(s: State, r: RecId) {
    && (r in s.table.recs <==> PhaseOf(s, r) !in {Unborn, Freed})
    && (r in s.phase ==> s.phase[r] != Unborn)
    && (r in s.table.recs ==>
          && (PhaseOf(s, r) == InHash <==> Hashed(s.table, r))
          && (PhaseOf(s, r) == Private ==> !s.table.recs[r].doomed)
          && (s.table.recs[r].useCount != 0 ==> PhaseOf(s, r) in {InHash, Retired}))
  }

  ghost predicate OwnerOk(s: State, t: Tid) {
    t in s.threads && Own(s.threads[t]).Some? ==> PhaseOf(s, Own(s.threads[t]).value) == OwnPhase(s.threads[t])
  }

  ghost predicate Inv(s: State) {
    L.Inv(LedgerOf(s)) && PhasesOk(s)
  }

  ghost predicate PhasesOk(s: State) {
    && (forall r: RecId :: PhaseOk(s, r))
    && (forall t: Tid :: OwnerOk(s, t))
  }

  // ---- what a thread's move and a recording's update do to the ledger ----

  lemma Moves(threads: map<Tid, PC>, t: Tid, pc: PC)
    ensures Pins(threads[t := pc]) == if Pin(pc).Some? then Pins(threads)[t := Pin(pc).value] else Pins(threads) - {t}
    ensures Owns(threads[t := pc]) == if Own(pc).Some? then Owns(threads)[t := Own(pc).value] else Owns(threads) - {t}
  {
  }

  lemma Stays(threads: map<Tid, PC>, t: Tid, pc: PC)
    requires t in threads || (Pin(pc) == None && Own(pc) == None)
    requires t in threads ==> Pin(threads[t]) == Pin(pc) && Own(threads[t]) == Own(pc)
    ensures Pins(threads[t := pc]) == Pins(threads) && Owns(threads[t := pc]) == Owns(threads)
  {
  }

  /** No thread but `t` owns a recording of `changed`. */
  ghost predicate OnlyOwner(s: State, t: Tid, changed: set<RecId>) {
    forall u :: u in s.threads && u != t && Own(s.threads[u]).Some? ==> Own(s.threads[u]).value !in changed
  }

  lemma SoleOwner(s: State, t: Tid, changed: set<RecId>)
    requires forall u :: u in Owns(s.threads) && u != t ==> Owns(s.threads)[u] !in changed
    ensures OnlyOwner(s, t, changed)
  {
    forall u | u in s.threads && u != t && Own(s.threads[u]).Some? ensures Own(s.threads[u]).value !in changed {
      assert Owns(s.threads)[u] == Own(s.threads[u]).value;
    }
  }

  /** What the phase of `r` is judged by is as it was. */
  ghost predicate SameStanding(s: State, s': State, r: RecId) {
    && PhaseOf(s', r) == PhaseOf(s, r) && (r in s'.phase <==> r in s.phase)
    && (r in s'.table.recs <==> r in s.table.recs)
    && (r in s.table.recs ==>
          && (Hashed(s'.table, r) <==> Hashed(s.table, r))
          && s'.table.recs[r].doomed == s.table.recs[r].doomed
          && s'.table.recs[r].useCount == s.table.recs[r].useCount)
  }

  /** Only the phases of `changed` moved, and thread `t` is where its recording is. */
  lemma PhasesFollow(s: State, s': State, t: Tid, pc: PC, changed: set<RecId>)
    requires PhasesOk(s) && s'.threads == s.threads[t := pc]
    requires forall r: RecId :: r in changed ==> PhaseOk(s', r)
    requires forall r: RecId :: r !in changed ==> SameStanding(s, s', r)
    requires OnlyOwner(s, t, changed)
    requires Own(pc).Some? ==> PhaseOf(s', Own(pc).value) == OwnPhase(pc)
    ensures PhasesOk(s')
  {
    forall r: RecId ensures PhaseOk(s', r) { if r !in changed { assert PhaseOk(s, r) && SameStanding(s, s', r); } }
    forall u: Tid ensures OwnerOk(s', u) {
      assert OwnerOk(s, u);
      if u != t && u in s.threads && Own(s.threads[u]).Some? { assert SameStanding(s, s', Own(s.threads[u]).value); }
    }
  }

  // ---- the kinds of step ----

  /** The accounts and the hash are as they were. */
  ghost predicate SameTable(s: State, s': State) {
    && s'.table.hash == s.table.hash && s'.phase == s.phase
    && s'.table.recs.Keys == s.table.recs.Keys
    && (forall r :: r in s.table.recs ==> AccountOf(s'.table.recs[r]) == AccountOf(s.table.recs[r]))
  }

  lemma SameAccounts(s: State, s': State)
    requires SameTable(s, s')
    ensures Accounts(s'.table.recs) == Accounts(s.table.recs)
    ensures forall r :: r in s.table.recs ==> (Hashed(s'.table, r) <==> Hashed(s.table, r))
  {
    assert forall r :: r in s.table.recs ==> AccountOf(s'.table.recs[r]).key == s'.table.recs[r].key;
  }

  lemma Unmoved(s: State, s': State)
    requires Inv(s) && SameTable(s, s') && s'.threads == s.threads
    ensures Inv(s')
  {
    SameAccounts(s, s');
    SamePhases(s, s');
    forall u: Tid ensures OwnerOk(s', u) {
      assert OwnerOk(s, u);
      if u in s.threads && Own(s.threads[u]).Some? { assert PhaseOf(s', Own(s.threads[u]).value) == OwnPhase(s.threads[u]); }
    }
  }

  lemma SamePhases(s: State, s': State)
    requires Inv(s) && SameTable(s, s')
    ensures forall r: RecId :: PhaseOk(s', r)
  {
    SameAccounts(s, s');
    forall r: RecId ensures PhaseOk(s', r) {
      assert PhaseOk(s, r);
      if r in s.table.recs { assert AccountOf(s'.table.recs[r]) == AccountOf(s.table.recs[r]); }
    }
  }

  /** A step that moves `t` but changes neither who is pinned nor who owns. */
  lemma Quiet(s: State, s': State, t: Tid, pc: PC)
    requires Inv(s) && SameTable(s, s') && s'.threads == s.threads[t := pc]
    requires Pin(pc) == Pin(PcOf(s, t)) && Own(pc) == Own(PcOf(s, t))
    requires Own(pc).Some? ==> OwnPhase(pc) == OwnPhase(PcOf(s, t))
    ensures Inv(s')
  {
    SameAccounts(s, s');
    Stays(s.threads, t, pc);
    assert OwnerOk(s, t);
    SamePhases(s, s');
    forall u: Tid ensures OwnerOk(s', u) { assert OwnerOk(s, u); }
  }

  lemma AllocKeeps(s: State, s': State, t: Tid, r: RecId, rec: Rec)
    requires Inv(s) && PcOf(s, t) == Idle && r !in s.phase && rec.useCount == 0 && !rec.doomed
    requires s'.table == s.table.(recs := s.table.recs[r := rec]) && s'.phase == s.phase[r := Private]
    requires s'.threads == s.threads[t := Allocated(r)]
    ensures Inv(s')
  {
    assert PhaseOk(s, r);
    L.Allocates(LedgerOf(s), t, r, rec.key);
    AllocLedger(s, s', t, r, rec);
    OwnedIsLive(s, t, r);
    forall q: RecId | q != r ensures SameStanding(s, s', q) { }
    AllocPhases(s, s', t, r);
  }

  lemma AllocPhases(s: State, s': State, t: Tid, r: RecId)
    requires PhasesOk(s) && r !in s.phase && OnlyOwner(s, t, {r})
    requires forall q: RecId :: q != r ==> SameStanding(s, s', q)
    requires r in s'.table.recs && s'.table.recs[r].useCount == 0 && !s'.table.recs[r].doomed
    requires s'.phase == s.phase[r := Private] && s'.threads == s.threads[t := Allocated(r)]
    requires !Hashed(s'.table, r)
    ensures PhasesOk(s')
  {
    PhasesFollow(s, s', t, Allocated(r), {r});
  }

  lemma AllocLedger(s: State, s': State, t: Tid, r: RecId, rec: Rec)
    requires PcOf(s, t) == Idle && rec.useCount == 0 && !rec.doomed
    requires s'.table == s.table.(recs := s.table.recs[r := rec]) && s'.threads == s.threads[t := Allocated(r)]
    ensures LedgerOf(s') == LedgerOf(s).(accounts := LedgerOf(s).accounts[r := L.Account(rec.key, 0, false)],
                                         owns := LedgerOf(s).owns[t := r])
  {
    Moves(s.threads, t, Allocated(r));
    assert Pins(s'.threads) == Pins(s.threads);
    assert Accounts(s'.table.recs) == Accounts(s.table.recs)[r := L.Account(rec.key, 0, false)];
  }

  /** An owned recording is live, and has one owner. */
  lemma OwnedIsLive(s: State, t: Tid, r: RecId)
    requires L.Inv(LedgerOf(s))
    requires Own(PcOf(s, t)) == Some(r) || r !in s.table.recs
    ensures OnlyOwner(s, t, {r})
  {
    forall u | u in Owns(s.threads) && u != t ensures Owns(s.threads)[u] != r {
      assert t in s.threads && Own(s.threads[t]) == Some(r) ==> Owns(s.threads)[t] == r;
      assert Owns(s.threads)[u] in Accounts(s.table.recs);
    }
    SoleOwner(s, t, {r});
  }

  lemma FreeKeeps(s: State, s': State, t: Tid, r: RecId, pc: PC)
    requires Inv(s) && Own(PcOf(s, t)) == Some(r) && Own(pc) == None && Pin(pc) == Pin(PcOf(s, t)) && !pc.Tearing?
    requires s'.table == s.table.(recs := s.table.recs - {r}) && s'.phase == s.phase[r := Freed]
    requires s'.threads == s.threads[t := pc]
    ensures Inv(s')
  {
    assert Owns(s.threads)[t] == r;
    L.Frees(LedgerOf(s), t);
    FreeLedger(s, s', t, r, pc);
    OwnedIsLive(s, t, r);
    FreePhases(s, s', t, r, pc);
  }

  lemma FreePhases(s: State, s': State, t: Tid, r: RecId, pc: PC)
    requires PhasesOk(s) && OnlyOwner(s, t, {r}) && Own(pc) == None
    requires s'.table == s.table.(recs := s.table.recs - {r}) && s'.phase == s.phase[r := Freed]
    requires s'.threads == s.threads[t := pc]
    ensures PhasesOk(s')
  {
    forall q: RecId | q != r ensures SameStanding(s, s', q) { assert PhaseOk(s, q); }
    PhasesFollow(s, s', t, pc, {r});
  }

  lemma FreeLedger(s: State, s': State, t: Tid, r: RecId, pc: PC)
    requires Own(PcOf(s, t)) == Some(r) && Own(pc) == None && Pin(pc) == Pin(PcOf(s, t))
    requires s'.table == s.table.(recs := s.table.recs - {r}) && s'.threads == s.threads[t := pc]
    ensures LedgerOf(s') == LedgerOf(s).(accounts := LedgerOf(s).accounts - {r}, owns := LedgerOf(s).owns - {t})
  {
    Moves(s.threads, t, pc);
    assert Pins(s'.threads) == Pins(s.threads);
    assert Accounts(s'.table.recs) == Accounts(s.table.recs) - {r};
  }

  /** Detach and BYE: the owner advances its recording. */
  lemma AdvanceKeeps(s: State, s': State, t: Tid, pc: PC)
    requires Inv(s) && t in s.threads && s.threads[t].Tearing? && pc.Tearing? && OwnPhase(pc) in {Detached, Byed}
    requires pc.victim == s.threads[t].victim && pc.next == s.threads[t].next
    requires SameTable(s.(phase := s'.phase), s') && s'.phase == s.phase[pc.victim := OwnPhase(pc)]
    requires s'.threads == s.threads[t := pc]
    ensures Inv(s')
  {
    SameAccounts(s.(phase := s'.phase), s');
    Stays(s.threads, t, pc);
    assert LedgerOf(s') == LedgerOf(s);
    assert OwnerOk(s, t) && PhaseOk(s, pc.victim);
    OwnedIsLive(s, t, pc.victim);
    OwnedIsIdle(s, t, pc.victim);
    AdvancePhases(s, s', t, pc);
  }

  lemma AdvancePhases(s: State, s': State, t: Tid, pc: PC)
    requires PhasesOk(s) && pc.Tearing? && OwnPhase(pc) in {Detached, Byed}
    requires pc.victim in s.table.recs && s.table.recs[pc.victim].useCount == 0 && !Hashed(s.table, pc.victim)
    requires OnlyOwner(s, t, {pc.victim})
    requires SameTable(s.(phase := s'.phase), s') && s'.phase == s.phase[pc.victim := OwnPhase(pc)]
    requires s'.threads == s.threads[t := pc]
    ensures PhasesOk(s')
  {
    forall q: RecId | q in s.table.recs ensures AccountOf(s'.table.recs[q]) == AccountOf(s.table.recs[q]) { }
    SameAccounts(s.(phase := s'.phase), s');
    forall q: RecId | q != pc.victim ensures SameStanding(s, s', q) {
      if q in s.table.recs { assert AccountOf(s'.table.recs[q]) == AccountOf(s.table.recs[q]); }
    }
    PhasesFollow(s, s', t, pc, {pc.victim});
  }

  lemma OwnedIsIdle(s: State, t: Tid, r: RecId)
    requires L.Inv(LedgerOf(s)) && Own(PcOf(s, t)) == Some(r)
    ensures r in s.table.recs && s.table.recs[r].useCount == 0 && !Hashed(s.table, r)
  {
    assert Owns(s.threads)[t] == r;
    assert r in Accounts(s.table.recs) && Accounts(s.table.recs)[r] == AccountOf(s.table.recs[r]);
    assert L.InHash(LedgerOf(s), r) <==> Hashed(s.table, r);
  }

  lemma PinnedIsLive(s: State, t: Tid, r: RecId)
    requires L.Inv(LedgerOf(s)) && Pin(PcOf(s, t)) == Some(r)
    ensures r in s.table.recs && s.table.recs[r].useCount > 0
    ensures s.table.recs[r].doomed <==> !Hashed(s.table, r)
    ensures OnlyOwner(s, t, {r}) && Own(PcOf(s, t)) != Some(r)
  {
    assert Pins(s.threads)[t] == r;
    L.PinnedIsUsed(LedgerOf(s), t);
    assert r in Accounts(s.table.recs) && Accounts(s.table.recs)[r] == AccountOf(s.table.recs[r]);
    assert L.Placed(LedgerOf(s), r);
    assert L.InHash(LedgerOf(s), r) <==> Hashed(s.table, r);
    assert forall u :: u in Owns(s.threads) ==> Owns(s.threads)[u] != r;
    SoleOwner(s, t, {r});
    if t in Owns(s.threads) { assert Owns(s.threads)[t] == Own(PcOf(s, t)).value; }
  }

  lemma HashedIsLive(s: State, t: Tid, key: string)
    requires L.Inv(LedgerOf(s)) && key in s.table.hash
    ensures var r := s.table.hash[key];
      && r in s.table.recs && s.table.recs[r].key == key && !s.table.recs[r].doomed && Hashed(s.table, r)
      && s.table.recs[r].useCount >= 0 && OnlyOwner(s, t, {r}) && Own(PcOf(s, t)) != Some(r)
  {
    var r := s.table.hash[key];
    assert r in Accounts(s.table.recs) && Accounts(s.table.recs)[r] == AccountOf(s.table.recs[r]);
    assert L.InHash(LedgerOf(s), r);
    assert forall u :: u in Owns(s.threads) ==> Owns(s.threads)[u] != r;
    SoleOwner(s, t, {r});
    if t in Owns(s.threads) { assert Owns(s.threads)[t] == Own(PcOf(s, t)).value; }
    assert s.table.recs[r].useCount == |L.Pinners(Pins(s.threads), r)|;
  }

  lemma AccountsPut(recs: map<RecId, Rec>, r: RecId, rec: Rec)
    ensures Accounts(recs[r := rec]) == Accounts(recs)[r := AccountOf(rec)]
  {
  }

  /** What the thread's move makes of the ledger, when one account changes. */
  lemma LedgerMoves(s: State, s': State, t: Tid, pc: PC, r: RecId, rec: Rec)
    requires s'.table.recs == s.table.recs[r := rec] && s'.threads == s.threads[t := pc]
    ensures LedgerOf(s') == L.Ledger(s'.table.hash, Accounts(s.table.recs)[r := AccountOf(rec)],
      if Pin(pc).Some? then Pins(s.threads)[t := Pin(pc).value] else Pins(s.threads) - {t},
      if Own(pc).Some? then Owns(s.threads)[t := Own(pc).value] else Owns(s.threads) - {t})
  {
    AccountsPut(s.table.recs, r, rec);
    Moves(s.threads, t, pc);
  }

  lemma NotMapped(s: State, t: Tid)
    ensures Pin(PcOf(s, t)) == None ==> t !in Pins(s.threads) && Pins(s.threads) - {t} == Pins(s.threads)
    ensures Own(PcOf(s, t)) == None ==> t !in Owns(s.threads) && Owns(s.threads) - {t} == Owns(s.threads)
    ensures forall r :: Pin(PcOf(s, t)) == Some(r) ==> t in Pins(s.threads) && Pins(s.threads)[t] == r && Pins(s.threads)[t := r] == Pins(s.threads)
    ensures forall r :: Own(PcOf(s, t)) == Some(r) ==> t in Owns(s.threads) && Owns(s.threads)[t] == r
  {
  }

  lemma AcquireKeeps(s: State, s': State, t: Tid, key: string, pc: PC)
    requires Inv(s) && Pin(PcOf(s, t)) == None && Own(PcOf(s, t)) == None && key in s.table.hash
    requires s.table.hash[key] in s.table.recs
    requires s'.table == AcquireHold(s.table, key) && s'.phase == s.phase && s'.threads == s.threads[t := pc]
    requires Pin(pc) == Some(s.table.hash[key]) && Own(pc) == None && !pc.Tearing?
    ensures Inv(s')
  {
    HashedIsLive(s, t, key);
    AcquireLedger(s, s', t, key, pc);
    AcquirePhases(s, s', t, s.table.hash[key], pc);
  }

  lemma AcquireLedger(s: State, s': State, t: Tid, key: string, pc: PC)
    requires L.Inv(LedgerOf(s)) && Pin(PcOf(s, t)) == None && Own(PcOf(s, t)) == None && key in s.table.hash
    requires s.table.hash[key] in s.table.recs
    requires s'.table == AcquireHold(s.table, key) && s'.threads == s.threads[t := pc]
    requires Pin(pc) == Some(s.table.hash[key]) && Own(pc) == None
    ensures L.Inv(LedgerOf(s'))
  {
    var r := s.table.hash[key];
    NotMapped(s, t);
    assert Accounts(s.table.recs)[r] == AccountOf(s.table.recs[r]);
    L.Pins(LedgerOf(s), t, key);
    LedgerMoves(s, s', t, pc, r, s'.table.recs[r]);
  }

  lemma AcquirePhases(s: State, s': State, t: Tid, r: RecId, pc: PC)
    requires PhasesOk(s) && OnlyOwner(s, t, {r}) && Hashed(s.table, r) && Own(pc) == None
    requires s'.table == AcquireHold(s.table, s.table.recs[r].key) && s'.phase == s.phase && s'.threads == s.threads[t := pc]
    ensures PhasesOk(s')
  {
    assert PhaseOk(s, r);
    forall q: RecId | q != r ensures SameStanding(s, s', q) { }
    PhasesFollow(s, s', t, pc, {r});
  }

  lemma ReleaseKeeps(s: State, s': State, t: Tid, r: RecId, kept: PC, next: After)
    requires Inv(s) && Pin(PcOf(s, t)) == Some(r) && Own(PcOf(s, t)) == None && r in s.table.recs
    requires !kept.Tearing? && Own(kept) == None && Pin(kept) == None
    requires !next.ToBind?
    requires s'.table == ReleaseHold(s.table, r) && s'.phase == s.phase
    requires s'.threads == s.threads[t := if ReleaseTearsDown(s.table, r) then Tearing(r, DoDetach, next) else kept]
    ensures Inv(s')
  {
    PinnedIsLive(s, t, r);
    var pc := if ReleaseTearsDown(s.table, r) then Tearing(r, DoDetach, next) else kept;
    ReleaseLedger(s, s', t, r, pc);
    ReleasePhases(s, s', t, r, pc);
  }

  lemma ReleaseLedger(s: State, s': State, t: Tid, r: RecId, pc: PC)
    requires L.Inv(LedgerOf(s)) && Pin(PcOf(s, t)) == Some(r) && Own(PcOf(s, t)) == None && r in s.table.recs
    requires s'.table == ReleaseHold(s.table, r) && s'.threads == s.threads[t := pc]
    requires Pin(pc) == None && Own(pc) == if ReleaseTearsDown(s.table, r) then Some(r) else None
    ensures L.Inv(LedgerOf(s'))
  {
    NotMapped(s, t);
    assert Accounts(s.table.recs)[r] == AccountOf(s.table.recs[r]);
    if ReleaseTearsDown(s.table, r) { L.UnpinsLast(LedgerOf(s), t); } else { L.Unpins(LedgerOf(s), t); }
    LedgerMoves(s, s', t, pc, r, s'.table.recs[r]);
  }

  lemma ReleasePhases(s: State, s': State, t: Tid, r: RecId, pc: PC)
    requires PhasesOk(s) && OnlyOwner(s, t, {r}) && r in s.table.recs && s.table.recs[r].useCount > 0
    requires s.table.recs[r].doomed <==> !Hashed(s.table, r)
    requires s'.table == ReleaseHold(s.table, r) && s'.phase == s.phase && s'.threads == s.threads[t := pc]
    requires Own(pc) == None || (ReleaseTearsDown(s.table, r) && pc.Tearing? && pc.victim == r && pc.step == DoDetach)
    ensures PhasesOk(s')
  {
    assert PhaseOk(s, r);
    forall q: RecId | q != r ensures SameStanding(s, s', q) { }
    PhasesFollow(s, s', t, pc, {r});
  }

  lemma ThenHolds(v: RecId, next: After)
    ensures !next.ToBind? ==> Pin(Then(next)) == None
    ensures Pin(Then(next)) == Pin(Tearing(v, DoFree, next)) && Own(Then(next)) == None && !Then(next).Tearing?
  {
  }

  /** claim_recording by `t`, which then goes to `next`, tearing the recording down first if it got it. */
  lemma ClaimKeeps(s: State, s': State, t: Tid, key: string, next: After)
    requires Inv(s) && Pin(PcOf(s, t)) == None && Own(PcOf(s, t)) == None && key in s.table.hash
    requires s.table.hash[key] in s.table.recs
    requires s'.table == ClaimHold(s.table, key).table && s'.phase == s.phase[s.table.hash[key] := Retired]
    requires !next.ToBind?
    requires s'.threads == s.threads[t := if ClaimHold(s.table, key).owned
                                          then Tearing(s.table.hash[key], DoDetach, next) else Then(next)]
    ensures Inv(s')
  {
    HashedIsLive(s, t, key);
    HashKeys(s);
    assert PhaseOk(s, s.table.hash[key]);
    var pc := if ClaimHold(s.table, key).owned then Tearing(s.table.hash[key], DoDetach, next) else Then(next);
    ThenHolds(s.table.hash[key], next);
    ClaimLedger(s, s', t, key, pc);
    ClaimPhases(s, s', t, key, pc);
  }

  lemma ClaimLedger(s: State, s': State, t: Tid, key: string, pc: PC)
    requires L.Inv(LedgerOf(s)) && Pin(PcOf(s, t)) == None && Own(PcOf(s, t)) == None && key in s.table.hash
    requires s.table.hash[key] in s.table.recs && s.table.recs[s.table.hash[key]].useCount >= 0
    requires s'.table == ClaimHold(s.table, key).table && s'.threads == s.threads[t := pc]
    requires Pin(pc) == None && Own(pc) == if ClaimHold(s.table, key).owned then Some(s.table.hash[key]) else None
    ensures L.Inv(LedgerOf(s'))
  {
    var r := s.table.hash[key];
    NotMapped(s, t);
    assert Accounts(s.table.recs)[r] == AccountOf(s.table.recs[r]);
    if ClaimHold(s.table, key).owned { L.Claims(LedgerOf(s), t, key); } else { L.Dooms(LedgerOf(s), key); }
    assert s'.table.recs == s.table.recs[r := s'.table.recs[r]];
    LedgerMoves(s, s', t, pc, r, s'.table.recs[r]);
    assert Accounts(s.table.recs)[r := AccountOf(s.table.recs[r])] == Accounts(s.table.recs);
  }

  lemma ClaimPhases(s: State, s': State, t: Tid, key: string, pc: PC)
    requires PhasesOk(s) && key in s.table.hash
    requires var r := s.table.hash[key];
      r in s.table.recs && s.table.recs[r].key == key && OnlyOwner(s, t, {r}) && PhaseOf(s, r) == InHash
      && (Own(pc) == None || (pc.Tearing? && pc.victim == r && pc.step == DoDetach))
    requires forall k :: k in s.table.hash ==> s.table.hash[k] in s.table.recs && s.table.recs[s.table.hash[k]].key == k
    requires s'.table == ClaimHold(s.table, key).table && s'.phase == s.phase[s.table.hash[key] := Retired]
    requires s'.threads == s.threads[t := pc]
    ensures PhasesOk(s')
  {
    var r := s.table.hash[key];
    assert PhaseOk(s, r);
    forall q: RecId | q != r ensures SameStanding(s, s', q) { }
    PhasesFollow(s, s', t, pc, {r});
  }

  lemma DiscardKeeps(s: State, s': State, t: Tid, r: RecId, pc: PC)
    requires Inv(s) && Pin(PcOf(s, t)) == Some(r) && Own(PcOf(s, t)) == None && r in s.table.recs
    requires s'.table == DiscardHold(s.table, r)
    requires s'.phase == if Hashed(s.table, r) then s.phase[r := Retired] else s.phase
    requires !pc.Tearing? && Pin(pc) == Some(r) && Own(pc) == None && s'.threads == s.threads[t := pc]
    ensures Inv(s')
  {
    PinnedIsLive(s, t, r);
    HashKeys(s);
    DiscardLedger(s, s', t, r, pc);
    DiscardPhases(s, s', t, r, pc);
  }

  lemma DiscardLedger(s: State, s': State, t: Tid, r: RecId, pc: PC)
    requires L.Inv(LedgerOf(s)) && Pin(PcOf(s, t)) == Some(r) && Own(PcOf(s, t)) == None && r in s.table.recs
    requires s'.table == DiscardHold(s.table, r)
    requires Pin(pc) == Some(r) && Own(pc) == None && s'.threads == s.threads[t := pc]
    ensures L.Inv(LedgerOf(s'))
  {
    NotMapped(s, t);
    assert Accounts(s.table.recs)[r] == AccountOf(s.table.recs[r]);
    assert L.InHash(LedgerOf(s), r) <==> Hashed(s.table, r);
    L.Discards(LedgerOf(s), t);
    LedgerMoves(s, s', t, pc, r, s'.table.recs[r]);
  }

  lemma DiscardPhases(s: State, s': State, t: Tid, r: RecId, pc: PC)
    requires PhasesOk(s) && OnlyOwner(s, t, {r}) && r in s.table.recs && s.table.recs[r].useCount > 0
    requires s'.table == DiscardHold(s.table, r) && Own(pc) == None && !pc.Tearing? && s'.threads == s.threads[t := pc]
    requires s'.phase == if Hashed(s.table, r) then s.phase[r := Retired] else s.phase
    requires forall k :: k in s.table.hash ==> s.table.hash[k] in s.table.recs && s.table.recs[s.table.hash[k]].key == k
    ensures PhasesOk(s')
  {
    assert PhaseOk(s, r);
    forall q: RecId | q != r ensures SameStanding(s, s', q) { }
    PhasesFollow(s, s', t, pc, {r});
  }

  lemma HashKeys(s: State)
    requires L.Inv(LedgerOf(s))
    ensures forall k :: k in s.table.hash ==> s.table.hash[k] in s.table.recs && s.table.recs[s.table.hash[k]].key == k
  {
    forall k | k in s.table.hash ensures s.table.hash[k] in s.table.recs && s.table.recs[s.table.hash[k]].key == k {
      HashedIsLive(s, 0, k);
    }
  }

  lemma InsertKeeps(s: State, t: Tid, r: RecId)
    requires Inv(s) && PcOf(s, t) == Allocated(r) && r in s.table.recs
    requires AtKey(s, s.table.recs[r].key) <= s.table.recs.Keys
    ensures Inv(StepInsert(s, t, r))
  {
    var s' := StepInsert(s, t, r);
    var key := s.table.recs[r].key;
    if Busy(s.table, key) {
      Quiet(s, s', t, Refused(r));
    } else {
      InsertDoes(s, t, r);
      FreshKeeps(s, s', t, r);
    }
  }

  lemma FreshKeeps(s: State, s': State, t: Tid, r: RecId)
    requires Inv(s) && PcOf(s, t) == Allocated(r) && r in s.table.recs
    requires AtKey(s, s.table.recs[r].key) <= s.table.recs.Keys && !Busy(s.table, s.table.recs[r].key)
    requires s'.table == InsertHold(s.table, r)
    requires var stale := Stale(s.table, r);
      && s'.phase == (if stale.Some? then s.phase[stale.value := Retired] else s.phase)[r := InHash]
      && s'.threads == s.threads[t := AfterInsert(stale, r)]
    ensures Inv(s')
  {
    FreshIsReady(s, t, r);
    InsertLedger(s, s', t, r, AfterInsert(Stale(s.table, r), r));
    InsertPhases(s, s', t, r, AfterInsert(Stale(s.table, r), r));
  }

  /** Where a start goes from its insert: to its bind, over the teardown of what it evicted. */
  function AfterInsert(stale: Option<RecId>, r: RecId): (pc: PC)
    ensures Pin(pc) == Some(r) && Own(pc) == stale
  {
    if stale.Some? then Tearing(stale.value, DoDetach, ToBind(r)) else Binding(r)
  }

  /** What a start finds at its insert: its own recording private, the one it evicts hashed and nobody's. */
  lemma FreshIsReady(s: State, t: Tid, r: RecId)
    requires Inv(s) && PcOf(s, t) == Allocated(r) && r in s.table.recs
    requires AtKey(s, s.table.recs[r].key) <= s.table.recs.Keys && !Busy(s.table, s.table.recs[r].key)
    ensures PhaseOf(s, r) == Private && OnlyOwner(s, t, {r}) && s.table.recs[r].useCount == 0 && !s.table.recs[r].doomed
    ensures Stale(s.table, r).Some? ==>
      var st := Stale(s.table, r).value;
      && st != r && st in s.table.recs && PhaseOf(s, st) == InHash && OnlyOwner(s, t, {st})
      && s.table.recs[st].useCount == 0 && s.table.recs[st].key == s.table.recs[r].key
  {
    assert OwnerOk(s, t) && PhaseOk(s, r);
    OwnedIsIdle(s, t, r);
    OwnedIsLive(s, t, r);
    if Stale(s.table, r).Some? { HashedIsLive(s, t, s.table.recs[r].key); assert PhaseOk(s, Stale(s.table, r).value); }
  }

  lemma InsertDoes(s: State, t: Tid, r: RecId)
    requires r in s.table.recs && AtKey(s, s.table.recs[r].key) <= s.table.recs.Keys && !Busy(s.table, s.table.recs[r].key)
    ensures var s' := StepInsert(s, t, r);
      var stale := Stale(s.table, r);
      && s'.table == InsertHold(s.table, r)
      && s'.phase == (if stale.Some? then s.phase[stale.value := Retired] else s.phase)[r := InHash]
      && s'.threads == s.threads[t := if stale.Some? then Tearing(stale.value, DoDetach, ToBind(r)) else Binding(r)]
  {
  }

  lemma InsertLedger(s: State, s': State, t: Tid, r: RecId, pc: PC)
    requires L.Inv(LedgerOf(s)) && Pin(PcOf(s, t)) == None && Own(PcOf(s, t)) == Some(r) && r in s.table.recs
    requires s.table.recs[r].useCount == 0 && !s.table.recs[r].doomed
    requires Stale(s.table, r).Some? ==>
      Stale(s.table, r).value in s.table.recs && s.table.recs[Stale(s.table, r).value].useCount == 0
    requires s'.table == InsertHold(s.table, r) && s'.threads == s.threads[t := pc]
    requires Pin(pc) == Some(r) && Own(pc) == Stale(s.table, r)
    ensures L.Inv(LedgerOf(s'))
  {
    NotMapped(s, t);
    assert Accounts(s.table.recs)[r] == AccountOf(s.table.recs[r]);
    if Stale(s.table, r).Some? {
      var st := Stale(s.table, r).value;
      assert Accounts(s.table.recs)[st] == AccountOf(s.table.recs[st]);
    }
    L.Inserts(LedgerOf(s), t);
    LedgerMoves(s, s', t, pc, r, s'.table.recs[r]);
  }

  lemma InsertPhases(s: State, s': State, t: Tid, r: RecId, pc: PC)
    requires PhasesOk(s) && r in s.table.recs && PhaseOf(s, r) == Private && Stale(s.table, r) != Some(r)
    requires OnlyOwner(s, t, {r}) && s'.threads == s.threads[t := pc] && s'.table == InsertHold(s.table, r)
    requires match Stale(s.table, r)
      case Some(st) => st in s.table.recs && PhaseOf(s, st) == InHash && pc == AfterInsert(Some(st), r)
                       && OnlyOwner(s, t, {st}) && s'.phase == s.phase[st := Retired][r := InHash]
                       && s.table.recs[st].key == s.table.recs[r].key
      case None => pc == Binding(r) && s'.phase == s.phase[r := InHash]
    ensures PhasesOk(s')
  {
    var stale := Stale(s.table, r);
    var changed := {r} + if stale.Some? then {stale.value} else {};
    assert PhaseOk(s, r);
    if stale.Some? { assert PhaseOk(s, stale.value); }
    forall q: RecId | q !in changed ensures SameStanding(s, s', q) { }
    PhasesFollow(s, s', t, pc, changed);
  }
}
