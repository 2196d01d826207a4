/** Every step of the protocol keeps its log accepted, so every run's log is. */
module ProtocolRuns {
  import opened Common
  import opened RecordingTable
  import opened RecordingProtocol
  import opened ProtocolOwnership
  import opened ProtocolMonitor
  import opened ProtocolWatch
  import opened ProtocolSafety

  // ---- the watchdogs accept each step ----

  lemma FreesSeen(s: State, r: RecId)
    requires AllConsistent(s) && r in s.table.recs && PhaseOf(s, r) in {Private, Byed}
    ensures AllConsistent(Frees(s, r))
  {
    assert Consistent(ViewOf(s, r), Monitor(s.log, r));
    Seen(s, Frees(s, r), Free(r), r);
  }

  lemma UnhashSeen(s: State, s': State, r: RecId)
    requires AllConsistent(s) && r in s.table.recs && PhaseOf(s, r) == InHash
    requires s'.log == s.log + [Unhash(r)] && s'.phase == s.phase[r := Retired] && s'.bugs == s.bugs
    requires forall q: RecId :: ViewOf(s', q).live == ViewOf(s, q).live
    ensures AllConsistent(s')
  {
    assert Consistent(ViewOf(s, r), Monitor(s.log, r));
    Seen(s, s', Unhash(r), r);
  }

  lemma InsertSeen(s: State, t: Tid, r: RecId)
    requires AllConsistent(s) && r in s.table.recs && AtKey(s, s.table.recs[r].key) <= s.table.recs.Keys
    requires PhaseOf(s, r) == Private
    requires Stale(s.table, r).Some? ==> PhaseOf(s, Stale(s.table, r).value) == InHash
    ensures AllConsistent(StepInsert(s, t, r))
  {
    var s' := StepInsert(s, t, r);
    if Busy(s.table, s.table.recs[r].key) { Unseen(s, s'); }
    else {
      var stale := Stale(s.table, r);
      var s1 := if stale.Some? then Emit(WithPhase(s, stale.value, Retired), Unhash(stale.value)) else s;
      if stale.Some? { UnhashSeen(s, s1, stale.value); }
      assert Consistent(ViewOf(s1, r), Monitor(s1.log, r));
      Seen(s1, s', Insert(r), r);
    }
  }

  lemma InviteSeen(s: State, t: Tid, r: RecId, c: Choice)
    requires AllConsistent(s) && r in s.table.recs && s.table.recs[r].leg == NoContext && PhaseOf(s, r) in {InHash, Retired}
    ensures AllConsistent(StepInvite(s, t, r, c))
  {
    var s' := StepInvite(s, t, r, c);
    assert Consistent(ViewOf(s, r), Monitor(s.log, r));
    if c.yes { Seen(s, s', Answer(r, c.leg), r); } else { Unseen(s, s'); }
  }

  lemma AttachSeen(s: State, t: Tid, r: RecId, c: Choice)
    requires AllConsistent(s) && r in s.table.recs && PhaseOf(s, r) in {InHash, Retired}
    requires s.table.recs[r].leg != NoContext && s.table.recs[r].media == Unattached
    ensures AllConsistent(StepAttach(s, t, r, c))
  {
    var s' := StepAttach(s, t, r, c);
    assert Consistent(ViewOf(s, r), Monitor(s.log, r));
    if c.yes { Seen(s, s', Attach(r), r); } else { Unseen(s, s'); }
  }

  lemma WireSeen(s: State, t: Tid, r: RecId)
    requires AllConsistent(s) && r in s.table.recs && PhaseOf(s, r) in {InHash, Retired} && s.table.recs[r].media.Adding?
    ensures AllConsistent(StepWire(s, t, r))
  {
    assert Consistent(ViewOf(s, r), Monitor(s.log, r));
    Silent(s, StepWire(s, t, r), r);
  }

  lemma DiscardSeen(s: State, t: Tid, r: RecId)
    requires AllConsistent(s) && r in s.table.recs && (Hashed(s.table, r) ==> PhaseOf(s, r) == InHash)
    ensures AllConsistent(StepDiscard(s, t, r))
  {
    if Hashed(s.table, r) { UnhashSeen(s, StepDiscard(s, t, r), r); } else { Unseen(s, StepDiscard(s, t, r)); }
  }

  /** A step that only moves use counts, doomed flags, handlers and threads. */
  lemma AccountsUnseen(s: State, s': State)
    requires AllConsistent(s) && s'.phase == s.phase && s'.bugs == s.bugs
    requires s'.log == s.log || (exists e :: About(e) == None && s'.log == s.log + [e])
    requires s'.table.recs.Keys == s.table.recs.Keys
    requires forall r :: r in s.table.recs ==>
      && s'.table.recs[r].media == s.table.recs[r].media
      && s'.table.recs[r].leg == s.table.recs[r].leg && s'.table.recs[r].legGone == s.table.recs[r].legGone
    ensures AllConsistent(s')
  {
    Unseen(s, s');
  }

  lemma StartSeen(s: State, t: Tid, pc: PC, c: Choice)
    requires Inv(s) && AllConsistent(s) && StartersOk(s)
    requires PcOf(s, t) == pc && InStart(pc) && TouchedBy(s, pc) <= s.table.recs.Keys
    ensures AllConsistent(StepStart(s, t, pc, c))
  {
    assert StarterOk(s, t) && OwnerOk(s, t);
    if Pin(pc).Some? { PinnedIsLive(s, t, Pin(pc).value); assert PhaseOk(s, Pin(pc).value); }
    match pc
    case Allocated(r) => AllocatedSeen(s, t, r);
    case Refused(r) => RefusedSeen(s, t, r, c);
    case Inviting(r) => InviteSeen(s, t, r, c);
    case Attaching(r) => AttachSeen(s, t, r, c);
    case Wiring(r) => WireSeen(s, t, r);
    case Discarding(r) => DiscardSeen(s, t, r);
    case _ => StartUnseen(s, t, pc, c);
  }

  lemma AllocatedSeen(s: State, t: Tid, r: RecId)
    requires Inv(s) && AllConsistent(s) && PcOf(s, t) == Allocated(r) && r in s.table.recs
    requires AtKey(s, s.table.recs[r].key) <= s.table.recs.Keys
    ensures AllConsistent(StepInsert(s, t, r))
  {
    assert OwnerOk(s, t);
    if Stale(s.table, r).Some? { HashedIsLive(s, t, s.table.recs[r].key); assert PhaseOk(s, Stale(s.table, r).value); }
    InsertSeen(s, t, r);
  }

  lemma RefusedSeen(s: State, t: Tid, r: RecId, c: Choice)
    requires Inv(s) && AllConsistent(s) && PcOf(s, t) == Refused(r) && r in s.table.recs
    ensures AllConsistent(StepStart(s, t, Refused(r), c))
  {
    assert OwnerOk(s, t);
    FreesSeen(s, r);
    Unseen(Frees(s, r), StepStart(s, t, Refused(r), c));
  }

  lemma StartUnseen(s: State, t: Tid, pc: PC, c: Choice)
    requires AllConsistent(s) && InStart(pc) && TouchedBy(s, pc) <= s.table.recs.Keys
    requires pc.Binding? || pc.Preparing? || pc.Finishing? || pc.Stopped? || pc.Dropping?
    ensures AllConsistent(StepStart(s, t, pc, c))
  {
    match pc
    case Finishing(r) => FinishUnseen(s, t, r);
    case Dropping(r, call) => ReleaseUnseen(s, t, r, HandlerScan(call, Some(r)), ToScan(call, Some(r)));
    case Binding(_) => AccountsUnseen(s, StepStart(s, t, pc, c));
    case Preparing(_) => AccountsUnseen(s, StepStart(s, t, pc, c));
    case Stopped(_) => AccountsUnseen(s, StepStart(s, t, pc, c));
  }

  lemma ReleaseUnseen(s: State, t: Tid, r: RecId, kept: PC, next: After)
    requires AllConsistent(s) && r in s.table.recs
    ensures AllConsistent(Releases(s, t, r, kept, next))
  {
    AccountsUnseen(s, Releases(s, t, r, kept, next));
  }

  lemma FinishUnseen(s: State, t: Tid, r: RecId)
    requires AllConsistent(s) && r in s.table.recs
    ensures AllConsistent(StepFinish(s, t, r))
  {
    ReleaseUnseen(s, t, r, Idle, ToStopped(r));
    if !ReleaseTearsDown(s.table, r) { Unseen(Releases(s, t, r, Idle, ToStopped(r)), StepFinish(s, t, r)); }
  }

  lemma PausedSeen(s: State, r: RecId, paused: bool, e: Event)
    requires AllConsistent(s) && r in s.table.recs
    requires if paused then e.Gate? && e.r == r else e.Ungate? && e.r == r
    ensures AllConsistent(SetPaused(s, r, paused, e))
  {
    assert Consistent(ViewOf(s, r), Monitor(s.log, r));
    if s.table.recs[r].media == Wired(true) && r in s.bugs { Seen(s, SetPaused(s, r, paused, e), e, r); }
  }

  lemma ReinviteSeen(s: State, t: Tid, pc: PC, c: Choice)
    requires AllConsistent(s) && pc.Reinviting? && pc.r in s.table.recs
    ensures AllConsistent(StepReinvite(s, t, pc, c))
  {
    var s' := StepReinvite(s, t, pc, c);
    assert Consistent(ViewOf(s, pc.r), Monitor(s.log, pc.r));
    if s.table.recs[pc.r].leg.OnLeg? && !c.located { Silent(s, s', pc.r); } else { AccountsUnseen(s, s'); }
  }

  lemma DirectionSeen(s: State, t: Tid, pc: PC, c: Choice)
    requires AllConsistent(s) && PcOf(s, t) == pc && InDirection(pc) && TouchedBy(s, pc) <= s.table.recs.Keys
    ensures AllConsistent(StepDirection(s, t, pc, c))
  {
    if pc.Gating? {
      PausedSeen(s, pc.r, true, Gate(t, pc.r));
      GoUnseen(SetPaused(s, pc.r, true, Gate(t, pc.r)), t, Checking(pc.r, pc.call, false));
    } else if pc.Ungating? {
      PausedSeen(s, pc.r, false, Ungate(t, pc.r));
      GoUnseen(SetPaused(s, pc.r, false, Ungate(t, pc.r)), t, Releasing(pc.r, pc.call));
    } else if pc.Reinviting? {
      ReinviteSeen(s, t, pc, c);
    } else {
      DirectionUnseen(s, t, pc, c);
    }
  }

  lemma DirectionUnseen(s: State, t: Tid, pc: PC, c: Choice)
    requires AllConsistent(s) && TouchedBy(s, pc) <= s.table.recs.Keys && (pc.Acquiring? || pc.Checking? || pc.Releasing?)
    ensures AllConsistent(StepDirection(s, t, pc, c))
  {
    if pc.Releasing? { ReleaseUnseen(s, t, pc.r, Idle, ToIdle); } else { AccountsUnseen(s, StepDirection(s, t, pc, c)); }
  }

  lemma ClaimsSeen(s: State, key: string)
    requires AllConsistent(s) && (key in s.table.hash ==> s.table.hash[key] in s.table.recs && PhaseOf(s, s.table.hash[key]) == InHash)
    ensures AllConsistent(Claims(s, key))
  {
    if key in s.table.hash { UnhashSeen(s, Claims(s, key), s.table.hash[key]); }
  }

  lemma MarkSeen(s: State, t: Tid, key: string, leg: string)
    requires AllConsistent(s) && AtKey(s, key) <= s.table.recs.Keys
    requires key in s.table.hash ==> PhaseOf(s, s.table.hash[key]) == InHash
    ensures AllConsistent(StepLegEnd(s, t, key, leg))
  {
    var s' := StepLegEnd(s, t, key, leg);
    if LegMatches(s.table, key, leg) {
      var r := s.table.hash[key];
      assert Consistent(ViewOf(s, r), Monitor(s.log, r));
      Seen(s, s', Mark(r, leg), r);
    } else {
      Unseen(s, s');
    }
  }

  lemma DrainSeen(s: State, t: Tid, d: Drain)
    requires AllConsistent(s) && (d.pending != [] ==> AtKey(s, d.pending[0].0) <= s.table.recs.Keys)
    requires forall k :: k in s.table.hash ==> PhaseOf(s, s.table.hash[k]) == InHash
    ensures AllConsistent(StepDrain(s, t, d))
  {
    if d.pending == [] { AccountsUnseen(s, StepDrain(s, t, d)); }
    else { ClaimsSeen(s, d.pending[0].0); AccountsUnseen(Claims(s, d.pending[0].0), StepDrain(s, t, d)); }
  }

  lemma HandlerUnseen(s: State, t: Tid, pc: PC, c: Choice)
    requires AllConsistent(s) && TouchedBy(s, pc) <= s.table.recs.Keys
    requires pc.Idle? || pc.HandlerScan? || pc.HandlerUnbind? || pc.Scanning? || pc.DrainUnbinding?
    ensures AllConsistent(StepStop(s, t, pc, c))
  {
    if pc.HandlerScan? {
      DoneUnseen(s, t, pc.start);
      GoUnseen(s, t, HandlerUnbind(pc.call, pc.start));
    } else if pc.HandlerUnbind? {
      Unseen(s, s.(bound := s.bound - {pc.call}));
      DoneUnseen(s.(bound := s.bound - {pc.call}), t, pc.start);
    } else {
      AccountsUnseen(s, StepStop(s, t, pc, c));
    }
  }

  lemma DoneUnseen(s: State, t: Tid, start: Option<RecId>)
    requires AllConsistent(s)
    ensures AllConsistent(HandlerDone(s, t, start))
  {
    Unseen(s, HandlerDone(s, t, start));
  }

  lemma HashedPhases(s: State)
    requires Inv(s)
    ensures forall k :: k in s.table.hash ==> s.table.hash[k] in s.table.recs && PhaseOf(s, s.table.hash[k]) == InHash
  {
    forall k | k in s.table.hash ensures s.table.hash[k] in s.table.recs && PhaseOf(s, s.table.hash[k]) == InHash {
      HashedIsLive(s, 0, k);
      assert PhaseOk(s, s.table.hash[k]);
    }
  }

  lemma ClaimingSeen(s: State, t: Tid, key: string, call: string)
    requires AllConsistent(s) && AtKey(s, key) <= s.table.recs.Keys
    requires key in s.table.hash ==> PhaseOf(s, s.table.hash[key]) == InHash
    ensures AllConsistent(StepClaim(s, t, key, call))
  {
    ClaimsSeen(s, key);
    AccountsUnseen(Claims(s, key), StepClaim(s, t, key, call));
  }

  lemma StopSeen(s: State, t: Tid, pc: PC, c: Choice)
    requires Inv(s) && AllConsistent(s) && PcOf(s, t) == pc
    requires !InStart(pc) && !InDirection(pc) && !pc.Tearing? && TouchedBy(s, pc) <= s.table.recs.Keys
    ensures AllConsistent(StepStop(s, t, pc, c))
  {
    HashedPhases(s);
    match pc
    case Claiming(key, call) => ClaimingSeen(s, t, key, call);
    case Draining(d) => DrainSeen(s, t, d);
    case LegEnding(key, leg) => MarkSeen(s, t, key, leg);
    case _ => HandlerUnseen(s, t, pc, c);
  }

  lemma DetachSeen(s: State, v: RecId)
    requires AllConsistent(s) && v in s.table.recs && PhaseOf(s, v) == Retired && !s.table.recs[v].media.Adding?
    requires v in s.bugs ==> !s.bugs[v].ticking
    ensures AllConsistent(Detaches(s, v))
  {
    assert Consistent(ViewOf(s, v), Monitor(s.log, v));
    DetachedView(s, v, Monitor(s.log, v));
    forall q: RecId | q != v ensures ViewOf(Detaches(s, v), q) == ViewOf(s, q) { }
    Seen(s, Detaches(s, v), Detach(v), v);
  }

  lemma DetachedView(s: State, v: RecId, m: Mon)
    requires v in s.table.recs && PhaseOf(s, v) == Retired && !s.table.recs[v].media.Adding? && Consistent(ViewOf(s, v), m)
    requires v in s.bugs ==> !s.bugs[v].ticking
    ensures Consistent(ViewOf(Detaches(s, v), v), Watch(m, Detach(v), v))
  {
  }

  lemma ByeSeen(s: State, v: RecId, located: bool)
    requires AllConsistent(s) && v in s.table.recs && PhaseOf(s, v) == Detached
    ensures AllConsistent(Byes(s, v, located))
  {
    assert Consistent(ViewOf(s, v), Monitor(s.log, v));
    Seen(s, Byes(s, v, located), Bye(v), v);
  }

  /** Where threads stand is nothing to the watchdogs. */
  lemma GoUnseen(s: State, t: Tid, pc: PC)
    requires AllConsistent(s)
    ensures AllConsistent(Go(s, t, pc))
  {
    Unseen(s, Go(s, t, pc));
  }

  lemma TearSeen(s: State, t: Tid, pc: PC, c: Choice)
    requires AllConsistent(s) && pc.Tearing? && pc.victim in s.table.recs && PhaseOf(s, pc.victim) == OwnPhase(pc)
    requires pc.step == DoDetach ==> !s.table.recs[pc.victim].media.Adding?
    requires pc.step == DoDetach && pc.victim in s.bugs ==> !s.bugs[pc.victim].ticking
    ensures AllConsistent(StepTear(s, t, pc.victim, pc.step, pc.next, c))
  {
    var v := pc.victim;
    match pc.step
    case DoDetach => DetachSeen(s, v); GoUnseen(Detaches(s, v), t, Tearing(v, DoBye, pc.next));
    case DoBye => ByeSeen(s, v, c.located); GoUnseen(Byes(s, v, c.located), t, Tearing(v, DoFree, pc.next));
    case DoFree => FreesSeen(s, v); GoUnseen(Frees(s, v), t, Then(pc.next));
  }

  lemma MediaSeen(s: State, a: Action)
    requires AllConsistent(s) && Enabled(s, a) && Touched(s, a) <= s.table.recs.Keys
    requires a.Tick? || a.TickSend? || a.TickDone? || a.CoreClose?
    ensures AllConsistent(Effect(s, a))
  {
    assert Consistent(ViewOf(s, a.r), Monitor(s.log, a.r));
    match a
    case Tick(r) => if s.table.recs[r].legGone { CloseSeen(s, r); } else { Seen(s, Effect(s, a), TickBegin(r), r); }
    case TickSend(r) => Seen(s, Effect(s, a), Send(r), r);
    case TickDone(r) => Seen(s, Effect(s, a), TickEnd(r), r);
    case CoreClose(r) => CloseSeen(s, r);
  }

  lemma CloseSeen(s: State, r: RecId)
    requires AllConsistent(s) && r in s.table.recs && r in s.bugs && !s.bugs[r].ticking
    ensures AllConsistent(Closing(s, r))
  {
    assert Consistent(ViewOf(s, r), Monitor(s.log, r));
    Seen(s, Closing(s, r), Close(r), r);
  }

  lemma BeginSeen(s: State, a: Action)
    requires AllConsistent(s) && Enabled(s, a) && Touched(s, a) <= s.table.recs.Keys && !a.Run?
    requires !a.Tick? && !a.TickSend? && !a.TickDone? && !a.CoreClose?
    ensures AllConsistent(Effect(s, a))
  {
    if a.BeginStart? { StartBeginsSeen(s, a); } else { AccountsUnseen(s, Effect(s, a)); }
  }

  lemma StartBeginsSeen(s: State, a: Action)
    requires AllConsistent(s) && Enabled(s, a) && a.BeginStart?
    ensures AllConsistent(Effect(s, a))
  {
    assert Consistent(ViewOf(s, a.r), Monitor(s.log, a.r));
    Seen(s, Effect(s, a), Alloc(a.r, a.uuid), a.r);
  }

  // ---- one start at a time works on a recording ----

  lemma StarterHolds(pc: PC)
    ensures Starter(pc).Some? ==> Starter(pc) == Pin(pc) || Starter(pc) == Own(pc)
  {
  }

  /** Nobody runs the start of a recording that another thread owns. */
  lemma OwnedHasNoStarter(s: State, t: Tid, v: RecId)
    requires Inv(s) && Own(PcOf(s, t)) == Some(v)
    ensures SoleStarter(s, t, v)
  {
    OwnedIsLive(s, t, v);
    OwnedIsIdle(s, t, v);
    forall u: Tid | u != t ensures Starter(PcOf(s, u)) != Some(v) {
      StarterHolds(PcOf(s, u));
      if Pin(PcOf(s, u)) == Some(v) { PinnedIsLive(s, u, v); }
    }
  }

  lemma StartersStill(s: State, s': State)
    requires StartersOk(s) && s'.threads == s.threads && s'.phase == s.phase
    requires forall r: RecId :: r in s'.table.recs ==> r in s.table.recs && SameWork(s.table.recs[r], s'.table.recs[r])
    ensures StartersOk(s')
  {
    forall u: Tid ensures StarterOk(s', u) {
      assert StarterOk(s, u);
      if Starter(PcOf(s, u)).Some? && Starter(PcOf(s, u)).value in s'.table.recs {
        WorkStays(PcOf(s, u), s.table.recs[Starter(PcOf(s, u)).value], s'.table.recs[Starter(PcOf(s, u)).value]);
      }
    }
    forall u: Tid, v: Tid | SameStarter(PcOf(s', u), PcOf(s', v)) ensures u == v {
      assert SameStarter(PcOf(s, u), PcOf(s, v));
    }
    forall r: RecId ensures AddingOk(s', r) {
      assert AddingOk(s, r);
      if r in s'.table.recs && s'.table.recs[r].media.Adding? {
        var u: Tid :| PcOf(s, u) == Wiring(r);
        assert PcOf(s', u) == Wiring(r);
      }
    }
  }

  /** What a step does to the starts: `t` goes to `pc`, working at most on its own recording. */
  ghost predicate StarterMove(s: State, s': State, t: Tid, pc: PC) {
    && s'.threads == s.threads[t := pc] && s.phase.Keys <= s'.phase.Keys
    && (Starter(pc) == None || Starter(pc) == Starter(PcOf(s, t)))
    && (forall r: RecId :: r in s'.table.recs && Starter(PcOf(s, t)) != Some(r) ==>
          r in s.table.recs && SameWork(s.table.recs[r], s'.table.recs[r]))
  }

  lemma MoveKeepsStarters(s: State, s': State, t: Tid, pc: PC)
    requires StartersOk(s) && StarterMove(s, s', t, pc) && StarterOk(s', t)
    requires Starter(PcOf(s, t)).Some? ==> AddingOk(s', Starter(PcOf(s, t)).value)
    requires Starter(PcOf(s, t)).None? ==> !PcOf(s, t).Wiring?
    ensures StartersOk(s')
  {
    var mine := if Starter(PcOf(s, t)).Some? then {Starter(PcOf(s, t)).value} else {};
    if Starter(PcOf(s, t)).Some? { SoleIfMine(s, t, Starter(PcOf(s, t)).value); }
    StartersFollow(s, s', t, pc, mine);
  }

  lemma BeginKeepsStarters(s: State, a: Action)
    requires StartersOk(s) && Enabled(s, a) && Touched(s, a) <= s.table.recs.Keys && !a.Run?
    requires !a.Tick? && !a.TickSend? && !a.TickDone? && !a.CoreClose?
    ensures StartersOk(Effect(s, a))
  {
    var s' := Effect(s, a);
    if a.BeginStart? {
      StartBeginsAlone(s, a);
    } else if s' != s {
      BeginMoves(s, a);
      MoveKeepsStarters(s, s', a.t, PcOf(s', a.t));
    }
  }

  lemma BeginMoves(s: State, a: Action)
    requires Enabled(s, a) && !a.Run? && !a.Tick? && !a.TickSend? && !a.TickDone? && !a.CoreClose? && !a.BeginStart?
    ensures PcOf(s, a.t) == Idle
    ensures var s' := Effect(s, a);
      s' != s ==> s'.threads == s.threads[a.t := PcOf(s', a.t)] && s'.table == s.table && s'.phase == s.phase
                  && Starter(PcOf(s', a.t)) == None && !PcOf(s', a.t).Wiring?
  {
  }

  lemma StartBeginsAlone(s: State, a: Action)
    requires StartersOk(s) && Enabled(s, a) && a.BeginStart?
    ensures StartersOk(Effect(s, a))
  {
    forall u: Tid | u != a.t ensures Starter(PcOf(s, u)) != Some(a.r) { assert StarterOk(s, u); }
    StartersFollow(s, Effect(s, a), a.t, Allocated(a.r), {a.r});
  }

  lemma MediaKeepsStarters(s: State, a: Action)
    requires StartersOk(s) && Enabled(s, a) && Touched(s, a) <= s.table.recs.Keys
    requires a.Tick? || a.TickSend? || a.TickDone? || a.CoreClose?
    ensures StartersOk(Effect(s, a))
  {
    StartersStill(s, Effect(s, a));
  }

  lemma InsertStarters(s: State, t: Tid, r: RecId)
    requires StartersOk(s) && PcOf(s, t) == Allocated(r) && r in s.table.recs
    requires AtKey(s, s.table.recs[r].key) <= s.table.recs.Keys
    ensures StartersOk(StepInsert(s, t, r))
  {
    var s' := StepInsert(s, t, r);
    assert StarterOk(s, t);
    MoveKeepsStarters(s, s', t, PcOf(s', t));
  }

  lemma AttachStarters(s: State, t: Tid, r: RecId, c: Choice)
    requires StartersOk(s) && PcOf(s, t) == Attaching(r) && r in s.table.recs
    ensures StartersOk(StepAttach(s, t, r, c))
  {
    var s' := StepAttach(s, t, r, c);
    assert StarterOk(s, t);
    if c.yes { assert PcOf(s', t) == Wiring(r); }
    MoveKeepsStarters(s, s', t, PcOf(s', t));
  }

  lemma StartStarters(s: State, t: Tid, pc: PC, c: Choice)
    requires StartersOk(s) && PcOf(s, t) == pc && InStart(pc) && TouchedBy(s, pc) <= s.table.recs.Keys
    ensures StartersOk(StepStart(s, t, pc, c))
  {
    assert StarterOk(s, t);
    match pc
    case Allocated(r) => InsertStarters(s, t, r);
    case Attaching(r) => AttachStarters(s, t, r, c);
    case Refused(_) => EarlyStarters(s, t, pc, c);
    case Binding(_) => EarlyStarters(s, t, pc, c);
    case Preparing(_) => EarlyStarters(s, t, pc, c);
    case Inviting(_) => EarlyStarters(s, t, pc, c);
    case Wiring(_) => WireStarters(s, t, pc, c);
    case Finishing(_) => FinishStarters(s, t, pc, c);
    case Discarding(_) => DiscardStarters(s, t, pc, c);
    case _ => EndStarters(s, t, pc, c);
  }

  lemma EarlyStarters(s: State, t: Tid, pc: PC, c: Choice)
    requires StartersOk(s) && PcOf(s, t) == pc && InStart(pc) && TouchedBy(s, pc) <= s.table.recs.Keys
    requires pc.Refused? || pc.Binding? || pc.Preparing? || pc.Inviting?
    ensures StartersOk(StepStart(s, t, pc, c))
  {
    var s' := StepStart(s, t, pc, c);
    assert StarterOk(s, t);
    MoveKeepsStarters(s, s', t, PcOf(s', t));
  }

  lemma WireStarters(s: State, t: Tid, pc: PC, c: Choice)
    requires StartersOk(s) && PcOf(s, t) == pc && TouchedBy(s, pc) <= s.table.recs.Keys
    requires pc.Wiring?
    ensures StartersOk(StepStart(s, t, pc, c))
  {
    var s' := StepStart(s, t, pc, c);
    assert StarterOk(s, t);
    MoveKeepsStarters(s, s', t, PcOf(s', t));
  }

  lemma FinishStarters(s: State, t: Tid, pc: PC, c: Choice)
    requires StartersOk(s) && PcOf(s, t) == pc && TouchedBy(s, pc) <= s.table.recs.Keys
    requires pc.Finishing?
    ensures StartersOk(StepStart(s, t, pc, c))
  {
    var s' := StepStart(s, t, pc, c);
    assert StarterOk(s, t);
    MoveKeepsStarters(s, s', t, PcOf(s', t));
  }

  lemma DiscardStarters(s: State, t: Tid, pc: PC, c: Choice)
    requires StartersOk(s) && PcOf(s, t) == pc && TouchedBy(s, pc) <= s.table.recs.Keys
    requires pc.Discarding?
    ensures StartersOk(StepStart(s, t, pc, c))
  {
    var s' := StepStart(s, t, pc, c);
    assert StarterOk(s, t);
    MoveKeepsStarters(s, s', t, PcOf(s', t));
  }

  lemma EndStarters(s: State, t: Tid, pc: PC, c: Choice)
    requires StartersOk(s) && PcOf(s, t) == pc && TouchedBy(s, pc) <= s.table.recs.Keys
    requires pc.Stopped? || pc.Dropping?
    ensures StartersOk(StepStart(s, t, pc, c))
  {
    var s' := StepStart(s, t, pc, c);
    MoveKeepsStarters(s, s', t, PcOf(s', t));
  }

  lemma PinStarters(s: State, t: Tid, pc: PC, c: Choice)
    requires StartersOk(s) && PcOf(s, t) == pc && TouchedBy(s, pc) <= s.table.recs.Keys
    requires pc.Acquiring? || pc.Releasing?
    ensures StartersOk(StepDirection(s, t, pc, c))
  {
    var s' := StepDirection(s, t, pc, c);
    MoveKeepsStarters(s, s', t, PcOf(s', t));
  }

  lemma GateStarters(s: State, t: Tid, pc: PC, c: Choice)
    requires StartersOk(s) && PcOf(s, t) == pc && TouchedBy(s, pc) <= s.table.recs.Keys
    requires pc.Gating? || pc.Ungating?
    ensures StartersOk(StepDirection(s, t, pc, c))
  {
    var s' := StepDirection(s, t, pc, c);
    MoveKeepsStarters(s, s', t, PcOf(s', t));
  }

  lemma CheckStarters(s: State, t: Tid, pc: PC, c: Choice)
    requires StartersOk(s) && PcOf(s, t) == pc && TouchedBy(s, pc) <= s.table.recs.Keys
    requires pc.Checking?
    ensures StartersOk(StepDirection(s, t, pc, c))
  {
    var s' := StepDirection(s, t, pc, c);
    MoveKeepsStarters(s, s', t, PcOf(s', t));
  }

  lemma ReinviteMoves(s: State, t: Tid, pc: PC, c: Choice)
    requires PcOf(s, t) == pc && pc.Reinviting? && pc.r in s.table.recs
    ensures var s' := StepReinvite(s, t, pc, c);
      StarterMove(s, s', t, PcOf(s', t)) && Starter(PcOf(s', t)).None?
  {
  }

  lemma ReinviteStarters(s: State, t: Tid, pc: PC, c: Choice)
    requires StartersOk(s) && PcOf(s, t) == pc && TouchedBy(s, pc) <= s.table.recs.Keys
    requires pc.Reinviting?
    ensures StartersOk(StepDirection(s, t, pc, c))
  {
    ReinviteMoves(s, t, pc, c);
    var s' := StepReinvite(s, t, pc, c);
    MoveKeepsStarters(s, s', t, PcOf(s', t));
    assert StepDirection(s, t, pc, c) == s';
  }

  lemma DirectionStarters(s: State, t: Tid, pc: PC, c: Choice)
    requires StartersOk(s) && PcOf(s, t) == pc && InDirection(pc) && TouchedBy(s, pc) <= s.table.recs.Keys
    ensures StartersOk(StepDirection(s, t, pc, c))
  {
    match pc
    case Reinviting(_, _, _) => ReinviteStarters(s, t, pc, c);
    case Checking(_, _, _) => CheckStarters(s, t, pc, c);
    case Gating(_, _) => GateStarters(s, t, pc, c);
    case Ungating(_, _) => GateStarters(s, t, pc, c);
    case _ => PinStarters(s, t, pc, c);
  }

  lemma ClaimStarters(s: State, t: Tid, pc: PC, c: Choice)
    requires StartersOk(s) && PcOf(s, t) == pc && TouchedBy(s, pc) <= s.table.recs.Keys
    requires pc.Claiming?
    ensures StartersOk(StepStop(s, t, pc, c))
  {
    var s' := StepStop(s, t, pc, c);
    MoveKeepsStarters(s, s', t, PcOf(s', t));
  }

  lemma DrainStarters(s: State, t: Tid, pc: PC, c: Choice)
    requires StartersOk(s) && PcOf(s, t) == pc && TouchedBy(s, pc) <= s.table.recs.Keys
    requires pc.Draining?
    ensures StartersOk(StepStop(s, t, pc, c))
  {
    DrainKeepsWork(s, t, pc.d);
    MoveKeepsStarters(s, StepDrain(s, t, pc.d), t, PcOf(StepDrain(s, t, pc.d), t));
  }

  lemma DrainKeepsWork(s: State, t: Tid, d: Drain)
    requires PcOf(s, t) == Draining(d) && (d.pending != [] ==> AtKey(s, d.pending[0].0) <= s.table.recs.Keys)
    ensures var s' := StepDrain(s, t, d); StarterMove(s, s', t, PcOf(s', t)) && StarterOk(s', t)
  {
  }

  lemma ScanStarters(s: State, t: Tid, pc: PC, c: Choice)
    requires StartersOk(s) && PcOf(s, t) == pc && TouchedBy(s, pc) <= s.table.recs.Keys
    requires pc.Scanning?
    ensures StartersOk(StepStop(s, t, pc, c))
  {
    var s' := StepStop(s, t, pc, c);
    MoveKeepsStarters(s, s', t, PcOf(s', t));
  }

  lemma HandlerStarters(s: State, t: Tid, pc: PC, c: Choice)
    requires StartersOk(s) && PcOf(s, t) == pc && TouchedBy(s, pc) <= s.table.recs.Keys
    requires pc.HandlerScan?
    ensures StartersOk(StepStop(s, t, pc, c))
  {
    assert StepStop(s, t, pc, c) == StepHandlerScan(s, t, pc.call, pc.start);
    HandlerScanStarters(s, t, pc.call, pc.start);
  }

  lemma HandlerScanStarters(s: State, t: Tid, call: string, start: Option<RecId>)
    requires StartersOk(s) && PcOf(s, t) == HandlerScan(call, start) && s.table.hash.Values <= s.table.recs.Keys
    ensures StartersOk(StepHandlerScan(s, t, call, start))
  {
    var s' := StepHandlerScan(s, t, call, start);
    MoveKeepsStarters(s, s', t, PcOf(s', t));
  }

  lemma UnbindStarters(s: State, t: Tid, pc: PC, c: Choice)
    requires StartersOk(s) && PcOf(s, t) == pc && TouchedBy(s, pc) <= s.table.recs.Keys
    requires pc.HandlerUnbind? || pc.DrainUnbinding?
    ensures StartersOk(StepStop(s, t, pc, c))
  {
    var s' := StepStop(s, t, pc, c);
    MoveKeepsStarters(s, s', t, PcOf(s', t));
  }

  lemma LegEndStarters(s: State, t: Tid, pc: PC, c: Choice)
    requires StartersOk(s) && PcOf(s, t) == pc && TouchedBy(s, pc) <= s.table.recs.Keys
    requires pc.LegEnding?
    ensures StartersOk(StepStop(s, t, pc, c))
  {
    var s' := StepStop(s, t, pc, c);
    MoveKeepsStarters(s, s', t, PcOf(s', t));
  }

  lemma StopStarters(s: State, t: Tid, pc: PC, c: Choice)
    requires StartersOk(s) && PcOf(s, t) == pc && pc != Idle
    requires !InStart(pc) && !InDirection(pc) && !pc.Tearing? && TouchedBy(s, pc) <= s.table.recs.Keys
    ensures StartersOk(StepStop(s, t, pc, c))
  {
    match pc
    case Claiming(_, _) => ClaimStarters(s, t, pc, c);
    case Draining(_) => DrainStarters(s, t, pc, c);
    case Scanning(_) => ScanStarters(s, t, pc, c);
    case HandlerScan(_, _) => HandlerStarters(s, t, pc, c);
    case LegEnding(_, _) => LegEndStarters(s, t, pc, c);
    case _ => UnbindStarters(s, t, pc, c);
  }

  lemma TearStarters(s: State, t: Tid, pc: PC, c: Choice)
    requires Inv(s) && StartersOk(s) && PcOf(s, t) == pc && pc.Tearing? && pc.victim in s.table.recs
    requires !s.table.recs[pc.victim].media.Adding? && Starter(pc) != Some(pc.victim)
    ensures StartersOk(StepTear(s, t, pc.victim, pc.step, pc.next, c))
  {
    var s' := StepTear(s, t, pc.victim, pc.step, pc.next, c);
    OwnedHasNoStarter(s, t, pc.victim);
    TearTouches(s, t, pc, c);
    VictimKeepsStarters(s, s', t, pc);
  }

  lemma VictimKeepsStarters(s: State, s': State, t: Tid, pc: PC)
    requires StartersOk(s) && PcOf(s, t) == pc && pc.Tearing? && Starter(pc) != Some(pc.victim)
    requires SoleStarter(s, t, pc.victim) && TouchesOnly(s, s'.(threads := s.threads), pc.victim)
    requires t in s'.threads && s'.threads == s.threads[t := s'.threads[t]]
    requires s'.threads[t] in {Tearing(pc.victim, DoBye, pc.next), Tearing(pc.victim, DoFree, pc.next), Then(pc.next)}
    ensures StartersOk(s')
  {
    NextStarter(pc, s'.threads[t]);
    if Starter(pc).Some? { SoleIfMine(s, t, Starter(pc).value); }
    assert StarterOk(s, t);
    StartersFollow(s, s', t, PcOf(s', t), {pc.victim});
  }

  /** Tearing down a stale recording is part of the start that goes on to bind its own. */
  lemma NextStarter(pc: PC, next: PC)
    requires pc.Tearing? && next in {Tearing(pc.victim, DoBye, pc.next), Tearing(pc.victim, DoFree, pc.next), Then(pc.next)}
    ensures Starter(next) == Starter(pc)
    ensures forall rec :: StartedTo(pc, rec) ==> StartedTo(next, rec)
  {
  }

  /** A teardown's step touches its victim only. */
  ghost predicate TouchesOnly(s: State, s': State, v: RecId) {
    && s.phase.Keys <= s'.phase.Keys && s'.threads == s.threads
    && (v in s'.table.recs ==> !s'.table.recs[v].media.Adding?)
    && (forall r: RecId :: r in s'.table.recs && r != v ==> r in s.table.recs && s'.table.recs[r] == s.table.recs[r])
  }

  lemma DetachTouches(s: State, v: RecId)
    requires v in s.table.recs && !s.table.recs[v].media.Adding?
    ensures TouchesOnly(s, Detaches(s, v), v)
  {
  }

  lemma ByeTouches(s: State, v: RecId, located: bool)
    requires v in s.table.recs && !s.table.recs[v].media.Adding?
    ensures TouchesOnly(s, Byes(s, v, located), v)
  {
  }

  lemma FreeTouches(s: State, v: RecId)
    requires v in s.table.recs
    ensures TouchesOnly(s, Frees(s, v), v)
  {
  }

  lemma TearTouches(s: State, t: Tid, pc: PC, c: Choice)
    requires pc.Tearing? && pc.victim in s.table.recs && !s.table.recs[pc.victim].media.Adding?
    ensures var s' := StepTear(s, t, pc.victim, pc.step, pc.next, c);
      && TouchesOnly(s, s'.(threads := s.threads), pc.victim)
      && t in s'.threads && s'.threads == s.threads[t := s'.threads[t]]
      && s'.threads[t] in {Tearing(pc.victim, DoBye, pc.next), Tearing(pc.victim, DoFree, pc.next), Then(pc.next)}
  {
    match pc.step
    case DoDetach => DetachTouches(s, pc.victim);
    case DoBye => ByeTouches(s, pc.victim, c.located);
    case DoFree => FreeTouches(s, pc.victim);
  }

  /** A recording being torn down is not being wired, nor is its owner starting it. */
  lemma VictimIsIdle(s: State, t: Tid)
    requires Inv(s) && StartersOk(s) && PcOf(s, t).Tearing?
    ensures var v := PcOf(s, t).victim;
      v in s.table.recs && !s.table.recs[v].media.Adding? && Starter(PcOf(s, t)) != Some(v)
  {
    var v := PcOf(s, t).victim;
    OwnedIsIdle(s, t, v);
    assert AddingOk(s, v);
    if s.table.recs[v].media.Adding? {
      var u: Tid :| PcOf(s, u) == Wiring(v);
      PinnedIsLive(s, u, v);
    }
    if Starter(PcOf(s, t)) == Some(v) {
      assert OwnerOk(s, t);
      PinnedIsLive(s, t, v);
    }
  }

  // ---- every run ----

  ghost predicate Good(s: State) {
    Inv(s) && AllConsistent(s) && StartersOk(s)
  }

  lemma InitGood()
    ensures Good(INIT)
  {
    assert Pins(map[]) == map[] && Owns(map[]) == map[] && Accounts(map[]) == map[];
    assert forall r: RecId :: Monitor([], r) == START;
  }

  lemma TouchesLive(s: State, a: Action)
    requires Good(s) && Enabled(s, a)
    ensures Touched(s, a) <= s.table.recs.Keys
  {
    match a
    case Run(t, _) => ThreadTouchesLive(s, t);
    case Tick(r) => assert Consistent(ViewOf(s, r), Monitor(s.log, r));
    case TickSend(r) => assert Consistent(ViewOf(s, r), Monitor(s.log, r));
    case TickDone(r) => assert Consistent(ViewOf(s, r), Monitor(s.log, r));
    case CoreClose(r) => assert Consistent(ViewOf(s, r), Monitor(s.log, r));
    case _ =>
  }

  lemma StepGood(s: State, t: Tid, c: Choice)
    requires Good(s) && Enabled(s, Run(t, c)) && TouchedBy(s, PcOf(s, t)) <= s.table.recs.Keys
    ensures AllConsistent(Step(s, t, c)) && StartersOk(Step(s, t, c))
  {
    var pc := PcOf(s, t);
    if InStart(pc) { StartSeen(s, t, pc, c); StartStarters(s, t, pc, c); }
    else if InDirection(pc) { DirectionSeen(s, t, pc, c); DirectionStarters(s, t, pc, c); }
    else if pc.Tearing? {
      VictimIsIdle(s, t);
      assert OwnerOk(s, t);
      TearSeen(s, t, pc, c);
      TearStarters(s, t, pc, c);
    }
    else { StopSeen(s, t, pc, c); StopStarters(s, t, pc, c); }
  }

  lemma ApplyGood(s: State, a: Action)
    requires Good(s)
    ensures Good(Apply(s, a))
  {
    if Enabled(s, a) {
      TouchesLive(s, a);
      EffectKeeps(s, a);
      if a.Run? { StepGood(s, a.t, a.c); }
      else if a.Tick? || a.TickSend? || a.TickDone? || a.CoreClose? { MediaSeen(s, a); MediaKeepsStarters(s, a); }
      else { BeginSeen(s, a); BeginKeepsStarters(s, a); }
    }
  }

  lemma {:induction false} RunsAreGood(acts: seq<Action>)
    ensures Good(Exec(acts))
  {
    if acts == [] { InitGood(); } else {
      RunsAreGood(acts[..|acts| - 1]);
      ApplyGood(Exec(acts[..|acts| - 1]), acts[|acts| - 1]);
    }
  }
}
