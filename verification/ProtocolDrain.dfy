/** What drain_recordings guarantees on return while starts go on inserting. */
module ProtocolDrain {
  import opened Common
  import opened RecordingTable
  import opened RecordingProtocol
  import opened ProtocolOwnership
  import opened ProtocolMonitor
  import opened ProtocolWatch
  import opened ProtocolRuns
  import opened ProtocolOutcomes

  /** The drain a thread is in the middle of. */
  ghost function DrainOf(pc: PC): Option<Drain> {
    match pc
    case Draining(d) => Some(d)
    case DrainUnbinding(d, _) => Some(d)
    case Tearing(_, _, ToDrain(d)) => Some(d)
    case Tearing(_, _, ToDrainUnbind(d, _)) => Some(d)
    case _ => None
  }

  ghost predicate KeyPending(d: Drain, key: string) {
    exists i :: 0 <= i < |d.pending| && d.pending[i].0 == key
  }

  /** A recording the scan saw has been in the hash, and if it still is, its key is still to be claimed. */
  ghost predicate SeenOk(s: State, d: Drain, r: RecId) {
    r in d.seen ==>
      && Rank(PhaseOf(s, r)) >= 2
      && (PhaseOf(s, r) == InHash ==> r in s.table.recs && KeyPending(d, s.table.recs[r].key))
  }

  /** After a short scan, a matching recording is one the scan saw or one inserted since. */
  ghost predicate NewOk(s: State, d: Drain, r: RecId) {
    d.scanAt <= |s.log|
    && (d.lastScan && r in s.table.recs && PhaseOf(s, r) == InHash && Matches(s.table.recs[r], d.call) && r !in d.seen
        ==> Insert(r) in s.log[d.scanAt..])
  }

  ghost predicate DrainOk(s: State, pc: PC) {
    DrainOf(pc).Some? ==> forall r: RecId :: SeenOk(s, DrainOf(pc).value, r) && NewOk(s, DrainOf(pc).value, r)
  }

  ghost predicate DrainsOk(s: State) { forall t: Tid :: DrainOk(s, PcOf(s, t)) }

  /** A recording never changes its key or its call. */
  ghost predicate NamesKept(s: State, s': State) {
    forall r :: r in s.table.recs && r in s'.table.recs ==>
      s'.table.recs[r].key == s.table.recs[r].key && s'.table.recs[r].uuid == s.table.recs[r].uuid
  }

  /** ... and none is new. */
  ghost predicate SameNames(s: State, s': State) {
    forall r :: r in s'.table.recs ==>
      r in s.table.recs
      && s'.table.recs[r].key == s.table.recs[r].key && s'.table.recs[r].uuid == s.table.recs[r].uuid
  }

  lemma StartNames(s: State, t: Tid, pc: PC, c: Choice)
    requires InStart(pc) && TouchedBy(s, pc) <= s.table.recs.Keys
    ensures SameNames(s, StepStart(s, t, pc, c))
  {
    match pc
    case Allocated(r) => InsertNames(s, t, r);
    case Inviting(r) => InviteNames(s, t, r, c);
    case Attaching(r) => AttachNames(s, t, r, c);
    case Wiring(r) => WireNames(s, t, r);
    case Discarding(r) => DiscardNames(s, t, r);
    case Finishing(r) => ReleaseNames(s, t, r, Idle, ToStopped(r));
    case Dropping(r, call) => ReleaseNames(s, t, r, HandlerScan(call, Some(r)), ToScan(call, Some(r)));
    case _ =>
  }

  lemma InviteNames(s: State, t: Tid, r: RecId, c: Choice)
    requires r in s.table.recs
    ensures SameNames(s, StepInvite(s, t, r, c))
  {
  }

  lemma AttachNames(s: State, t: Tid, r: RecId, c: Choice)
    requires r in s.table.recs
    ensures SameNames(s, StepAttach(s, t, r, c))
  {
  }

  lemma WireNames(s: State, t: Tid, r: RecId)
    requires r in s.table.recs
    ensures SameNames(s, StepWire(s, t, r))
  {
  }

  lemma DiscardNames(s: State, t: Tid, r: RecId)
    requires r in s.table.recs
    ensures SameNames(s, StepDiscard(s, t, r))
  {
  }

  lemma ReleaseNames(s: State, t: Tid, r: RecId, kept: PC, next: After)
    requires r in s.table.recs
    ensures SameNames(s, Releases(s, t, r, kept, next))
  {
  }

  lemma InsertNames(s: State, t: Tid, r: RecId)
    requires r in s.table.recs && AtKey(s, s.table.recs[r].key) <= s.table.recs.Keys
    ensures SameNames(s, StepInsert(s, t, r))
  {
  }

  lemma DirectionNames(s: State, t: Tid, pc: PC, c: Choice)
    requires InDirection(pc) && TouchedBy(s, pc) <= s.table.recs.Keys
    ensures SameNames(s, StepDirection(s, t, pc, c))
  {
    match pc
    case Acquiring(_, _, _) => AcquireNames(s, t, pc);
    case Reinviting(_, _, _) => ReinviteNames(s, t, pc, c);
    case Releasing(r, _) => ReleaseNames(s, t, r, Idle, ToIdle);
    case _ =>
  }

  lemma AcquireNames(s: State, t: Tid, pc: PC)
    requires pc.Acquiring? && AtKey(s, pc.key) <= s.table.recs.Keys
    ensures SameNames(s, StepAcquire(s, t, pc))
  {
  }

  lemma ReinviteNames(s: State, t: Tid, pc: PC, c: Choice)
    requires pc.Reinviting? && pc.r in s.table.recs
    ensures SameNames(s, StepReinvite(s, t, pc, c))
  {
  }

  lemma StopNames(s: State, t: Tid, pc: PC, c: Choice)
    requires !InStart(pc) && !InDirection(pc) && !pc.Tearing? && TouchedBy(s, pc) <= s.table.recs.Keys
    ensures SameNames(s, StepStop(s, t, pc, c))
  {
    match pc
    case Draining(d) => DrainNames(s, t, d);
    case Claiming(key, call) => ClaimNames(s, key);
    case LegEnding(key, leg) => MarkNames(s, t, key, leg);
    case HandlerScan(call, start) => assert StepStop(s, t, pc, c).table == s.table;
    case HandlerUnbind(call, start) => assert StepStop(s, t, pc, c).table == s.table;
    case _ =>
  }

  lemma ClaimNames(s: State, key: string)
    requires AtKey(s, key) <= s.table.recs.Keys
    ensures SameNames(s, Claims(s, key))
  {
  }

  lemma MarkNames(s: State, t: Tid, key: string, leg: string)
    requires AtKey(s, key) <= s.table.recs.Keys
    ensures SameNames(s, StepLegEnd(s, t, key, leg))
  {
  }

  lemma DrainNames(s: State, t: Tid, d: Drain)
    requires d.pending != [] ==> AtKey(s, d.pending[0].0) <= s.table.recs.Keys
    ensures SameNames(s, StepDrain(s, t, d))
  {
    if d.pending != [] { ClaimNames(s, d.pending[0].0); }
  }

  lemma StepNames(s: State, t: Tid, c: Choice)
    requires TouchedBy(s, PcOf(s, t)) <= s.table.recs.Keys
    ensures SameNames(s, Step(s, t, c))
  {
    var pc := PcOf(s, t);
    if InStart(pc) { StartNames(s, t, pc, c); }
    else if InDirection(pc) { DirectionNames(s, t, pc, c); }
    else if pc.Tearing? { TearNames(s, t, pc, c); }
    else { StopNames(s, t, pc, c); }
  }

  lemma TearNames(s: State, t: Tid, pc: PC, c: Choice)
    requires pc.Tearing? && pc.victim in s.table.recs
    ensures SameNames(s, StepTear(s, t, pc.victim, pc.step, pc.next, c))
  {
    match pc.step
    case DoDetach => DetachNames(s, pc.victim);
    case DoBye => ByeNames(s, pc.victim, c.located);
    case DoFree =>
  }

  lemma DetachNames(s: State, v: RecId)
    requires v in s.table.recs
    ensures SameNames(s, Detaches(s, v))
  {
  }

  lemma ByeNames(s: State, v: RecId, located: bool)
    requires v in s.table.recs
    ensures SameNames(s, Byes(s, v, located))
  {
  }

  lemma EffectNames(s: State, a: Action)
    requires Touched(s, a) <= s.table.recs.Keys && (a.BeginStart? ==> a.r !in s.table.recs)
    ensures NamesKept(s, Effect(s, a))
    ensures !a.BeginStart? ==> SameNames(s, Effect(s, a))
  {
    if a.Run? { StepNames(s, a.t, a.c); }
    else if a.Tick? || a.CoreClose? { CloseNames(s, a.r); }
  }

  lemma CloseNames(s: State, r: RecId)
    requires r in s.table.recs
    ensures SameNames(s, Closing(s, r))
  {
  }

  /** What became hashed between two logs was inserted between them. */
  lemma {:induction false} InsertedSince(log: seq<Event>, more: seq<Event>, r: RecId)
    requires log <= more && Monitor(more, r).Mon? && Monitor(more, r).phase == InHash
    requires Monitor(log, r).Mon? && Monitor(log, r).phase != InHash
    ensures Insert(r) in more[|log|..]
  {
    var init, e := more[..|more| - 1], more[|more| - 1];
    assert |log| == |more| ==> log == more;
    if e != Insert(r) {
      assert log <= init;
      InsertedSince(log, init, r);
      assert more[|log|..] == init[|log|..] + [e];
    } else {
      assert more[|log|..][|more| - 1 - |log|] == e;
    }
  }

  /** What carries a drain's knowledge of `r` over a step. */
  ghost predicate Carries(s: State, s': State, r: RecId) {
    && s.log <= s'.log && Rank(PhaseOf(s, r)) <= Rank(PhaseOf(s', r))
    && (PhaseOf(s, r) == InHash ==> r in s.table.recs)
    && (PhaseOf(s', r) == InHash ==> r in s'.table.recs)
    && (r in s.table.recs && r in s'.table.recs ==>
          s'.table.recs[r].key == s.table.recs[r].key && s'.table.recs[r].uuid == s.table.recs[r].uuid)
    && (PhaseOf(s', r) == InHash && PhaseOf(s, r) != InHash ==> Insert(r) in s'.log[|s.log|..])
  }

  lemma StepCarries(s: State, a: Action, r: RecId)
    requires Good(s) && Enabled(s, a) && Touched(s, a) <= s.table.recs.Keys
    ensures Carries(s, Effect(s, a), r)
  {
    var s' := Effect(s, a);
    ApplyGood(s, a);
    RankGrows(s, a, r);
    EffectGrows(s, a);
    assert PhaseOk(s, r) && PhaseOk(s', r);
    if a.BeginStart? { assert PhaseOk(s, a.r); }
    EffectNames(s, a);
    if PhaseOf(s', r) == InHash && PhaseOf(s, r) != InHash {
      assert Consistent(ViewOf(s, r), Monitor(s.log, r)) && Consistent(ViewOf(s', r), Monitor(s'.log, r));
      InsertedSince(s.log, s'.log, r);
    }
  }

  /** A step keeps what a drain knows, for a drain whose pending keys are as they were. */
  lemma DrainStays(s: State, s': State, d: Drain, r: RecId)
    requires Carries(s, s', r) && SeenOk(s, d, r) && NewOk(s, d, r)
    ensures SeenOk(s', d, r) && NewOk(s', d, r)
  {
    assert s'.log[d.scanAt..] == s.log[d.scanAt..] + s'.log[|s.log|..];
  }

  /** A drain claims its next key: a seen recording that is still hashed has a later key. */
  lemma DrainAdvances(s: State, s': State, d: Drain, r: RecId)
    requires Carries(s, s', r) && SeenOk(s, d, r) && NewOk(s, d, r) && d.pending != []
    requires r in s.table.recs && PhaseOf(s, r) == InHash && s.table.recs[r].key == d.pending[0].0 ==> PhaseOf(s', r) != InHash
    ensures var d' := d.(pending := d.pending[1..]); SeenOk(s', d', r) && NewOk(s', d', r)
  {
    var d' := d.(pending := d.pending[1..]);
    DrainStays(s, s', d, r);
    if r in d.seen && PhaseOf(s', r) == InHash {
      var key := s.table.recs[r].key;
      var i :| 0 <= i < |d.pending| && d.pending[i].0 == key;
      assert d'.pending[i - 1].0 == key;
    }
  }

  lemma ScanKnows(s: State, t: Tid, d: Drain, batch: seq<string>, r: RecId)
    requires Inv(s) && s.table.hash.Values <= s.table.recs.Keys && NoDangling(s.table) && ValidBatch(s.table, d.call, batch)
    ensures var s' := StepScan(s, t, d, batch); var d' := PcOf(s', t).d;
      && SeenOk(s', d', r) && NewOk(s', d', r)
      && (d'.lastScan ==> d'.seen == set k | k in MatchingKeys(s.table, d.call) :: s.table.hash[k])
  {
    var s' := StepScan(s, t, d, batch);
    var d' := PcOf(s', t).d;
    assert PhaseOk(s, r);
    HashKeys(s);
    if r in d'.seen {
      var k :| k in batch && k in s.table.hash && s.table.hash[k] == r;
      assert Hashed(s.table, r);
      var i :| 0 <= i < |batch| && batch[i] == k;
      assert d'.pending[i].0 == k;
    }
    if d'.lastScan {
      assert forall k :: k in batch <==> k in MatchingKeys(s.table, d.call);
      if r in s.table.recs && PhaseOf(s, r) == InHash && Matches(s.table.recs[r], d.call) {
        assert s.table.recs[r].key in MatchingKeys(s.table, d.call);
      }
    }
  }

  lemma DrainStepOk(s: State, t: Tid, c: Choice, d: Drain, r: RecId)
    requires Good(s) && Enabled(s, Run(t, c)) && PcOf(s, t) == Draining(d) && TouchedBy(s, PcOf(s, t)) <= s.table.recs.Keys
    requires SeenOk(s, d, r) && NewOk(s, d, r) && d.pending != []
    ensures var s' := StepDrain(s, t, d); var d' := d.(pending := d.pending[1..]);
      DrainOf(PcOf(s', t)) == Some(d') && SeenOk(s', d', r) && NewOk(s', d', r)
  {
    StepCarries(s, Run(t, c), r);
    assert Effect(s, Run(t, c)) == StepDrain(s, t, d);
    assert PhaseOk(s, r);
    NextKeyLeaves(s, t, d, r);
    DrainAdvances(s, StepDrain(s, t, d), d, r);
  }

  /** Draining's next step: the rest of the keys are left, and what was hashed under the first no longer is. */
  lemma NextKeyLeaves(s: State, t: Tid, d: Drain, r: RecId)
    requires d.pending != [] && AtKey(s, d.pending[0].0) <= s.table.recs.Keys
    requires PhaseOf(s, r) == InHash ==> Hashed(s.table, r)
    ensures DrainOf(PcOf(StepDrain(s, t, d), t)) == Some(d.(pending := d.pending[1..]))
    ensures r in s.table.recs && PhaseOf(s, r) == InHash && s.table.recs[r].key == d.pending[0].0
      ==> PhaseOf(StepDrain(s, t, d), r) != InHash
  {
  }

  /** Where a thread's own step leaves the drain it runs. */
  lemma OwnStepOk(s: State, t: Tid, c: Choice)
    requires Good(s) && Enabled(s, Run(t, c)) && TouchedBy(s, PcOf(s, t)) <= s.table.recs.Keys && DrainOk(s, PcOf(s, t))
    ensures DrainOk(Step(s, t, c), PcOf(Step(s, t, c), t))
  {
    var pc, s' := PcOf(s, t), Step(s, t, c);
    if InStart(pc) { StartsNoDrain(s, t, pc, c); }
    else if InDirection(pc) { DirectionsNoDrain(s, t, pc, c); }
    else if pc.Scanning? { ScanStepOk(s, t, c, pc.d); }
    else if pc.Draining? && pc.d.pending != [] { ClaimStepOk(s, t, c, pc.d); }
    else if DrainOf(PcOf(s', t)).Some? {
      SameDrain(s, t, c);
      var d := DrainOf(pc).value;
      forall r: RecId ensures SeenOk(s', d, r) && NewOk(s', d, r) {
        assert SeenOk(s, d, r);
        StepCarries(s, Run(t, c), r);
        assert Effect(s, Run(t, c)) == s';
        DrainStays(s, s', d, r);
      }
    }
  }

  lemma ScanStepOk(s: State, t: Tid, c: Choice, d: Drain)
    requires Good(s) && Enabled(s, Run(t, c)) && PcOf(s, t) == Scanning(d) && s.table.hash.Values <= s.table.recs.Keys
    ensures DrainOk(StepScan(s, t, d, c.batch), PcOf(StepScan(s, t, d, c.batch), t))
  {
    var s' := StepScan(s, t, d, c.batch);
    HashKeys(s);
    forall r: RecId ensures SeenOk(s', PcOf(s', t).d, r) && NewOk(s', PcOf(s', t).d, r) { ScanKnows(s, t, d, c.batch, r); }
  }

  lemma ClaimStepOk(s: State, t: Tid, c: Choice, d: Drain)
    requires Good(s) && Enabled(s, Run(t, c)) && PcOf(s, t) == Draining(d) && TouchedBy(s, PcOf(s, t)) <= s.table.recs.Keys
    requires DrainOk(s, PcOf(s, t)) && d.pending != []
    ensures DrainOk(StepDrain(s, t, d), PcOf(StepDrain(s, t, d), t))
  {
    var s' := StepDrain(s, t, d);
    assert DrainOf(PcOf(s, t)) == Some(d);
    forall r: RecId
      ensures var d' := d.(pending := d.pending[1..]);
        DrainOf(PcOf(s', t)) == Some(d') && SeenOk(s', d', r) && NewOk(s', d', r)
    {
      assert SeenOk(s, d, r);
      DrainStepOk(s, t, c, d, r);
    }
  }

  lemma StartsNoDrain(s: State, t: Tid, pc: PC, c: Choice)
    requires InStart(pc) && TouchedBy(s, pc) <= s.table.recs.Keys
    ensures DrainOf(PcOf(StepStart(s, t, pc, c), t)) == None
  {
  }

  lemma DirectionsNoDrain(s: State, t: Tid, pc: PC, c: Choice)
    requires InDirection(pc) && TouchedBy(s, pc) <= s.table.recs.Keys
    ensures DrainOf(PcOf(StepDirection(s, t, pc, c), t)) == None
  {
  }

  lemma SameDrain(s: State, t: Tid, c: Choice)
    requires TouchedBy(s, PcOf(s, t)) <= s.table.recs.Keys && PcOf(s, t) != Idle
    requires var pc := PcOf(s, t);
      !InStart(pc) && !InDirection(pc) && !pc.Scanning? && (pc.Draining? ==> pc.d.pending == [])
    requires DrainOf(PcOf(Step(s, t, c), t)).Some?
    ensures DrainOf(PcOf(Step(s, t, c), t)) == DrainOf(PcOf(s, t))
  {
  }

  lemma EffectDrains(s: State, a: Action)
    requires Good(s) && DrainsOk(s) && Enabled(s, a) && Touched(s, a) <= s.table.recs.Keys
    ensures DrainsOk(Effect(s, a))
  {
    var s' := Effect(s, a);
    forall u: Tid ensures DrainOk(s', PcOf(s', u)) {
      assert DrainOk(s, PcOf(s, u));
      if a.Run? && a.t == u { OwnStepOk(s, u, a.c); }
      else if (a.BeginStart? || a.BeginDirection? || a.BeginStop? || a.BeginDrain? || a.BeginLegEnd?) && a.t == u { }
      else {
        OthersStand(s, a, u);
        OtherDrain(s, a, PcOf(s, u));
      }
    }
  }

  lemma OtherDrain(s: State, a: Action, pc: PC)
    requires Good(s) && DrainOk(s, pc) && Enabled(s, a) && Touched(s, a) <= s.table.recs.Keys
    ensures DrainOk(Effect(s, a), pc)
  {
    if DrainOf(pc).Some? {
      forall r: RecId ensures SeenOk(Effect(s, a), DrainOf(pc).value, r) && NewOk(Effect(s, a), DrainOf(pc).value, r) {
        assert SeenOk(s, DrainOf(pc).value, r);
        StepCarries(s, a, r);
        DrainStays(s, Effect(s, a), DrainOf(pc).value, r);
      }
    }
  }

  lemma {:induction false} RunsDrainOk(acts: seq<Action>)
    ensures DrainsOk(Exec(acts))
  {
    if acts != [] {
      var s, a := Exec(acts[..|acts| - 1]), acts[|acts| - 1];
      RunsDrainOk(acts[..|acts| - 1]);
      RunsAreGood(acts[..|acts| - 1]);
      if Enabled(s, a) && Touched(s, a) <= s.table.recs.Keys { EffectDrains(s, a); }
    }
  }

  /** The last scan sees every recording that matches. */
  lemma LastScanSeesAll(acts: seq<Action>, t: Tid, c: Choice, d: Drain)
    requires PcOf(Exec(acts), t) == Scanning(d) && Enabled(Exec(acts), Run(t, c)) && |c.batch| < DRAIN_BATCH
    ensures var s := Exec(acts); var s' := Apply(s, Run(t, c));
      && NoDangling(s.table) && PcOf(s', t).Draining? && PcOf(s', t).d.lastScan && PcOf(s', t).d.scanAt == |s.log|
      && PcOf(s', t).d.seen == set k | k in MatchingKeys(s.table, d.call) :: s.table.hash[k]
  {
    RunsAreGood(acts);
    HashKeys(Exec(acts));
    TouchesLive(Exec(acts), Run(t, c));
    ScanKnows(Exec(acts), t, d, c.batch, 0);
  }

  lemma {:induction false} LastScanWas(acts: seq<Action>, t: Tid, d: Drain) returns (m: nat)
    requires DrainOf(PcOf(Exec(acts), t)) == Some(d) && d.lastScan
    ensures ScannedAt(acts, m, t, d)
  {
    var init, a := acts[..|acts| - 1], acts[|acts| - 1];
    if ScansNow(Exec(init), a, t) {
      m := |init|;
      LastScanSeesAll(init, t, a.c, PcOf(Exec(init), t).d);
    } else {
      var d' := DrainBefore(init, a, t, d);
      m := LastScanWas(init, t, d');
      assert init[..m] == acts[..m];
    }
  }

  ghost predicate ScansNow(s: State, a: Action, t: Tid) {
    a.Run? && a.t == t && PcOf(s, t).Scanning? && Enabled(s, a) && Touched(s, a) <= s.table.recs.Keys
  }

  /** Any other step leaves what a thread's last scan found. */
  lemma DrainBefore(init: seq<Action>, a: Action, t: Tid, d: Drain) returns (d': Drain)
    requires DrainOf(PcOf(Apply(Exec(init), a), t)) == Some(d) && !ScansNow(Exec(init), a, t)
    ensures DrainOf(PcOf(Exec(init), t)) == Some(d')
    ensures d'.call == d.call && d'.lastScan == d.lastScan && d'.seen == d.seen && d'.scanAt == d.scanAt
  {
    var s := Exec(init);
    if Enabled(s, a) && Touched(s, a) <= s.table.recs.Keys {
      if a.Run? && a.t == t { d' := OwnDrainBefore(s, t, a.c, d); }
      else {
        if !((a.BeginStart? || a.BeginDirection? || a.BeginStop? || a.BeginDrain? || a.BeginLegEnd?) && a.t == t) {
          OthersStand(s, a, t);
        }
        d' := d;
      }
    } else { d' := d; }
  }

  lemma OwnDrainBefore(s: State, t: Tid, c: Choice, d: Drain) returns (d': Drain)
    requires Enabled(s, Run(t, c)) && TouchedBy(s, PcOf(s, t)) <= s.table.recs.Keys && !PcOf(s, t).Scanning?
    requires DrainOf(PcOf(Step(s, t, c), t)) == Some(d)
    ensures DrainOf(PcOf(s, t)) == Some(d')
    ensures d'.call == d.call && d'.lastScan == d.lastScan && d'.seen == d.seen && d'.scanAt == d.scanAt
  {
    var pc := PcOf(s, t);
    if InStart(pc) { StartsNoDrain(s, t, pc, c); }
    else if InDirection(pc) { DirectionsNoDrain(s, t, pc, c); }
    else if pc.Draining? && pc.d.pending != [] {
      d' := pc.d;
      NextDrain(s, t, pc.d);
    } else {
      SameDrain(s, t, c);
      d' := d;
    }
  }

  lemma NextDrain(s: State, t: Tid, d: Drain)
    requires d.pending != [] && AtKey(s, d.pending[0].0) <= s.table.recs.Keys
    ensures DrainOf(PcOf(StepDrain(s, t, d), t)) == Some(d.(pending := d.pending[1..]))
  {
  }

  /** Action `m` of the run was the scan whose find the drain still works on: it saw every recording of the call that was
    * hashed at that moment. */
  ghost predicate ScannedAt(acts: seq<Action>, m: nat, t: Tid, d: Drain) {
    && m < |acts| && acts[m].Run? && acts[m].t == t
    && var s := Exec(acts[..m]);
       && PcOf(s, t).Scanning? && d.scanAt == |s.log| && NoDangling(s.table)
       && d.seen == set k | k in MatchingKeys(s.table, d.call) :: s.table.hash[k]
  }

  /** When a drain returns, every recording of its call that was hashed at its last scan, a moment of the run, is out of the
    * hash, and any that is in it was inserted after that scan. */
  lemma DrainReturnsComplete(acts: seq<Action>, t: Tid, d: Drain) returns (m: nat)
    requires PcOf(Exec(acts), t) == Draining(d) && d.pending == [] && d.lastScan
    ensures ScannedAt(acts, m, t, d)
    ensures forall r: RecId {:trigger Hashed(Exec(acts).table, r)} ::
      Hashed(Exec(acts[..m]).table, r) && Matches(Exec(acts[..m]).table.recs[r], d.call) ==> !Hashed(Exec(acts).table, r)
    ensures d.scanAt <= |Exec(acts).log|
    ensures forall r: RecId :: Hashed(Exec(acts).table, r) && Matches(Exec(acts).table.recs[r], d.call) ==>
      Insert(r) in Exec(acts).log[d.scanAt..]
  {
    RunsDrainOk(acts);
    RunsAreGood(acts);
    m := LastScanWas(acts, t, d);
    PrefixLogged(acts, m);
    var was := Exec(acts[..m]);
    forall r: RecId ensures Hashed(was.table, r) && Matches(was.table.recs[r], d.call) ==> r in d.seen {
      if Hashed(was.table, r) && Matches(was.table.recs[r], d.call) {
        assert was.table.recs[r].key in MatchingKeys(was.table, d.call);
      }
    }
    forall r: RecId
      ensures r in d.seen ==> !Hashed(Exec(acts).table, r)
      ensures Hashed(Exec(acts).table, r) && Matches(Exec(acts).table.recs[r], d.call) ==> Insert(r) in Exec(acts).log[d.scanAt..]
    {
      DrainedAll(Exec(acts), t, d, r);
    }
  }

  lemma DrainedAll(s: State, t: Tid, d: Drain, r: RecId)
    requires DrainsOk(s) && Inv(s) && PcOf(s, t) == Draining(d) && d.pending == [] && d.lastScan
    ensures r in d.seen ==> !Hashed(s.table, r)
    ensures Hashed(s.table, r) && Matches(s.table.recs[r], d.call) ==> d.scanAt <= |s.log| && Insert(r) in s.log[d.scanAt..]
  {
    assert DrainOk(s, PcOf(s, t)) && DrainOf(PcOf(s, t)) == Some(d);
    assert SeenOk(s, d, r) && NewOk(s, d, r) && PhaseOk(s, r);
    if r in s.table.recs { assert !KeyPending(d, s.table.recs[r].key); }
  }

  /** A recording inserted and not unhashed since is in the hash, and conversely. */
  lemma {:induction false} InsertedNotUnhashed(log: seq<Event>, r: RecId)
    requires Monitor(log, r).Mon? && Insert(r) in log && Unhash(r) !in log
    ensures Monitor(log, r).phase == InHash
  {
    var init, e := log[..|log| - 1], log[|log| - 1];
    assert log == init + [e];
    if e != Insert(r) { InsertedNotUnhashed(init, r); }
  }

  lemma HashedNotUnhashed(log: seq<Event>, r: RecId)
    requires Monitor(log, r).Mon? && Monitor(log, r).phase == InHash
    ensures Unhash(r) !in log
  {
    if i :| 0 <= i < |log| && log[i] == Unhash(r) { PhaseAfter(log, r, i); }
  }

  lemma HashedIsNotOut(s: State, r: RecId)
    requires Good(s) && Hashed(s.table, r)
    ensures Unhash(r) !in s.log
  {
    assert Consistent(ViewOf(s, r), Monitor(s.log, r)) && PhaseOk(s, r);
    HashedNotUnhashed(s.log, r);
  }

  /** An unload whose last scan runs before a start's insert: it returns with that recording in the hash,
    * although siprec_teardown_all_recordings promises an empty one. */
  lemma UnloadCanLeaveOne() returns (acts: seq<Action>)
    ensures Drained(0) in Exec(acts).log && PcOf(Exec(acts), 0) == Idle
    ensures Hashed(Exec(acts).table, 7)
  {
    var c := Choice(true, true, "", []);
    var d := Drain(None, true, false, true, {}, 0, []);
    acts := ScannedEmpty(c, d);
    var s := Exec(acts);
    assert Enabled(s, BeginStart(1, 7, "h", "u"));
    ExecSnoc(acts, BeginStart(1, 7, "h", "u"));
    acts := acts + [BeginStart(1, 7, "h", "u")];
    InsertInto(Exec(acts), c, d);
    ExecSnoc(acts, Run(1, c));
    acts := acts + [Run(1, c)];
    DrainEnds(Exec(acts), c, d);
    ExecSnoc(acts, Run(0, c));
    acts := acts + [Run(0, c)];
  }

  /** Thread 0 has begun an unload and scanned the still empty hash. */
  lemma ScannedEmpty(c: Choice, d: Drain) returns (acts: seq<Action>)
    requires d == Drain(None, true, false, true, {}, 0, []) && c.batch == []
    ensures Exec(acts) == Go(INIT, 0, Draining(d))
  {
    var d0 := Drain(None, true, false, false, {}, 0, []);
    var s := Go(INIT, 0, Scanning(d0));
    ExecSnoc([], BeginDrain(0, None, true, false));
    acts := [] + [BeginDrain(0, None, true, false)];
    assert Exec(acts) == s;
    assert MatchingKeys(s.table, None) == {};
    ExecSnoc(acts, Run(0, c));
    acts := acts + [Run(0, c)];
    assert PcOf(StepScan(s, 0, d0, []), 0).d.pending == [];
    assert PcOf(StepScan(s, 0, d0, []), 0).d.seen == {};
    assert Exec(acts) == StepScan(s, 0, d0, []);
  }

  lemma InsertInto(s: State, c: Choice, d: Drain)
    requires PcOf(s, 1) == Allocated(7) && PcOf(s, 0) == Draining(d) && 7 in s.table.recs && s.table.hash == map[]
    ensures var s' := Apply(s, Run(1, c)); Hashed(s'.table, 7) && PcOf(s', 0) == Draining(d)
  {
    assert Step(s, 1, c) == StepInsert(s, 1, 7);
  }

  lemma DrainEnds(s: State, c: Choice, d: Drain)
    requires PcOf(s, 0) == Draining(d) && d == Drain(None, true, false, true, {}, 0, [])
    ensures var s' := Apply(s, Run(0, c)); PcOf(s', 0) == Idle && s'.table == s.table && Drained(0) in s'.log
  {
    assert Step(s, 0, c) == StepDrain(s, 0, d);
  }
}
