/** Pause is a gate: once a pause found the fork attached, no media tick begins
  * until a resume that began afterwards passed the src-enabled check and got its
  * re-INVITE answered. Pauses and resumes of one call are taken to run one after
  * the other; starts, stops, hangups, leg-ends and unloads interleave freely. */
module ProtocolGate {
  import opened Common
  import opened RecordingKey
  import opened RecordingTable
  import opened RecordingProtocol
  import opened ProtocolOwnership
  import opened ProtocolMonitor
  import opened ProtocolWatch
  import opened ProtocolRuns
  import opened ProtocolSteps
  import opened ProtocolOutcomes
  import opened ProtocolDrain

  // ---- what an accepted log says about gates, in any interleaving ----

  /** Between a gate and a later tick there is an ungate. */
  lemma {:induction false} GateHolds(log: seq<Event>, r: RecId, i: nat, j: nat) returns (k: nat)
    requires Monitor(log, r).Mon? && i < j < |log| && log[i].Gate? && log[i].r == r && log[j] == TickBegin(r)
    ensures i < k < j && log[k].Ungate? && log[k].r == r
  {
    MonitorPrefix(log, r, j);
    MonitorSnoc(log[..j], log[j], r);
    assert log[..j + 1] == log[..j] + [log[j]];
    MonitorPrefix(log, r, j + 1);
    k := OpenedSince(log[..j], r, i);
  }

  lemma {:induction false} MonitorPrefix(log: seq<Event>, r: RecId, n: nat)
    requires Monitor(log, r).Mon? && n <= |log|
    ensures Monitor(log[..n], r).Mon?
  {
    AcceptedPrefix(log, r, n);
  }

  /** An open fork that was gated at `i` was ungated since. */
  lemma {:induction false} OpenedSince(log: seq<Event>, r: RecId, i: nat) returns (k: nat)
    requires Monitor(log, r).Mon? && i < |log| && log[i].Gate? && log[i].r == r && Monitor(log, r).line == Open
    ensures i < k < |log| && log[k].Ungate? && log[k].r == r
  {
    var init, e := log[..|log| - 1], log[|log| - 1];
    if e.Ungate? && e.r == r { k := |log| - 1; }
    else {
      assert i < |init|;
      if Monitor(init, r).line == NoFork { GatedHasFork(init, r, i); }
      k := OpenedSince(init, r, i);
    }
  }

  lemma {:induction false} GatedHasFork(log: seq<Event>, r: RecId, i: nat)
    requires Monitor(log, r).Mon? && i < |log| && log[i].Gate? && log[i].r == r
    ensures Monitor(log, r).line != NoFork
  {
    if i < |log| - 1 { GatedHasFork(log[..|log| - 1], r, i); }
  }

  /** Every packet belongs to a tick: it began earlier and had not ended. */
  lemma {:induction false} PacketHasTick(log: seq<Event>, r: RecId, j: nat) returns (b: nat)
    requires Monitor(log, r).Mon? && j < |log| && log[j] == Send(r)
    ensures b < j && log[b] == TickBegin(r) && forall e :: b < e < j ==> log[e] != TickEnd(r)
  {
    MonitorPrefix(log, r, j + 1);
    assert log[..j + 1] == log[..j] + [log[j]];
    MonitorSnoc(log[..j], log[j], r);
    b := TickingSince(log[..j], r);
  }

  lemma {:induction false} TickingSince(log: seq<Event>, r: RecId) returns (b: nat)
    requires Monitor(log, r).Mon? && Monitor(log, r).ticking
    ensures b < |log| && log[b] == TickBegin(r) && forall e :: b < e < |log| ==> log[e] != TickEnd(r)
  {
    if log[|log| - 1] == TickBegin(r) { b := |log| - 1; } else { b := TickingSince(log[..|log| - 1], r); }
  }

  // ---- runs in which one call's pauses and resumes do not overlap ----

  /** The call a pause or resume at `pc` works for. */
  ghost function DirectionCall(pc: PC): Option<string> {
    match pc
    case Acquiring(_, call, _) => Some(call)
    case Gating(_, call) => Some(call)
    case Checking(_, call, _) => Some(call)
    case Reinviting(_, call, _) => Some(call)
    case Ungating(_, call) => Some(call)
    case Releasing(_, call) => Some(call)
    case _ => None
  }

  ghost predicate SameCall(pc: PC, pd: PC) { DirectionCall(pc).Some? && DirectionCall(pc) == DirectionCall(pd) }

  ghost predicate Serial(s: State) {
    forall t: Tid, u: Tid :: SameCall(PcOf(s, t), PcOf(s, u)) ==> t == u
  }

  /** Keys tell the calls that pauses and resumes work for apart, and one call's pauses and resumes are serial. */
  ghost predicate SerialRun(acts: seq<Action>, us: set<string>) {
    && TellsApart(us) && (forall a :: a in acts && a.BeginDirection? ==> a.uuid in us)
    && (forall i :: 0 <= i <= |acts| ==> Serial(Exec(acts[..i])))
  }

  /** The recording or key a pause or resume works on. */
  ghost function DirectionKey(s: State, pc: PC): Option<string> {
    match pc
    case Acquiring(key, _, _) => Some(key)
    case Gating(r, _) => if r in s.table.recs then Some(s.table.recs[r].key) else None
    case Checking(r, _, _) => if r in s.table.recs then Some(s.table.recs[r].key) else None
    case Reinviting(r, _, _) => if r in s.table.recs then Some(s.table.recs[r].key) else None
    case Ungating(r, _) => if r in s.table.recs then Some(s.table.recs[r].key) else None
    case _ => None
  }

  /** It was reached by a handle of its own call. */
  ghost predicate Named(s: State, pc: PC, us: set<string>) {
    DirectionKey(s, pc).Some? ==>
      DirectionCall(pc).value in us && exists handle: string :: DirectionKey(s, pc).value == Key(handle, DirectionCall(pc).value)
  }

  ghost predicate PassedAt(log: seq<Event>, t: Tid, p: nat) { p < |log| && log[p] == Passed(t) }

  /** No other check of the thread was passed since: the one at `p` is its current operation's. */
  ghost predicate NoPassAfter(log: seq<Event>, t: Tid, p: nat) { forall i :: p < i < |log| ==> log[i] != Passed(t) }

  ghost predicate KeyedElsewhere(s: State, r: RecId, key: string) {
    r in s.table.recs ==> s.table.recs[r].key != key
  }

  /** Since log position `p` no recording of `key` was gated. */
  ghost predicate NoGateAt(s: State, key: string, p: nat) {
    forall i :: p < i < |s.log| && s.log[i].Gate? ==> KeyedElsewhere(s, s.log[i].r, key)
  }

  ghost predicate InResume(pc: PC) {
    (pc.Acquiring? && pc.resume) || (pc.Checking? && pc.resume) || (pc.Reinviting? && pc.resume) || pc.Ungating?
  }

  /** `p` is where the resume at `pc` passed its check; no gate came after, and an ungate is due its re-INVITE. */
  ghost predicate Witness(s: State, t: Tid, pc: PC, p: nat) {
    && PassedAt(s.log, t, p) && NoPassAfter(s.log, t, p)
    && (DirectionKey(s, pc).Some? ==> NoGateAt(s, DirectionKey(s, pc).value, p))
    && (pc.Ungating? ==> exists q :: p < q < |s.log| && s.log[q] == Reinvited(t, pc.r))
    && (pc.Reinviting? ==> pc.resume)
  }

  ghost predicate ResumeOk(s: State, t: Tid) {
    InResume(PcOf(s, t)) ==> exists p: nat :: Witness(s, t, PcOf(s, t), p)
  }

  ghost predicate GateInv(s: State, us: set<string>) {
    TellsApart(us) && forall t: Tid :: Named(s, PcOf(s, t), us) && ResumeOk(s, t)
  }

  // ---- where gates and ungates come from ----

  ghost predicate FromGating(pc: PC, t: Tid, e: Event) {
    && (e.Gate? ==> pc.Gating? && e == Gate(t, pc.r))
    && (e.Ungate? ==> pc.Ungating? && e == Ungate(t, pc.r))
    && !e.Passed?
  }

  lemma StepGates(s: State, t: Tid, c: Choice, i: nat)
    requires TouchedBy(s, PcOf(s, t)) <= s.table.recs.Keys && |s.log| <= i < |Step(s, t, c).log|
    ensures FromGating(PcOf(s, t), t, Step(s, t, c).log[i])
    ensures InDirection(PcOf(s, t)) ==> i == |s.log|
  {
    if PcOf(s, t) != Idle {
      StepShaped(s, t, c);
      assert Logs(s, t, PcOf(s, t), c, Step(s, t, c).log[i]);
    }
  }

  /** A gate or ungate logged by a step is the doing of the thread that stands at one. */
  lemma EffectGates(s: State, a: Action, i: nat)
    requires Enabled(s, a) && Touched(s, a) <= s.table.recs.Keys && |s.log| <= i < |Effect(s, a).log|
    requires Effect(s, a).log[i].Gate? || Effect(s, a).log[i].Ungate?
    ensures a.Run? && i == |s.log| && FromGating(PcOf(s, a.t), a.t, Effect(s, a).log[i])
  {
    if a.Run? { StepGates(s, a.t, a.c, i); }
  }

  /** A passed check is logged only by the start of its thread's operation. */
  lemma PassStays(s: State, a: Action, t: Tid, p: nat)
    requires Enabled(s, a) && Touched(s, a) <= s.table.recs.Keys && NoPassAfter(s.log, t, p) && s.log <= Effect(s, a).log
    requires PcOf(s, t) != Idle
    ensures NoPassAfter(Effect(s, a).log, t, p)
  {
    forall i | p < i < |Effect(s, a).log| ensures Effect(s, a).log[i] != Passed(t) {
      if i < |s.log| { assert Effect(s, a).log[i] == s.log[i]; }
      else if a.Run? { StepGates(s, a.t, a.c, i); }
    }
  }

  /** Nothing was logged about a recording not yet allocated. */
  lemma {:induction false} UnbornIsSilent(log: seq<Event>, r: RecId, i: nat)
    requires Monitor(log, r).Mon? && Monitor(log, r).phase == Unborn && i < |log|
    ensures About(log[i]) != Some(r)
  {
    if i < |log| - 1 { UnbornIsSilent(log[..|log| - 1], r, i); }
    else { UnbornIsStart(log[..|log| - 1], r); }
  }

  lemma {:induction false} UnbornIsStart(log: seq<Event>, r: RecId)
    requires Monitor(log, r).Mon? && Monitor(log, r).phase == Unborn
    ensures Monitor(log, r) == START
  {
    if log != [] { UnbornIsStart(log[..|log| - 1], r); }
  }

  // ---- keeping the invariant ----

  /** Two pauses or resumes on one key work for one call. */
  lemma SameKeySameCall(s: State, pc: PC, pd: PC, us: set<string>)
    requires TellsApart(us) && Named(s, pc, us) && Named(s, pd, us)
    requires DirectionKey(s, pc).Some? && DirectionKey(s, pc) == DirectionKey(s, pd)
    ensures SameCall(pc, pd)
  {
    var h1: string :| DirectionKey(s, pc).value == Key(h1, DirectionCall(pc).value);
    var h2: string :| DirectionKey(s, pd).value == Key(h2, DirectionCall(pd).value);
    KeyInjective(h1, DirectionCall(pc).value, h2, DirectionCall(pd).value);
  }

  /** A step by anyone keeps `key` ungated since `p`, unless its thread stands at a gate of that key. */
  lemma NoGateStays(s: State, a: Action, key: string, p: nat)
    requires Good(s) && Enabled(s, a) && Touched(s, a) <= s.table.recs.Keys && NoGateAt(s, key, p)
    requires a.Run? && PcOf(s, a.t).Gating? ==> DirectionKey(s, PcOf(s, a.t)) != Some(key)
    ensures NoGateAt(Effect(s, a), key, p)
  {
    var s' := Effect(s, a);
    EffectGrows(s, a);
    if a.BeginStart? { assert PhaseOk(s, a.r); }
    EffectNames(s, a);
    forall i | p < i < |s'.log| && s'.log[i].Gate? ensures KeyedElsewhere(s', s'.log[i].r, key) {
      var r := s'.log[i].r;
      if i < |s.log| {
        assert s'.log[i] == s.log[i] && KeyedElsewhere(s, r, key);
        if r !in s.table.recs { StaysDead(s, a, i); }
      } else {
        EffectGates(s, a, i);
        GatingStays(s, a);
      }
    }
  }

  /** A recording once gated does not come back to life. */
  lemma StaysDead(s: State, a: Action, i: nat)
    requires Good(s) && Enabled(s, a) && Touched(s, a) <= s.table.recs.Keys
    requires i < |s.log| && s.log[i].Gate? && s.log[i].r !in s.table.recs
    ensures s.log[i].r !in Effect(s, a).table.recs
  {
    GatedWasBorn(s, i);
    FreedStays(s, a, s.log[i].r);
  }

  lemma GatedWasBorn(s: State, i: nat)
    requires Good(s) && i < |s.log| && s.log[i].Gate? && s.log[i].r !in s.table.recs
    ensures PhaseOf(s, s.log[i].r) == Freed
  {
    var r := s.log[i].r;
    assert Consistent(ViewOf(s, r), Monitor(s.log, r)) && PhaseOk(s, r);
    if PhaseOf(s, r) == Unborn { UnbornIsSilent(s.log, r, i); }
  }

  lemma FreedStays(s: State, a: Action, r: RecId)
    requires Good(s) && Enabled(s, a) && Touched(s, a) <= s.table.recs.Keys && PhaseOf(s, r) == Freed
    ensures r !in Effect(s, a).table.recs
  {
    RankGrows(s, a, r);
    ApplyGood(s, a);
    assert PhaseOk(Effect(s, a), r);
  }

  lemma GatingStays(s: State, a: Action)
    requires Enabled(s, a) && Touched(s, a) <= s.table.recs.Keys && a.Run? && PcOf(s, a.t).Gating?
    ensures PcOf(s, a.t).r in s.table.recs && PcOf(s, a.t).r in Effect(s, a).table.recs
    ensures Effect(s, a).table.recs[PcOf(s, a.t).r].key == s.table.recs[PcOf(s, a.t).r].key
  {
  }

  lemma KeyStays(s: State, a: Action, u: Tid)
    requires Good(s) && Enabled(s, a) && Touched(s, a) <= s.table.recs.Keys
    requires PcOf(Effect(s, a), u) == PcOf(s, u)
    ensures DirectionKey(Effect(s, a), PcOf(s, u)) == DirectionKey(s, PcOf(s, u))
  {
    var s', pc := Effect(s, a), PcOf(s, u);
    ApplyGood(s, a);
    if a.BeginStart? { assert PhaseOk(s, a.r); }
    EffectNames(s, a);
    if Pin(pc).Some? {
      PinnedIsLive(s, u, Pin(pc).value);
      PinnedIsLive(s', u, Pin(pc).value);
      KeyOfPinned(s, s', pc);
    }
  }

  lemma KeyOfPinned(s: State, s': State, pc: PC)
    requires NamesKept(s, s') && Pin(pc).Some? && Pin(pc).value in s.table.recs && Pin(pc).value in s'.table.recs
    ensures DirectionKey(s', pc) == DirectionKey(s, pc)
  {
  }

  /** The step of one thread leaves every other resume's witness good. */
  lemma OthersResume(s: State, a: Action, u: Tid, us: set<string>)
    requires Good(s) && Serial(s) && GateInv(s, us) && Enabled(s, a) && Touched(s, a) <= s.table.recs.Keys
    requires PcOf(Effect(s, a), u) == PcOf(s, u) && (a.Run? ==> a.t != u)
    ensures Named(Effect(s, a), PcOf(s, u), us) && ResumeOk(Effect(s, a), u)
  {
    var s', pc := Effect(s, a), PcOf(s, u);
    KeyStays(s, a, u);
    assert Named(s, pc, us) && ResumeOk(s, u);
    if InResume(pc) {
      var p: nat :| Witness(s, u, pc, p);
      WitnessStays(s, a, u, pc, p, us);
    }
  }

  lemma WitnessStays(s: State, a: Action, u: Tid, pc: PC, p: nat, us: set<string>)
    requires Good(s) && Serial(s) && GateInv(s, us) && Enabled(s, a) && Touched(s, a) <= s.table.recs.Keys
    requires PcOf(s, u) == pc && InResume(pc) && Witness(s, u, pc, p) && (a.Run? ==> a.t != u)
    requires DirectionKey(Effect(s, a), pc) == DirectionKey(s, pc)
    ensures Witness(Effect(s, a), u, pc, p)
  {
    EffectGrows(s, a);
    PassStays(s, a, u, p);
    var key := DirectionKey(s, pc);
    if key.Some? {
      if a.Run? && PcOf(s, a.t).Gating? && DirectionKey(s, PcOf(s, a.t)) == key {
        assert Named(s, pc, us) && Named(s, PcOf(s, a.t), us);
        SameKeySameCall(s, PcOf(s, u), PcOf(s, a.t), us);
      }
      NoGateStays(s, a, key.value, p);
    }
    if pc.Ungating? {
      var q :| p < q < |s.log| && s.log[q] == Reinvited(u, pc.r);
      assert Effect(s, a).log[q] == Reinvited(u, pc.r);
    }
  }

  /** A pause or resume stays with its call and its key. */
  lemma KeyOnward(s: State, t: Tid, pc: PC, c: Choice)
    requires InDirection(pc) && PcOf(s, t) == pc && TouchedBy(s, pc) <= s.table.recs.Keys
    requires forall k :: k in s.table.hash ==> s.table.hash[k] in s.table.recs && s.table.recs[s.table.hash[k]].key == k
    ensures var s' := StepDirection(s, t, pc, c);
      var pc' := PcOf(s', t);
      DirectionKey(s', pc').Some? ==> DirectionKey(s', pc') == DirectionKey(s, pc) && DirectionCall(pc') == DirectionCall(pc)
  {
    match pc
    case Acquiring(_, _, _) => AcquireOnward(s, t, pc, c);
    case Reinviting(_, _, _) =>
    case _ =>
  }

  lemma AcquireOnward(s: State, t: Tid, pc: PC, c: Choice)
    requires pc.Acquiring? && PcOf(s, t) == pc && TouchedBy(s, pc) <= s.table.recs.Keys
    requires forall k :: k in s.table.hash ==> s.table.hash[k] in s.table.recs && s.table.recs[s.table.hash[k]].key == k
    ensures var s' := StepAcquire(s, t, pc);
      var pc' := PcOf(s', t);
      DirectionKey(s', pc').Some? ==> DirectionKey(s', pc') == Some(pc.key) && DirectionCall(pc') == Some(pc.call)
  {
  }

  lemma ResumeOnward(s: State, t: Tid, pc: PC, c: Choice)
    requires InDirection(pc) && PcOf(s, t) == pc && TouchedBy(s, pc) <= s.table.recs.Keys
    ensures var s' := StepDirection(s, t, pc, c);
      var pc' := PcOf(s', t);
      && (InResume(pc') ==> InResume(pc) && DirectionKey(s, pc).Some? && s.log <= s'.log)
      && (pc'.Ungating? ==> s'.log == s.log + [Reinvited(t, pc'.r)])
      && (pc'.Reinviting? && InResume(pc') ==> pc'.resume)
  {
  }

  /** The thread's own step: a resume hands its witness on. */
  lemma OwnResume(s: State, a: Action, us: set<string>)
    requires Good(s) && GateInv(s, us) && Enabled(s, a) && Touched(s, a) <= s.table.recs.Keys && a.Run?
    ensures Named(Effect(s, a), PcOf(Effect(s, a), a.t), us) && ResumeOk(Effect(s, a), a.t)
  {
    var pc := PcOf(s, a.t);
    assert Named(s, pc, us) && ResumeOk(s, a.t);
    if InDirection(pc) {
      HashKeys(s);
      KeyOnward(s, a.t, pc, a.c);
      ResumeOnward(s, a.t, pc, a.c);
      OwnWitness(s, a, us);
    } else {
      assert OwnerOk(s, a.t);
      NoDirectionYet(s, a.t, pc, a.c);
    }
  }

  lemma OwnWitness(s: State, a: Action, us: set<string>)
    requires Good(s) && Enabled(s, a) && Touched(s, a) <= s.table.recs.Keys && a.Run? && ResumeOk(s, a.t)
    requires InDirection(PcOf(s, a.t))
    requires var s' := Effect(s, a);
      var pc' := PcOf(s', a.t);
      && (InResume(pc') ==> InResume(PcOf(s, a.t)) && DirectionKey(s, PcOf(s, a.t)).Some? && s.log <= s'.log)
      && (pc'.Ungating? ==> s'.log == s.log + [Reinvited(a.t, pc'.r)])
      && (pc'.Reinviting? && InResume(pc') ==> pc'.resume)
      && (DirectionKey(s', pc').Some? ==> DirectionKey(s', pc') == DirectionKey(s, PcOf(s, a.t)))
    ensures ResumeOk(Effect(s, a), a.t)
  {
    var s', pc := Effect(s, a), PcOf(s, a.t);
    var pc' := PcOf(s', a.t);
    if InResume(pc') {
      var p: nat :| Witness(s, a.t, pc, p);
      assert !pc.Gating?;
      PassStays(s, a, a.t, p);
      NoGateStays(s, a, DirectionKey(s, pc).value, p);
      assert pc'.Ungating? ==> s'.log[|s.log|] == Reinvited(a.t, pc'.r);
      assert Witness(s', a.t, pc', p);
    }
  }

  lemma NoDirectionYet(s: State, t: Tid, pc: PC, c: Choice)
    requires !InDirection(pc) && pc != Idle && PcOf(s, t) == pc && TouchedBy(s, pc) <= s.table.recs.Keys
    ensures var pc' := PcOf(Step(s, t, c), t); !InDirection(pc')
  {
    if InStart(pc) { StartNoDirection(s, t, pc, c); } else if !pc.Tearing? { StopNoDirection(s, t, pc, c); }
  }

  lemma StartNoDirection(s: State, t: Tid, pc: PC, c: Choice)
    requires InStart(pc) && TouchedBy(s, pc) <= s.table.recs.Keys
    ensures var pc' := PcOf(StepStart(s, t, pc, c), t); !InDirection(pc')
  {
  }

  lemma StopNoDirection(s: State, t: Tid, pc: PC, c: Choice)
    requires !InStart(pc) && !InDirection(pc) && !pc.Tearing? && PcOf(s, t) == pc && TouchedBy(s, pc) <= s.table.recs.Keys
    ensures var pc' := PcOf(StepStop(s, t, pc, c), t); !InDirection(pc')
  {
  }

  /** A resume begins with its passed check as the newest event. */
  lemma BeginResume(s: State, a: Action, us: set<string>)
    requires Enabled(s, a) && a.BeginDirection? && a.uuid in us && (a.resume ==> a.srcEnabled)
    ensures Named(Effect(s, a), PcOf(Effect(s, a), a.t), us) && ResumeOk(Effect(s, a), a.t)
  {
    var s' := Effect(s, a);
    assert DirectionKey(s', PcOf(s', a.t)) == Some(Key(a.handle, a.uuid));
    if a.resume { assert Witness(s', a.t, PcOf(s', a.t), |s.log|); }
  }

  lemma EffectGateInv(s: State, a: Action, us: set<string>)
    requires Good(s) && Serial(s) && GateInv(s, us) && Enabled(s, a) && Touched(s, a) <= s.table.recs.Keys
    requires a.BeginDirection? ==> a.uuid in us
    ensures GateInv(Effect(s, a), us)
  {
    forall u: Tid ensures Named(Effect(s, a), PcOf(Effect(s, a), u), us) && ResumeOk(Effect(s, a), u) {
      assert Named(s, PcOf(s, u), us) && ResumeOk(s, u);
      if a.Run? && a.t == u { OwnResume(s, a, us); }
      else if a.BeginDirection? && a.t == u && (a.resume ==> a.srcEnabled) { BeginResume(s, a, us); }
      else if a.BeginDirection? && a.t == u { OthersResume(s, a, u, us); }
      else if (a.BeginStart? || a.BeginStop? || a.BeginDrain? || a.BeginLegEnd?) && a.t == u { }
      else { OthersStand(s, a, u); OthersResume(s, a, u, us); }
    }
  }

  lemma {:induction false} RunsGateInv(acts: seq<Action>, us: set<string>)
    requires SerialRun(acts, us)
    ensures GateInv(Exec(acts), us)
  {
    if acts != [] {
      var init, a := acts[..|acts| - 1], acts[|acts| - 1];
      SerialPrefix(acts, us);
      RunsGateInv(init, us);
      RunsAreGood(init);
      assert init[..|init|] == init;
      if Enabled(Exec(init), a) && Touched(Exec(init), a) <= Exec(init).table.recs.Keys { EffectGateInv(Exec(init), a, us); }
    }
  }

  lemma SerialPrefix(acts: seq<Action>, us: set<string>)
    requires SerialRun(acts, us) && acts != []
    ensures SerialRun(acts[..|acts| - 1], us)
  {
    var init := acts[..|acts| - 1];
    forall i | 0 <= i <= |init| ensures Serial(Exec(init[..i])) { assert init[..i] == acts[..i]; }
  }

  /** Every ungate follows, in this order and all since the last gate, its own resume's passed src-enabled check (the
    * last its thread passed) and its answered re-INVITE. */
  lemma {:induction false} UngateIsEarned(acts: seq<Action>, us: set<string>, t: Tid, r: RecId, i: nat, k: nat) returns (p: nat, q: nat)
    requires SerialRun(acts, us) && i < k < |Exec(acts).log|
    requires Exec(acts).log[i].Gate? && Exec(acts).log[i].r == r && Exec(acts).log[k] == Ungate(t, r)
    ensures i < p < q < k && Exec(acts).log[p] == Passed(t) && Exec(acts).log[q] == Reinvited(t, r)
    ensures forall x :: p < x < k ==> Exec(acts).log[x] != Passed(t)
  {
    var init := acts[..|acts| - 1];
    SerialPrefix(acts, us);
    LogGrows(acts);
    if k < |Exec(init).log| {
      p, q := UngateIsEarned(init, us, t, r, i, k);
    } else {
      UngateIsNew(acts, us, t, r, k);
      p, q := EarnedSoFar(Exec(init), us, t, r, i);
    }
  }

  /** An ungate that the run's last action logged: its thread stood at one before. */
  lemma UngateIsNew(acts: seq<Action>, us: set<string>, t: Tid, r: RecId, k: nat)
    requires SerialRun(acts, us) && acts != [] && |Exec(acts[..|acts| - 1]).log| <= k < |Exec(acts).log|
    requires Exec(acts).log[k] == Ungate(t, r)
    ensures var s := Exec(acts[..|acts| - 1]);
      k == |s.log| && PcOf(s, t).Ungating? && PcOf(s, t).r == r && Good(s) && GateInv(s, us)
  {
    var s, a := Exec(acts[..|acts| - 1]), acts[|acts| - 1];
    RunsAreGood(acts[..|acts| - 1]);
    SerialPrefix(acts, us);
    RunsGateInv(acts[..|acts| - 1], us);
    EffectGates(s, a, k);
  }

  /** A thread about to ungate has what it takes, all since any gate. */
  lemma EarnedSoFar(s: State, us: set<string>, t: Tid, r: RecId, i: nat) returns (p: nat, q: nat)
    requires Good(s) && GateInv(s, us) && PcOf(s, t).Ungating? && PcOf(s, t).r == r
    requires i < |s.log| && s.log[i].Gate? && s.log[i].r == r
    ensures i < p < q < |s.log| && s.log[p] == Passed(t) && s.log[q] == Reinvited(t, r) && NoPassAfter(s.log, t, p)
  {
    assert ResumeOk(s, t);
    PinnedIsLive(s, t, r);
    p :| Witness(s, t, PcOf(s, t), p);
    q :| p < q < |s.log| && s.log[q] == Reinvited(t, r);
    GateIsEarlier(s, t, r, i, p);
  }

  lemma GateIsEarlier(s: State, t: Tid, r: RecId, i: nat, p: nat)
    requires PcOf(s, t).Ungating? && PcOf(s, t).r == r && r in s.table.recs && Witness(s, t, PcOf(s, t), p)
    requires i < |s.log| && s.log[i].Gate? && s.log[i].r == r
    ensures i < p
  {
    assert DirectionKey(s, PcOf(s, t)) == Some(s.table.recs[r].key);
    assert p < i ==> KeyedElsewhere(s, s.log[i].r, s.table.recs[r].key);
  }

  /** A media tick that begins after a gate comes after a resume that began after that gate, itself passed the src-enabled
    * check, and whose re-INVITE succeeded. */
  lemma GatedUntilResumed(acts: seq<Action>, us: set<string>, r: RecId, i: nat, j: nat)
      returns (t: Tid, p: nat, q: nat, k: nat)
    requires SerialRun(acts, us) && i < j < |Exec(acts).log|
    requires Exec(acts).log[i].Gate? && Exec(acts).log[i].r == r && Exec(acts).log[j] == TickBegin(r)
    ensures ResumedBetween(Exec(acts).log, r, i, j, t, p, q, k)
  {
    RunsAreGood(acts);
    assert Consistent(ViewOf(Exec(acts), r), Monitor(Exec(acts).log, r));
    k := GateHolds(Exec(acts).log, r, i, j);
    t := Exec(acts).log[k].t;
    p, q := UngateIsEarned(acts, us, t, r, i, k);
  }

  /** After position `i` and before `j`: thread `t` passes a resume's src-enabled check, its re-INVITE for `r` is answered,
    * and it ungates `r`, with no other check of that thread in between. */
  ghost predicate ResumedBetween(log: seq<Event>, r: RecId, i: nat, j: nat, t: Tid, p: nat, q: nat, k: nat)
    requires j < |log|
  {
    && i < p < q < k < j && log[p] == Passed(t) && log[q] == Reinvited(t, r) && log[k] == Ungate(t, r)
    && forall x :: p < x < k ==> log[x] != Passed(t)
  }

  /** A pause that finds the fork attached gates it, before it asks anything else of the recording's leg. */
  lemma PauseGates(acts: seq<Action>, t: Tid, c: Choice, r: RecId, call: string)
    requires PcOf(Exec(acts), t) == Gating(r, call)
    ensures var s := Exec(acts); var s' := Apply(s, Run(t, c));
      && r in s.table.recs && PcOf(s', t) == Checking(r, call, false)
      && (s.table.recs[r].media == Wired(true) ==>
            s'.log == s.log + [Gate(t, r)] && r in s'.bugs && s'.bugs[r].paused)
  {
    var s := Exec(acts);
    RunsAreGood(acts);
    TouchesLive(s, Run(t, c));
    assert Consistent(ViewOf(s, r), Monitor(s.log, r));
  }

  /** At action `n` a pause that holds the recording is about to gate, and finds its fork attached. */
  ghost predicate PausesAt(acts: seq<Action>, n: nat, r: RecId) {
    && n < |acts| && acts[n].Run?
    && var s, pc := Exec(acts[..n]), PcOf(Exec(acts[..n]), acts[n].t);
       pc.Gating? && pc.r == r && (r in s.table.recs ==> s.table.recs[r].media == Wired(true))
  }

  /** The pause guarantee: a media tick that begins after a pause that found the fork attached comes after a resume that
    * began after that pause, itself passed the src-enabled check, and whose re-INVITE succeeded. */
  lemma NothingLeavesWhilePaused(acts: seq<Action>, us: set<string>, n: nat, r: RecId, j: nat)
      returns (t: Tid, p: nat, q: nat, k: nat)
    requires SerialRun(acts, us) && PausesAt(acts, n, r)
    requires |Exec(acts[..n]).log| <= j < |Exec(acts).log| && Exec(acts).log[j] == TickBegin(r)
    ensures ResumedBetween(Exec(acts).log, r, |Exec(acts[..n]).log|, j, t, p, q, k)
  {
    var i := |Exec(acts[..n]).log|;
    PauseIsLogged(acts, n, r);
    t, p, q, k := GatedUntilResumed(acts, us, r, i, j);
  }

  lemma PauseIsLogged(acts: seq<Action>, n: nat, r: RecId)
    requires PausesAt(acts, n, r)
    ensures var i := |Exec(acts[..n]).log|; i < |Exec(acts).log| && Exec(acts).log[i] == Gate(acts[n].t, r)
  {
    PauseGates(acts[..n], acts[n].t, acts[n].c, r, PcOf(Exec(acts[..n]), acts[n].t).call);
    assert acts[..n + 1] == acts[..n] + [acts[n]];
    ExecSnoc(acts[..n], acts[n]);
    PrefixLogged(acts, n + 1);
  }

  /** While paused, a packet can only come from a tick that was under way when the pause took hold: after a gate and
    * with no ungate since, every packet's tick began before the gate. */
  lemma PausedPacketIsOld(acts: seq<Action>, r: RecId, i: nat, j: nat) returns (b: nat)
    requires i < j < |Exec(acts).log| && Exec(acts).log[i].Gate? && Exec(acts).log[i].r == r && Exec(acts).log[j] == Send(r)
    requires forall k :: i < k < j ==> !(Exec(acts).log[k].Ungate? && Exec(acts).log[k].r == r)
    ensures b < i && Exec(acts).log[b] == TickBegin(r) && forall e :: b < e < j ==> Exec(acts).log[e] != TickEnd(r)
  {
    RunsAreGood(acts);
    assert Consistent(ViewOf(Exec(acts), r), Monitor(Exec(acts).log, r));
    b := PacketHasTick(Exec(acts).log, r, j);
    if i < b { var k := GateHolds(Exec(acts).log, r, i, b); }
  }

  /** ... and after a leg-end likewise. */
  lemma MarkedPacketIsOld(acts: seq<Action>, r: RecId, i: nat, j: nat) returns (b: nat)
    requires i < j < |Exec(acts).log| && Exec(acts).log[i].Mark? && Exec(acts).log[i].r == r && Exec(acts).log[j] == Send(r)
    ensures b < i && Exec(acts).log[b] == TickBegin(r) && forall e :: b < e < j ==> Exec(acts).log[e] != TickEnd(r)
  {
    RunsAreGood(acts);
    assert Consistent(ViewOf(Exec(acts), r), Monitor(Exec(acts).log, r));
    b := PacketHasTick(Exec(acts).log, r, j);
    if i < b { AcceptedMark(Exec(acts).log, r, i, b); }
  }

}
