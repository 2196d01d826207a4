/** When, over all runs, a call's handler and its hashed recordings part company: exactly when a start binds it although
  * its recording was claimed meanwhile, or a stop unbinds it although another start has inserted meanwhile. */
module ProtocolHandlerRuns {
  import opened Common
  import opened RecordingKey
  import opened RecordingTable
  import opened RecordingProtocol
  import opened ProtocolRuns
  import opened ProtocolOutcomes
  import opened ProtocolHandlers

  // ---- what happens to a call ----

  /** A start of `call` binds the handler. */
  ghost predicate Binds(s: State, a: Action, call: string) {
    a.Run? && PcOf(s, a.t).Binding? && RecFor(s, PcOf(s, a.t).r, call)
  }

  /** ... although no recording of the call is hashed. */
  ghost predicate BindsLate(s: State, a: Action, call: string) { Binds(s, a, call) && !HasRecording(s.table, call) }

  /** A stop or an unload unbinds it. */
  ghost predicate Unbinds(s: State, a: Action, call: string) {
    a.Run? && (PcOf(s, a.t).HandlerUnbind? || PcOf(s, a.t).DrainUnbinding?) && PcOf(s, a.t).call == call
  }

  /** A start of `call` inserts. */
  ghost predicate Inserts(s: State, a: Action, call: string) {
    a.Run? && PcOf(s, a.t).Allocated? && RecFor(s, PcOf(s, a.t).r, call)
    && (s.table.recs[PcOf(s, a.t).r].key in s.table.hash ==> s.table.hash[s.table.recs[PcOf(s, a.t).r].key] in s.table.recs)
    && !Busy(s.table, s.table.recs[PcOf(s, a.t).r].key)
  }

  /** Action `m` of the run bound the handler late, and nothing of the call was unbound or inserted since. */
  ghost predicate StrandedBy(acts: seq<Action>, m: nat, call: string) {
    && m < |acts| && BindsLate(Exec(acts[..m]), acts[m], call)
    && forall i :: m < i < |acts| ==> Untouched(Exec(acts[..i]), acts[i], call)
  }

  ghost predicate Untouched(s: State, a: Action, call: string) { !Unbinds(s, a, call) && !Inserts(s, a, call) }

  /** Action `m` of the run unbound the handler under the hashed recording `r`, and no start of the call bound it since. */
  ghost predicate UnboundUnder(acts: seq<Action>, m: nat, call: string, r: RecId) {
    && m < |acts| && Unbinds(Exec(acts[..m]), acts[m], call)
    && Hashed(Exec(acts[..m]).table, r) && RecFor(Exec(acts[..m]), r, call)
    && forall i :: m < i < |acts| ==> !Binds(Exec(acts[..i]), acts[i], call)
  }

  /** No drain of the call without what follows it in siprec_stop: the call has not hung up. */
  ghost predicate NotHungUp(acts: seq<Action>, call: string) {
    forall i :: 0 <= i < |acts| ==> !(acts[i].BeginDrain? && acts[i].call == Some(call) && !acts[i].thenHandler)
  }

  ghost predicate LivePc(pc: PC, call: string) {
    DrainAt(pc).Some? && DrainAt(pc).value.call == Some(call) ==> DrainAt(pc).value.thenHandler
  }

  // ---- a release that is under way ----

  /** The thread will look whether the call's handler is to go, or is about to take it. */
  ghost predicate Pending(pc: PC, call: string) {
    || (pc.Dropping? && pc.call == call)
    || (pc.HandlerScan? && pc.call == call)
    || (pc.HandlerUnbind? && pc.call == call)
    || (pc.DrainUnbinding? && pc.call == call)
    || (pc.Tearing? && pc.next.ToScan? && pc.next.call == call)
    || (pc.Tearing? && pc.next.ToDrainUnbind? && pc.next.call == call)
    || (DrainAt(pc).Some? && DrainAt(pc).value.thenHandler && DrainAt(pc).value.call == Some(call))
  }

  ghost predicate SomePending(s: State, call: string) { exists t: Tid :: Pending(PcOf(s, t), call) }

  lemma StartPending(s: State, t: Tid, pc: PC, c: Choice, call: string)
    requires InStart(pc) && TouchedBy(s, pc) <= s.table.recs.Keys && Pending(pc, call)
    ensures Pending(PcOf(StepStart(s, t, pc, c), t), call)
  {
  }

  lemma DirectionNotPending(pc: PC, call: string)
    requires InDirection(pc)
    ensures !Pending(pc, call)
  {
  }

  lemma TearPending(s: State, t: Tid, pc: PC, c: Choice, call: string)
    requires pc.Tearing? && pc.victim in s.table.recs && Pending(pc, call)
    ensures Pending(PcOf(StepTear(s, t, pc.victim, pc.step, pc.next, c), t), call)
  {
  }

  lemma ScanPending(s: State, t: Tid, pc: PC, call: string)
    requires pc.HandlerScan? && pc.call == call && s.table.hash.Values <= s.table.recs.Keys
    ensures var s' := StepHandlerScan(s, t, call, pc.start); Pending(PcOf(s', t), call) || HasRecording(s'.table, call)
  {
    if exists k :: k in s.table.hash && s.table.recs[s.table.hash[k]].uuid == call {
      var k :| k in s.table.hash && s.table.recs[s.table.hash[k]].uuid == call;
      assert HashedFor(StepHandlerScan(s, t, call, pc.start).table, k, call);
    }
  }

  lemma DrainPending(s: State, t: Tid, d: Drain, call: string)
    requires d.pending != [] ==> AtKey(s, d.pending[0].0) <= s.table.recs.Keys
    requires d.thenHandler && d.call == Some(call)
    ensures Pending(PcOf(StepDrain(s, t, d), t), call)
  {
  }

  lemma StopPending(s: State, t: Tid, pc: PC, c: Choice, call: string)
    requires !InStart(pc) && !InDirection(pc) && !pc.Tearing? && pc != Idle && TouchedBy(s, pc) <= s.table.recs.Keys
    requires Pending(pc, call)
    ensures var s' := StepStop(s, t, pc, c);
      Pending(PcOf(s', t), call) || HasRecording(s'.table, call) || call !in s'.bound
  {
    match pc
    case HandlerScan(_, _) => ScanPending(s, t, pc, call);
    case Draining(d) => DrainPending(s, t, d, call);
    case _ =>
  }

  lemma OwnPending(s: State, t: Tid, c: Choice, call: string)
    requires TouchedBy(s, PcOf(s, t)) <= s.table.recs.Keys && Pending(PcOf(s, t), call)
    ensures var s' := Step(s, t, c);
      Pending(PcOf(s', t), call) || HasRecording(s'.table, call) || call !in s'.bound
  {
    var pc := PcOf(s, t);
    if InStart(pc) { StartPending(s, t, pc, c, call); }
    else if InDirection(pc) { DirectionNotPending(pc, call); }
    else if pc.Tearing? { TearPending(s, t, pc, c, call); }
    else { StopPending(s, t, pc, c, call); }
  }

  /** A step that takes the call's last entry leaves its thread with the handler to look after. */
  lemma TakerIsPending(s: State, us: set<string>, t: Tid, c: Choice, k: string, call: string)
    requires Good(s) && NamesOk(s, us) && TouchedBy(s, PcOf(s, t)) <= s.table.recs.Keys && LivePc(PcOf(s, t), call)
    requires HashedFor(s.table, k, call) && KeyMoved(s, PcOf(s, t)) == Some(k) && !PcOf(s, t).Allocated?
    ensures Pending(PcOf(Step(s, t, c), t), call)
  {
    var pc := PcOf(s, t);
    assert PcWell(pc, us);
    if pc.Claiming? { KeyIsCalls(s, us, k, pc.call, call); }
    else if pc.Draining? {
      KeyIsCalls(s, us, k, pc.d.pending[0].1, call);
      ClaimedIsPending(s, t, pc.d, call);
    }
  }

  lemma KeyIsCalls(s: State, us: set<string>, k: string, named: string, call: string)
    requires Good(s) && NamesOk(s, us) && HashedFor(s.table, k, call) && named in us && NamedBy(k, named)
    ensures named == call
  {
    KeyLeadsHome(s, us, k, named);
  }

  lemma ClaimedIsPending(s: State, t: Tid, d: Drain, call: string)
    requires d.pending != [] && d.pending[0].0 in s.table.hash && s.table.hash[d.pending[0].0] in s.table.recs
    requires d.pending[0].1 == call && (d.unbind || (d.thenHandler && d.call == Some(call)))
    ensures Pending(PcOf(StepDrain(s, t, d), t), call)
  {
  }

  /** When a step leaves a call without hashed recordings, its thread is left with the handler to look after. */
  lemma FallsPending(s: State, us: set<string>, t: Tid, c: Choice, call: string)
    requires Good(s) && NamesOk(s, us) && Enabled(s, Run(t, c)) && TouchedBy(s, PcOf(s, t)) <= s.table.recs.Keys
    requires LivePc(PcOf(s, t), call) && HasRecording(s.table, call) && !HasRecording(Step(s, t, c).table, call)
    ensures Pending(PcOf(Step(s, t, c), t), call)
  {
    var pc := PcOf(s, t);
    var k :| HashedFor(s.table, k, call);
    LostKeyMoved(s, t, c, k, call);
    if pc.Allocated? {
      assert RecNamed(s.table.recs[pc.r], us);
      KeyIsCalls(s, us, k, s.table.recs[pc.r].uuid, call);
      InsertGivesRecording(s, Run(t, c), call);
    } else {
      TakerIsPending(s, us, t, c, k, call);
    }
  }

  /** The key that a step takes from a call is the one key it moves. */
  lemma LostKeyMoved(s: State, t: Tid, c: Choice, k: string, call: string)
    requires Good(s) && Enabled(s, Run(t, c)) && TouchedBy(s, PcOf(s, t)) <= s.table.recs.Keys
    requires HashedFor(s.table, k, call) && !HasRecording(Step(s, t, c).table, call)
    ensures KeyMoved(s, PcOf(s, t)) == Some(k)
  {
    assert Effect(s, Run(t, c)) == Step(s, t, c);
    StepHandlers(s, t, c);
    HashMovesOneKey(s, PcOf(s, t));
    EntriesLive(s, Run(t, c));
    assert !HashedFor(Step(s, t, c).table, k, call);
    if Some(k) != KeyMoved(s, PcOf(s, t)) { EntryStays(s, Step(s, t, c), k, call); }
  }

  // ---- a bound handler has a recording, a release under way, or a late bind behind it ----

  lemma DrainKin(s: State, t: Tid, c: Choice)
    requires TouchedBy(s, PcOf(s, t)) <= s.table.recs.Keys && PcOf(s, t) != Idle
    requires DrainAt(PcOf(Step(s, t, c), t)).Some?
    ensures DrainAt(PcOf(s, t)).Some?
    ensures var d, d' := DrainAt(PcOf(s, t)).value, DrainAt(PcOf(Step(s, t, c), t)).value;
      d'.call == d.call && d'.unbind == d.unbind && d'.thenHandler == d.thenHandler
  {
    var pc := PcOf(s, t);
    if InStart(pc) { StartWell(s, t, pc, c, {}); }
    else if InDirection(pc) { DirectionWell(s, t, pc, c, {}); }
    else if pc.Draining? { DrainNextKin(s, t, pc.d); }
    else if !pc.Tearing? { StopNextKin(s, t, pc, c); }
  }

  lemma DrainNextKin(s: State, t: Tid, d: Drain)
    requires d.pending != [] ==> AtKey(s, d.pending[0].0) <= s.table.recs.Keys
    requires DrainAt(PcOf(StepDrain(s, t, d), t)).Some?
    ensures var d' := DrainAt(PcOf(StepDrain(s, t, d), t)).value;
      d'.call == d.call && d'.unbind == d.unbind && d'.thenHandler == d.thenHandler
  {
  }

  lemma StopNextKin(s: State, t: Tid, pc: PC, c: Choice)
    requires !InStart(pc) && !InDirection(pc) && !pc.Tearing? && !pc.Draining? && pc != Idle
    requires PcOf(s, t) == pc && TouchedBy(s, pc) <= s.table.recs.Keys
    requires DrainAt(PcOf(StepStop(s, t, pc, c), t)).Some?
    ensures DrainAt(pc).Some?
    ensures var d, d' := DrainAt(pc).value, DrainAt(PcOf(StepStop(s, t, pc, c), t)).value;
      d'.call == d.call && d'.unbind == d.unbind && d'.thenHandler == d.thenHandler
  {
  }

  ghost predicate AllLive(s: State, call: string) { forall t: Tid :: LivePc(PcOf(s, t), call) }

  lemma EffectAllLive(s: State, a: Action, call: string)
    requires AllLive(s, call) && Enabled(s, a) && Touched(s, a) <= s.table.recs.Keys
    requires !(a.BeginDrain? && a.call == Some(call) && !a.thenHandler)
    ensures AllLive(Effect(s, a), call)
  {
    forall u: Tid ensures LivePc(PcOf(Effect(s, a), u), call) {
      assert LivePc(PcOf(s, u), call);
      if a.Run? && a.t == u { if DrainAt(PcOf(Effect(s, a), u)).Some? { DrainKin(s, u, a.c); } }
      else if (a.BeginStart? || a.BeginDirection? || a.BeginStop? || a.BeginDrain? || a.BeginLegEnd?) && a.t == u { }
      else { OthersStand(s, a, u); }
    }
  }

  lemma {:induction false} RunsAllLive(acts: seq<Action>, call: string)
    requires NotHungUp(acts, call)
    ensures AllLive(Exec(acts), call)
  {
    if acts != [] {
      var init, a := acts[..|acts| - 1], acts[|acts| - 1];
      RunsAllLive(init, call);
      if Enabled(Exec(init), a) && Touched(Exec(init), a) <= Exec(init).table.recs.Keys { EffectAllLive(Exec(init), a, call); }
    }
  }

  /** The handler's state is accounted for. */
  ghost predicate BoundAccounted(acts: seq<Action>, call: string) {
    call in Exec(acts).bound ==>
      HasRecording(Exec(acts).table, call) || SomePending(Exec(acts), call) || exists m: nat :: StrandedBy(acts, m, call)
  }

  lemma StrandedOn(acts: seq<Action>, a: Action, m: nat, call: string)
    requires StrandedBy(acts, m, call) && Untouched(Exec(acts), a, call)
    ensures StrandedBy(acts + [a], m, call)
  {
    var more := acts + [a];
    assert more[..m] == acts[..m];
    forall i | m < i < |more| ensures Untouched(Exec(more[..i]), more[i], call) {
      assert more[..i] == acts[..i];
      if i == |acts| { assert acts[..i] == acts; }
    }
  }

  lemma LateBindStrands(acts: seq<Action>, a: Action, call: string)
    requires BindsLate(Exec(acts), a, call)
    ensures StrandedBy(acts + [a], |acts|, call)
  {
    assert (acts + [a])[..|acts|] == acts;
  }

  /** How the next action carries the account on, for a call that has no hashed recording afterwards. */
  lemma AccountCarries(s: State, us: set<string>, a: Action, call: string)
    requires Good(s) && NamesOk(s, us) && AllLive(s, call) && Enabled(s, a) && Touched(s, a) <= s.table.recs.Keys
    requires call in Effect(s, a).bound && !HasRecording(Effect(s, a).table, call)
    ensures call !in s.bound ==> BindsLate(s, a, call)
    ensures HasRecording(s.table, call) || SomePending(s, call) ==> SomePending(Effect(s, a), call)
    ensures Untouched(s, a, call)
  {
    if Inserts(s, a, call) { InsertGivesRecording(s, a, call); }
    if a.Run? {
      UnbindDrops(s, a, call);
      if call !in s.bound { BindKeepsEntries(s, a, call); }
      if HasRecording(s.table, call) { assert LivePc(PcOf(s, a.t), call); FallsPending(s, us, a.t, a.c, call); }
    } else {
      OtherKeepsEntries(s, a, call);
    }
    if !HasRecording(s.table, call) {
      if u: Tid :| Pending(PcOf(s, u), call) { PendingCarries(s, a, u, call); }
    }
  }

  lemma UnbindDrops(s: State, a: Action, call: string)
    requires a.Run? && Enabled(s, a) && Touched(s, a) <= s.table.recs.Keys
    ensures Unbinds(s, a, call) ==> call !in Effect(s, a).bound
  {
    StepHandlers(s, a.t, a.c);
  }

  lemma OtherKeepsEntries(s: State, a: Action, call: string)
    requires Good(s) && !a.Run? && Enabled(s, a) && Touched(s, a) <= s.table.recs.Keys
    ensures (HasRecording(s.table, call) ==> HasRecording(Effect(s, a).table, call)) && Effect(s, a).bound == s.bound
  {
    OtherHandlers(s, a);
    EntriesLive(s, a);
    if k :| HashedFor(s.table, k, call) { EntryStays(s, Effect(s, a), k, call); }
  }

  lemma InsertGivesRecording(s: State, a: Action, call: string)
    requires Good(s) && Enabled(s, a) && Touched(s, a) <= s.table.recs.Keys && Inserts(s, a, call)
    ensures HasRecording(Effect(s, a).table, call)
  {
    var r := PcOf(s, a.t).r;
    StepHandlers(s, a.t, a.c);
    EntriesLive(s, a);
    assert HashedFor(Effect(s, a).table, s.table.recs[r].key, call);
  }

  lemma BindKeepsEntries(s: State, a: Action, call: string)
    requires Good(s) && a.Run? && Enabled(s, a) && Touched(s, a) <= s.table.recs.Keys
    requires call !in s.bound && call in Effect(s, a).bound
    ensures Binds(s, a, call) && (HasRecording(s.table, call) ==> HasRecording(Effect(s, a).table, call))
  {
    StepHandlers(s, a.t, a.c);
    EntriesLive(s, a);
    if k :| HashedFor(s.table, k, call) { EntryStays(s, Effect(s, a), k, call); assert HashedFor(Effect(s, a).table, k, call); }
  }

  lemma PendingCarries(s: State, a: Action, u: Tid, call: string)
    requires Good(s) && Enabled(s, a) && Touched(s, a) <= s.table.recs.Keys && Pending(PcOf(s, u), call)
    requires call in Effect(s, a).bound && !HasRecording(Effect(s, a).table, call)
    ensures Pending(PcOf(Effect(s, a), u), call)
  {
    if a.Run? && a.t == u { OwnPending(s, u, a.c, call); }
    else if (a.BeginStart? || a.BeginDirection? || a.BeginStop? || a.BeginDrain? || a.BeginLegEnd?) && a.t == u { }
    else { OthersStand(s, a, u); }
  }

  lemma {:induction false} RunsBoundAccounted(acts: seq<Action>, us: set<string>, call: string)
    requires NamedRun(acts, us) && NotHungUp(acts, call)
    ensures BoundAccounted(acts, call)
  {
    if acts != [] {
      var init, a := acts[..|acts| - 1], acts[|acts| - 1];
      assert acts == init + [a];
      RunsBoundAccounted(init, us, call);
      AccountedNext(init, us, a, call);
    }
  }

  lemma AccountedNext(acts: seq<Action>, us: set<string>, a: Action, call: string)
    requires NamedRun(acts, us) && NotHungUp(acts, call) && BoundAccounted(acts, call)
    ensures BoundAccounted(acts + [a], call)
  {
    var s := Exec(acts);
    ExecSnoc(acts, a);
    RunsAreGood(acts);
    RunsNamesOk(acts, us);
    RunsAllLive(acts, call);
    if Enabled(s, a) && Touched(s, a) <= s.table.recs.Keys {
      if call in Effect(s, a).bound && !HasRecording(Effect(s, a).table, call) {
        AccountCarries(s, us, a, call);
        if BindsLate(s, a, call) { LateBindStrands(acts, a, call); }
        else if m: nat :| StrandedBy(acts, m, call) { StrandedOn(acts, a, m, call); }
      }
    } else {
      IgnoredIsUntouched(s, a, call);
      if m: nat :| StrandedBy(acts, m, call) { StrandedOn(acts, a, m, call); }
    }
  }

  lemma IgnoredIsUntouched(s: State, a: Action, call: string)
    requires Good(s) && !(Enabled(s, a) && Touched(s, a) <= s.table.recs.Keys)
    ensures Untouched(s, a, call) && !Binds(s, a, call)
  {
    if Enabled(s, a) { TouchesLive(s, a); }
  }
}
