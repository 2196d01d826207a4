/** When a call holds this module's hangup handler exactly if a recording of it is hashed, and every way it can fail to. */
module ProtocolHandlerTheorems {
  import opened Common
  import opened RecordingTable
  import opened RecordingProtocol
  import opened ProtocolOwnership
  import opened ProtocolMonitor
  import opened ProtocolWatch
  import opened ProtocolRuns
  import opened ProtocolOutcomes
  import opened ProtocolDrain
  import opened ProtocolHandlers
  import opened ProtocolHandlerRuns

  // ---- a hashed recording has a bound handler, a start about to bind it, or an untimely unbind behind it ----

  /** The start of `r` is about to bind its call's handler. */
  ghost predicate BindsNext(pc: PC, r: RecId) { pc == Binding(r) || (pc.Tearing? && pc.next == ToBind(r)) }

  ghost predicate SomeBindsNext(s: State, r: RecId) { exists t: Tid :: BindsNext(PcOf(s, t), r) }

  ghost predicate HashAccounted(acts: seq<Action>, call: string, r: RecId) {
    Hashed(Exec(acts).table, r) && RecFor(Exec(acts), r, call) ==>
      call in Exec(acts).bound || SomeBindsNext(Exec(acts), r) || exists m: nat :: UnboundUnder(acts, m, call, r)
  }

  lemma UnboundOn(acts: seq<Action>, a: Action, m: nat, call: string, r: RecId)
    requires UnboundUnder(acts, m, call, r) && !Binds(Exec(acts), a, call)
    ensures UnboundUnder(acts + [a], m, call, r)
  {
    var more := acts + [a];
    assert more[..m] == acts[..m];
    forall i | m < i < |more| ensures !Binds(Exec(more[..i]), more[i], call) {
      assert more[..i] == acts[..i];
      if i == |acts| { assert acts[..i] == acts; }
    }
  }

  lemma UnboundNow(acts: seq<Action>, a: Action, call: string, r: RecId)
    requires Unbinds(Exec(acts), a, call) && Hashed(Exec(acts).table, r) && RecFor(Exec(acts), r, call)
    ensures UnboundUnder(acts + [a], |acts|, call, r)
  {
    assert (acts + [a])[..|acts|] == acts;
  }

  lemma InsertBindsNext(s: State, t: Tid, r: RecId)
    requires r in s.table.recs && AtKey(s, s.table.recs[r].key) <= s.table.recs.Keys && !Busy(s.table, s.table.recs[r].key)
    ensures BindsNext(PcOf(StepInsert(s, t, r), t), r)
  {
  }

  /** A recording gets into the hash by its own start's insert. */
  lemma HashedByInsert(s: State, a: Action, r: RecId)
    requires Good(s) && Enabled(s, a) && Touched(s, a) <= s.table.recs.Keys
    requires Hashed(Effect(s, a).table, r) && !Hashed(s.table, r)
    ensures a.Run? && BindsNext(PcOf(Effect(s, a), a.t), r)
  {
    var s' := Effect(s, a);
    EntriesLive(s, a);
    ApplyGood(s, a);
    if a.Run? {
      StepHandlers(s, a.t, a.c);
      HashMovesOneKey(s, PcOf(s, a.t));
      var k := s'.table.recs[r].key;
      assert s'.table.hash[k] == r;
      InsertedHere(s, a.t, a.c, k, r);
    } else {
      OtherHandlers(s, a);
    }
  }

  lemma InsertedHere(s: State, t: Tid, c: Choice, k: string, r: RecId)
    requires TouchedBy(s, PcOf(s, t)) <= s.table.recs.Keys && KeyMoved(s, PcOf(s, t)) == Some(k)
    requires k in HashAfter(s, PcOf(s, t)) && HashAfter(s, PcOf(s, t))[k] == r
    ensures BindsNext(PcOf(Step(s, t, c), t), r)
  {
    if PcOf(s, t).Allocated? { InsertBindsNext(s, t, r); }
  }

  /** A start about to bind either still is, or has bound. */
  lemma OwnBindsNext(s: State, t: Tid, c: Choice, r: RecId)
    requires TouchedBy(s, PcOf(s, t)) <= s.table.recs.Keys && BindsNext(PcOf(s, t), r)
    ensures BindsNext(PcOf(Step(s, t, c), t), r) || (r in s.table.recs && s.table.recs[r].uuid in Step(s, t, c).bound)
  {
    if PcOf(s, t).Tearing? { TearBindsNext(s, t, PcOf(s, t), c, r); }
  }

  lemma TearBindsNext(s: State, t: Tid, pc: PC, c: Choice, r: RecId)
    requires pc.Tearing? && pc.victim in s.table.recs && pc.next == ToBind(r)
    ensures BindsNext(PcOf(StepTear(s, t, pc.victim, pc.step, pc.next, c), t), r)
  {
  }

  lemma HashCarries(s: State, a: Action, call: string, r: RecId)
    requires Good(s) && Enabled(s, a) && Touched(s, a) <= s.table.recs.Keys
    requires Hashed(Effect(s, a).table, r) && RecFor(Effect(s, a), r, call) && call !in Effect(s, a).bound
    ensures !Hashed(s.table, r) ==> SomeBindsNext(Effect(s, a), r)
    ensures Hashed(s.table, r) ==> RecFor(s, r, call) && !Binds(s, a, call)
    ensures Hashed(s.table, r) && call in s.bound ==> Unbinds(s, a, call)
    ensures Hashed(s.table, r) && SomeBindsNext(s, r) ==> SomeBindsNext(Effect(s, a), r)
  {
    if !Hashed(s.table, r) { HashedByInsert(s, a, r); }
    else {
      UnboundHashCarries(s, a, call, r);
      if u: Tid :| BindsNext(PcOf(s, u), r) { BindsNextCarries(s, a, u, call, r); }
    }
  }

  lemma UnboundHashCarries(s: State, a: Action, call: string, r: RecId)
    requires Good(s) && Enabled(s, a) && Touched(s, a) <= s.table.recs.Keys && Hashed(s.table, r)
    requires RecFor(Effect(s, a), r, call) && call !in Effect(s, a).bound
    ensures RecFor(s, r, call) && !Binds(s, a, call) && (call in s.bound ==> Unbinds(s, a, call))
  {
    EntriesLive(s, a);
    if a.Run? { StepHandlers(s, a.t, a.c); } else { OtherHandlers(s, a); }
  }

  lemma BindsNextCarries(s: State, a: Action, u: Tid, call: string, r: RecId)
    requires Enabled(s, a) && Touched(s, a) <= s.table.recs.Keys && BindsNext(PcOf(s, u), r) && RecFor(s, r, call)
    requires call !in Effect(s, a).bound
    ensures BindsNext(PcOf(Effect(s, a), u), r)
  {
    if a.Run? && a.t == u { OwnBindsNext(s, u, a.c, r); }
    else if (a.BeginStart? || a.BeginDirection? || a.BeginStop? || a.BeginDrain? || a.BeginLegEnd?) && a.t == u { }
    else { OthersStand(s, a, u); }
  }

  lemma {:induction false} RunsHashAccounted(acts: seq<Action>, call: string, r: RecId)
    ensures HashAccounted(acts, call, r)
  {
    if acts != [] {
      var init, a := acts[..|acts| - 1], acts[|acts| - 1];
      assert acts == init + [a];
      RunsHashAccounted(init, call, r);
      HashAccountedNext(init, a, call, r);
    }
  }

  lemma HashAccountedNext(acts: seq<Action>, a: Action, call: string, r: RecId)
    requires HashAccounted(acts, call, r)
    ensures HashAccounted(acts + [a], call, r)
  {
    var s := Exec(acts);
    ExecSnoc(acts, a);
    RunsAreGood(acts);
    if Enabled(s, a) && Touched(s, a) <= s.table.recs.Keys {
      var s' := Effect(s, a);
      if Hashed(s'.table, r) && RecFor(s', r, call) && call !in s'.bound {
        HashCarries(s, a, call, r);
        if Hashed(s.table, r) && call in s.bound { UnboundNow(acts, a, call, r); }
        else if m: nat :| UnboundUnder(acts, m, call, r) { if Hashed(s.table, r) { UnboundOn(acts, a, m, call, r); } }
      }
    } else {
      IgnoredIsUntouched(s, a, call);
      if m: nat :| UnboundUnder(acts, m, call, r) { UnboundOn(acts, a, m, call, r); }
    }
  }

  // ---- both ways of failing last ----

  lemma LateStep(s: State, a: Action, call: string)
    requires Good(s) && Binds(s, a, call) && !HasRecording(s.table, call)
    ensures call in Apply(s, a).bound && !HasRecording(Apply(s, a).table, call)
  {
    TouchesLive(s, a);
    StepHandlers(s, a.t, a.c);
    EntriesLive(s, a);
    forall k ensures !HashedFor(Effect(s, a).table, k, call) {
      assert !HashedFor(s.table, k, call);
      if k in s.table.hash { EntryStays(s, Effect(s, a), k, call); }
    }
  }

  lemma StrandedStep(s: State, a: Action, call: string)
    requires Good(s) && call in s.bound && !HasRecording(s.table, call) && Untouched(s, a, call)
    ensures call in Apply(s, a).bound && !HasRecording(Apply(s, a).table, call)
  {
    if Enabled(s, a) && Touched(s, a) <= s.table.recs.Keys {
      EntriesLive(s, a);
      if a.Run? { StepHandlers(s, a.t, a.c); HashMovesOneKey(s, PcOf(s, a.t)); } else { OtherHandlers(s, a); }
      if k :| HashedFor(Effect(s, a).table, k, call) { assert !HashedFor(s.table, k, call); NewEntryIsInsert(s, a, k, call); }
    }
  }

  lemma NewEntryIsInsert(s: State, a: Action, k: string, call: string)
    requires Good(s) && Enabled(s, a) && Touched(s, a) <= s.table.recs.Keys && !HashedFor(s.table, k, call)
    requires HashedFor(Effect(s, a).table, k, call)
    ensures Inserts(s, a, call)
  {
    var s' := Effect(s, a);
    EntriesLive(s, a);
    if !a.Run? { OtherHandlers(s, a); EntryStays(s, s', k, call); }
    else {
      StepHandlers(s, a.t, a.c);
      HashMovesOneKey(s, PcOf(s, a.t));
      if Some(k) != KeyMoved(s, PcOf(s, a.t)) { EntryStays(s, s', k, call); }
      else { OwnedStartNamed(s, a, k, call); }
    }
  }

  lemma OwnedStartNamed(s: State, a: Action, k: string, call: string)
    requires Good(s) && a.Run? && Enabled(s, a) && Touched(s, a) <= s.table.recs.Keys
    requires KeyMoved(s, PcOf(s, a.t)) == Some(k) && k in HashAfter(s, PcOf(s, a.t)) && NamesKept(s, Effect(s, a))
    requires Effect(s, a).table.hash == HashAfter(s, PcOf(s, a.t)) && HashedFor(Effect(s, a).table, k, call)
    ensures Inserts(s, a, call)
  {
    HashKeys(s);
  }

  lemma {:induction false} StrandedLasts(acts: seq<Action>, m: nat, call: string)
    requires StrandedBy(acts, m, call)
    ensures call in Exec(acts).bound && !HasRecording(Exec(acts).table, call)
  {
    var init, a := acts[..|acts| - 1], acts[|acts| - 1];
    RunsAreGood(init);
    if m == |init| { LateStep(Exec(init), a, call); }
    else {
      assert init[..m] == acts[..m];
      forall i | m < i < |init| ensures Untouched(Exec(init[..i]), init[i], call) { assert init[..i] == acts[..i]; }
      StrandedLasts(init, m, call);
      assert Untouched(Exec(acts[..|init|]), acts[|init|], call);
      StrandedStep(Exec(init), a, call);
    }
  }

  /** When no release of the call's handler is under way, the call holds the handler in vain if and only if some start
    * bound it when nothing of the call was hashed, and nothing of the call was unbound or inserted since. */
  lemma BoundInVainIff(acts: seq<Action>, us: set<string>, call: string)
    requires NamedRun(acts, us) && NotHungUp(acts, call) && !SomePending(Exec(acts), call)
    ensures call in Exec(acts).bound && !HasRecording(Exec(acts).table, call) <==> exists m: nat :: StrandedBy(acts, m, call)
  {
    RunsBoundAccounted(acts, us, call);
    if m: nat :| StrandedBy(acts, m, call) { StrandedLasts(acts, m, call); }
  }

  /** A late bind is the bind of a recording that was claimed between its insert and its bind: it is doomed, and its
    * start never reports SUCCESS. */
  lemma LateBindIsDoomed(acts: seq<Action>, a: Action, call: string)
    requires BindsLate(Exec(acts), a, call)
    ensures var s := Exec(acts); var r := PcOf(s, a.t).r;
      && r in s.table.recs && s.table.recs[r].doomed && s.table.recs[r].useCount > 0
      && Insert(r) in s.log && Unhash(r) in s.log
    ensures forall later: seq<Action>, b, t ::
      Exec(acts).log <= Exec(later).log ==> !Returns(later, b, t, PcOf(Exec(acts), a.t).r, Success)
  {
    var s := Exec(acts);
    var r := PcOf(s, a.t).r;
    RunsAreGood(acts);
    PinnedIsLive(s, a.t, r);
    HashedIsEntry(s, r, call);
    assert PhaseOk(s, r) && Consistent(ViewOf(s, r), Monitor(s.log, r));
    HashedWasInserted(s.log, r);
    if Unhash(r) !in s.log { InsertedNotUnhashed(s.log, r); }
    forall later: seq<Action>, b, t | s.log <= Exec(later).log
      ensures !Returns(later, b, t, r, Success)
    {
      UnhashedNeverSucceeds(later, b, t, r);
    }
  }

  lemma HashedIsEntry(s: State, r: RecId, call: string)
    requires RecFor(s, r, call)
    ensures Hashed(s.table, r) ==> HasRecording(s.table, call)
  {
    assert Hashed(s.table, r) ==> HashedFor(s.table, s.table.recs[r].key, call);
  }

  lemma UnhashedNeverSucceeds(acts: seq<Action>, a: Action, t: Tid, r: RecId)
    requires Unhash(r) in Exec(acts).log
    ensures !Returns(acts, a, t, r, Success)
  {
    if Returns(acts, a, t, r, Success) {
      StartOutcomesAreTruthful(acts, a, t, r, Success);
      RunsAreGood(acts);
      HashedIsNotOut(Exec(acts), r);
    }
  }

  // ---- the mirror: hashed but not bound ----

  lemma {:induction false} RemainsHashed(acts: seq<Action>, m: nat, call: string, r: RecId)
    requires m <= |acts| && Hashed(Exec(acts[..m]).table, r) && RecFor(Exec(acts[..m]), r, call)
    requires Unhash(r) !in Exec(acts).log
    ensures Hashed(Exec(acts).table, r) && RecFor(Exec(acts), r, call)
  {
    if m == |acts| { assert acts[..m] == acts; }
    else {
      var init, a := acts[..|acts| - 1], acts[|acts| - 1];
      assert init[..m] == acts[..m];
      LogOnlyGrows(Exec(init), a);
      RemainsHashed(init, m, call, r);
      RunsAreGood(init);
      HashedStep(Exec(init), a, call, r);
    }
  }

  lemma HashedStep(s: State, a: Action, call: string, r: RecId)
    requires Good(s) && Hashed(s.table, r) && RecFor(s, r, call) && Unhash(r) !in Apply(s, a).log
    ensures Hashed(Apply(s, a).table, r) && RecFor(Apply(s, a), r, call)
  {
    if Enabled(s, a) && Touched(s, a) <= s.table.recs.Keys {
      EffectGrows(s, a);
      ApplyGood(s, a);
      EntriesLive(s, a);
      assert Consistent(ViewOf(s, r), Monitor(s.log, r)) && PhaseOk(s, r);
      HashedWasInserted(s.log, r);
      assert Insert(r) in Effect(s, a).log;
      StillInHash(Effect(s, a), r);
    }
  }

  lemma StillInHash(s: State, r: RecId)
    requires Good(s) && Insert(r) in s.log && Unhash(r) !in s.log
    ensures Hashed(s.table, r)
  {
    assert Consistent(ViewOf(s, r), Monitor(s.log, r)) && PhaseOk(s, r);
    InsertedNotUnhashed(s.log, r);
  }

  lemma {:induction false} UnboundLasts(acts: seq<Action>, m: nat, call: string, r: RecId)
    requires UnboundUnder(acts, m, call, r)
    ensures call !in Exec(acts).bound
  {
    var init, a := acts[..|acts| - 1], acts[|acts| - 1];
    RunsAreGood(init);
    if m == |init| { UnbindStep(Exec(init), a, call); }
    else {
      assert init[..m] == acts[..m];
      forall i | m < i < |init| ensures !Binds(Exec(init[..i]), init[i], call) { assert init[..i] == acts[..i]; }
      UnboundLasts(init, m, call, r);
      assert !Binds(Exec(acts[..|init|]), acts[|init|], call);
      NoBindStep(Exec(init), a, call);
    }
  }

  lemma UnbindStep(s: State, a: Action, call: string)
    requires Good(s) && Unbinds(s, a, call)
    ensures call !in Apply(s, a).bound
  {
    TouchesLive(s, a);
    StepHandlers(s, a.t, a.c);
  }

  lemma NoBindStep(s: State, a: Action, call: string)
    requires Good(s) && call !in s.bound && !Binds(s, a, call)
    ensures call !in Apply(s, a).bound
  {
    if Enabled(s, a) && Touched(s, a) <= s.table.recs.Keys {
      if a.Run? { StepHandlers(s, a.t, a.c); } else { OtherHandlers(s, a); }
    }
  }

  /** When no start of the call is about to bind, a hashed recording lacks the call's handler if and only if some stop or
    * unload unbound it while that recording was hashed, no start of the call bound it since, and the recording was not
    * unhashed. */
  lemma HashedInVainIff(acts: seq<Action>, call: string, r: RecId)
    requires RecFor(Exec(acts), r, call) && !SomeBindsNext(Exec(acts), r)
    ensures Hashed(Exec(acts).table, r) && call !in Exec(acts).bound <==>
      (exists m: nat :: UnboundUnder(acts, m, call, r)) && Unhash(r) !in Exec(acts).log
  {
    RunsHashAccounted(acts, call, r);
    RunsAreGood(acts);
    if Hashed(Exec(acts).table, r) { HashedIsNotOut(Exec(acts), r); }
    if m: nat :| UnboundUnder(acts, m, call, r) {
      UnboundLasts(acts, m, call, r);
      if Unhash(r) !in Exec(acts).log { RemainsHashed(acts, m, call, r); }
    }
  }
}
