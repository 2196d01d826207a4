/** A call whose starts are not overlapped by its own stops, by an unload or by one another holds this module's hangup
  * handler, whenever none of them is at work, exactly if a recording of it is hashed. Everything else interleaves freely:
  * other calls, pauses and resumes, leg-ends, media, and the call's stops and unloads among themselves. */
module ProtocolHandlerSerial {
  import opened Common
  import opened RecordingTable
  import opened RecordingProtocol
  import opened ProtocolOwnership
  import opened ProtocolRuns
  import opened ProtocolOutcomes
  import opened ProtocolDrain
  import opened ProtocolHandlers
  import opened ProtocolHandlerRuns
  import opened ProtocolHandlerTheorems

  /** The recording that the start of a thread at `pc` has inserted and not yet let go. */
  ghost function InsertedBy(pc: PC): Option<RecId> {
    match pc
    case Binding(r) => Some(r)
    case Preparing(r) => Some(r)
    case Inviting(r) => Some(r)
    case Attaching(r) => Some(r)
    case Wiring(r) => Some(r)
    case Finishing(r) => Some(r)
    case Discarding(r) => Some(r)
    case Tearing(_, _, ToBind(r)) => Some(r)
    case _ => None
  }

  /** A start of `call` is in flight at `pc`: from its insert to its return. */
  ghost predicate Starting(s: State, pc: PC, call: string) {
    || (InsertedBy(pc).Some? && RecFor(s, InsertedBy(pc).value, call))
    || (pc.Dropping? && pc.call == call)
    || (pc.HandlerScan? && pc.start.Some? && pc.call == call)
    || (pc.HandlerUnbind? && pc.start.Some? && pc.call == call)
    || (pc.Tearing? && pc.next.ToScan? && pc.next.start.Some? && pc.next.call == call)
  }

  /** A stop or drain of `call`, or an unload, is at `pc`. */
  ghost predicate Stopping(pc: PC, call: string) {
    || (pc.Claiming? && pc.call == call)
    || (pc.HandlerScan? && pc.start.None? && pc.call == call)
    || (pc.HandlerUnbind? && pc.start.None? && pc.call == call)
    || (pc.Tearing? && pc.next.ToScan? && pc.next.start.None? && pc.next.call == call)
    || (DrainAt(pc).Some? && Matched(DrainAt(pc).value.call, call))
  }

  /** While a start of the call is in flight no other thread starts, stops or unloads it. */
  ghost predicate Exclusive(s: State, call: string) {
    forall t: Tid, u: Tid :: t != u && Starting(s, PcOf(s, t), call) ==>
      !Starting(s, PcOf(s, u), call) && !Stopping(PcOf(s, u), call)
  }

  ghost predicate ExclusiveRun(acts: seq<Action>, call: string) {
    forall i :: 0 <= i <= |acts| ==> Exclusive(Exec(acts[..i]), call)
  }

  // ---- the invariant ----

  ghost predicate StartHashed(s: State, pc: PC, call: string) {
    InsertedBy(pc).Some? && RecFor(s, InsertedBy(pc).value, call) ==> Hashed(s.table, InsertedBy(pc).value)
  }

  ghost predicate UnbindSafe(s: State, pc: PC, call: string) {
    pc.HandlerUnbind? && pc.call == call ==> !HasRecording(s.table, call)
  }

  ghost predicate DrainSure(s: State, pc: PC, call: string) {
    DrainOf(pc).Some? && Matched(DrainOf(pc).value.call, call) && DrainOf(pc).value.lastScan ==>
      forall k :: HashedFor(s.table, k, call) ==> KeyPending(DrainOf(pc).value, k)
  }

  ghost predicate PcSafe(s: State, pc: PC, call: string) {
    StartHashed(s, pc, call) && UnbindSafe(s, pc, call) && DrainSure(s, pc, call)
  }

  ghost predicate Unloading(pc: PC) { DrainAt(pc).Some? && DrainAt(pc).value.unbind }

  ghost predicate SomeUnload(s: State) { exists t: Tid :: Unloading(PcOf(s, t)) }

  ghost predicate EntryOk(s: State, call: string, r: RecId) {
    Hashed(s.table, r) && RecFor(s, r, call) ==> call in s.bound || SomeBindsNext(s, r) || SomeUnload(s)
  }

  ghost predicate SerialOk(s: State, call: string) {
    (forall t: Tid :: PcSafe(s, PcOf(s, t), call)) && forall r: RecId :: EntryOk(s, call, r)
  }

  // ---- no thread takes the recording of another's start ----

  lemma InsertedIsPinned(pc: PC)
    requires InsertedBy(pc).Some?
    ensures Pin(pc) == InsertedBy(pc)
  {
  }

  /** In an exclusive state no other thread's step moves the key of a start's recording. */
  lemma KeyIsSafe(s: State, us: set<string>, t: Tid, u: Tid, r: RecId, call: string)
    requires Good(s) && NamesOk(s, us) && Exclusive(s, call) && t != u && TouchedBy(s, PcOf(s, t)) <= s.table.recs.Keys
    requires InsertedBy(PcOf(s, u)) == Some(r) && RecFor(s, r, call) && Hashed(s.table, r)
    ensures KeyMoved(s, PcOf(s, t)) != Some(s.table.recs[r].key)
  {
    var pc, k := PcOf(s, t), s.table.recs[r].key;
    InsertedIsPinned(PcOf(s, u));
    PinnedIsLive(s, u, r);
    assert Starting(s, PcOf(s, u), call) && PcWell(pc, us);
    if KeyMoved(s, pc) == Some(k) {
      assert HashedFor(s.table, k, call);
      KeyMovedIsOwn(s, us, pc, call);
      MoverIsActive(s, pc, call, k);
    }
  }

  lemma MoverIsActive(s: State, pc: PC, call: string, k: string)
    requires TouchedBy(s, pc) <= s.table.recs.Keys && KeyMoved(s, pc) == Some(k) && WorksFor(s, pc, call)
    ensures pc.Allocated? || Starting(s, pc, call) || Stopping(pc, call)
    ensures pc.Allocated? ==> k in s.table.hash && s.table.hash[k] in s.table.recs ==> s.table.recs[s.table.hash[k]].useCount <= 0
  {
  }

  // ---- each part is kept ----

  lemma OwnStartHashed(s: State, t: Tid, c: Choice, call: string)
    requires Good(s) && Enabled(s, Run(t, c)) && TouchedBy(s, PcOf(s, t)) <= s.table.recs.Keys
    requires StartHashed(s, PcOf(s, t), call)
    ensures StartHashed(Step(s, t, c), PcOf(Step(s, t, c), t), call)
  {
    var s', pc := Step(s, t, c), PcOf(s, t);
    var r := InsertedBy(PcOf(s', t));
    assert Effect(s, Run(t, c)) == s';
    if r.Some? && RecFor(s', r.value, call) {
      EntriesLive(s, Run(t, c));
      EffectNames(s, Run(t, c));
      StepHandlers(s, t, c);
      InsertedFrom(s, t, c, r.value);
    }
  }

  /** A start holds its recording since its insert. */
  lemma InsertedFrom(s: State, t: Tid, c: Choice, r: RecId)
    requires TouchedBy(s, PcOf(s, t)) <= s.table.recs.Keys && PcOf(s, t) != Idle && InsertedBy(PcOf(Step(s, t, c), t)) == Some(r)
    ensures InsertedBy(PcOf(s, t)) == Some(r) || (PcOf(s, t) == Allocated(r) && !Busy(s.table, s.table.recs[r].key))
    ensures InsertedBy(PcOf(s, t)) == Some(r) ==> KeyMoved(s, PcOf(s, t)) == None
  {
    var pc := PcOf(s, t);
    if InStart(pc) { StartInsertedFrom(s, t, pc, c, r); }
    else if InDirection(pc) { DirectionInsertsNone(s, t, pc, c); }
    else if !pc.Tearing? { StopInsertsNone(s, t, pc, c); }
  }

  lemma StartInsertedFrom(s: State, t: Tid, pc: PC, c: Choice, r: RecId)
    requires InStart(pc) && TouchedBy(s, pc) <= s.table.recs.Keys && InsertedBy(PcOf(StepStart(s, t, pc, c), t)) == Some(r)
    ensures InsertedBy(pc) == Some(r) || (pc == Allocated(r) && !Busy(s.table, s.table.recs[r].key))
    ensures InsertedBy(pc) == Some(r) ==> KeyMoved(s, pc) == None
  {
  }

  lemma DirectionInsertsNone(s: State, t: Tid, pc: PC, c: Choice)
    requires InDirection(pc) && TouchedBy(s, pc) <= s.table.recs.Keys
    ensures InsertedBy(PcOf(StepDirection(s, t, pc, c), t)) == None
  {
  }

  lemma StopInsertsNone(s: State, t: Tid, pc: PC, c: Choice)
    requires !InStart(pc) && !InDirection(pc) && !pc.Tearing? && pc != Idle && TouchedBy(s, pc) <= s.table.recs.Keys
    requires PcOf(s, t) == pc
    ensures InsertedBy(PcOf(StepStop(s, t, pc, c), t)) == None
  {
  }

  lemma OtherStartHashed(s: State, us: set<string>, a: Action, u: Tid, call: string)
    requires Good(s) && NamesOk(s, us) && Exclusive(s, call) && Enabled(s, a) && Touched(s, a) <= s.table.recs.Keys
    requires PcOf(Effect(s, a), u) == PcOf(s, u) && (a.Run? ==> a.t != u) && StartHashed(s, PcOf(s, u), call)
    ensures StartHashed(Effect(s, a), PcOf(s, u), call)
  {
    var s', r := Effect(s, a), InsertedBy(PcOf(s, u));
    if r.Some? && RecFor(s', r.value, call) {
      EntriesLive(s, a);
      InsertedIsPinned(PcOf(s, u));
      PinnedIsLive(s, u, r.value);
      if a.Run? {
        StepHandlers(s, a.t, a.c);
        HashMovesOneKey(s, PcOf(s, a.t));
        KeyIsSafe(s, us, a.t, u, r.value, call);
      } else { OtherHandlers(s, a); }
    }
  }

  /** A start that inserts is in flight. */
  lemma InserterStarts(s: State, a: Action, call: string)
    requires Good(s) && Enabled(s, a) && Touched(s, a) <= s.table.recs.Keys && Inserts(s, a, call)
    ensures Starting(Effect(s, a), PcOf(Effect(s, a), a.t), call)
  {
    InsertStarts(s, a.t, PcOf(s, a.t).r, call);
  }

  lemma InsertStarts(s: State, t: Tid, r: RecId, call: string)
    requires RecFor(s, r, call) && AtKey(s, s.table.recs[r].key) <= s.table.recs.Keys
    requires !Busy(s.table, s.table.recs[r].key)
    ensures Starting(StepInsert(s, t, r), PcOf(StepInsert(s, t, r), t), call)
  {
    InsertBindsNext(s, t, r);
    assert StepInsert(s, t, r).table.recs[r].uuid == call;
  }

  /** No recording of the call gets into the hash while another thread stops or unloads it. */
  lemma NoNewEntry(s: State, a: Action, u: Tid, k: string, call: string)
    requires Good(s) && Enabled(s, a) && Touched(s, a) <= s.table.recs.Keys && Exclusive(Effect(s, a), call)
    requires PcOf(Effect(s, a), u) == PcOf(s, u) && (a.Run? ==> a.t != u)
    requires Starting(Effect(s, a), PcOf(s, u), call) || Stopping(PcOf(s, u), call)
    ensures HashedFor(Effect(s, a).table, k, call) ==> HashedFor(s.table, k, call)
  {
    if HashedFor(Effect(s, a).table, k, call) && !HashedFor(s.table, k, call) {
      NewEntryIsInsert(s, a, k, call);
      InserterStarts(s, a, call);
    }
  }

  lemma OtherUnbindSafe(s: State, a: Action, u: Tid, call: string)
    requires Good(s) && Enabled(s, a) && Touched(s, a) <= s.table.recs.Keys && Exclusive(Effect(s, a), call)
    requires PcOf(Effect(s, a), u) == PcOf(s, u) && (a.Run? ==> a.t != u) && UnbindSafe(s, PcOf(s, u), call)
    ensures UnbindSafe(Effect(s, a), PcOf(s, u), call)
  {
    var pc := PcOf(s, u);
    if pc.HandlerUnbind? && pc.call == call {
      forall k ensures !HashedFor(Effect(s, a).table, k, call) { assert !HashedFor(s.table, k, call); NoNewEntry(s, a, u, k, call); }
    }
  }

  lemma OtherDrainSure(s: State, a: Action, u: Tid, call: string)
    requires Good(s) && Enabled(s, a) && Touched(s, a) <= s.table.recs.Keys && Exclusive(Effect(s, a), call)
    requires PcOf(Effect(s, a), u) == PcOf(s, u) && (a.Run? ==> a.t != u) && DrainSure(s, PcOf(s, u), call)
    ensures DrainSure(Effect(s, a), PcOf(s, u), call)
  {
    var pc := PcOf(s, u);
    if DrainOf(pc).Some? && Matched(DrainOf(pc).value.call, call) && DrainOf(pc).value.lastScan {
      assert Stopping(pc, call);
      forall k | HashedFor(Effect(s, a).table, k, call) ensures KeyPending(DrainOf(pc).value, k) { NoNewEntry(s, a, u, k, call); }
    }
  }

  lemma ScanUnbindSafe(s: State, t: Tid, pc: PC, call: string)
    requires pc.HandlerScan? && pc.call == call && s.table.hash.Values <= s.table.recs.Keys
    ensures UnbindSafe(StepHandlerScan(s, t, call, pc.start), PcOf(StepHandlerScan(s, t, call, pc.start), t), call)
  {
  }

  lemma OwnUnbindSafe(s: State, t: Tid, c: Choice, call: string)
    requires TouchedBy(s, PcOf(s, t)) <= s.table.recs.Keys && PcOf(s, t) != Idle
    ensures UnbindSafe(Step(s, t, c), PcOf(Step(s, t, c), t), call)
  {
    var pc := PcOf(s, t);
    if pc.HandlerScan? && pc.call == call { ScanUnbindSafe(s, t, pc, call); }
    else if InStart(pc) { StartNoUnbind(s, t, pc, c); }
    else if InDirection(pc) { DirectionNoUnbind(s, t, pc, c); }
    else if !pc.Tearing? { StopUnbinds(s, t, pc, c, call); }
  }

  lemma StartNoUnbind(s: State, t: Tid, pc: PC, c: Choice)
    requires InStart(pc) && TouchedBy(s, pc) <= s.table.recs.Keys
    ensures !PcOf(StepStart(s, t, pc, c), t).HandlerUnbind?
  {
  }

  lemma DirectionNoUnbind(s: State, t: Tid, pc: PC, c: Choice)
    requires InDirection(pc) && TouchedBy(s, pc) <= s.table.recs.Keys
    ensures !PcOf(StepDirection(s, t, pc, c), t).HandlerUnbind?
  {
  }

  lemma StopUnbinds(s: State, t: Tid, pc: PC, c: Choice, call: string)
    requires !InStart(pc) && !InDirection(pc) && !pc.Tearing? && pc != Idle && TouchedBy(s, pc) <= s.table.recs.Keys
    requires !(pc.HandlerScan? && pc.call == call)
    ensures var pc' := PcOf(StepStop(s, t, pc, c), t); !(pc'.HandlerUnbind? && pc'.call == call)
  {
  }

  lemma ScanSure(s: State, t: Tid, d: Drain, batch: seq<string>, call: string)
    requires s.table.hash.Values <= s.table.recs.Keys && NoDangling(s.table) && ValidBatch(s.table, d.call, batch)
    requires PcOf(s, t) == Scanning(d)
    ensures DrainSure(StepScan(s, t, d, batch), PcOf(StepScan(s, t, d, batch), t), call)
  {
    var s' := StepScan(s, t, d, batch);
    var d' := PcOf(s', t).d;
    if d'.lastScan && Matched(d.call, call) {
      forall k | HashedFor(s'.table, k, call) ensures KeyPending(d', k) {
        assert k in MatchingKeys(s.table, d.call);
        var i :| 0 <= i < |batch| && batch[i] == k;
        assert d'.pending[i].0 == k;
      }
    }
  }

  lemma ClaimSure(s: State, t: Tid, d: Drain, call: string)
    requires d.pending != [] && AtKey(s, d.pending[0].0) <= s.table.recs.Keys && PcOf(s, t) == Draining(d)
    requires DrainSure(s, Draining(d), call) && NamesKept(s, StepDrain(s, t, d))
    requires forall k :: k in s.table.hash ==> s.table.hash[k] in s.table.recs
    ensures DrainSure(StepDrain(s, t, d), PcOf(StepDrain(s, t, d), t), call)
  {
    var s', d' := StepDrain(s, t, d), d.(pending := d.pending[1..]);
    DrainLeft(s, t, d);
    DrainHandlers(s, t, d);
    if Matched(d.call, call) && d.lastScan {
      forall k | HashedFor(s'.table, k, call) ensures KeyPending(d', k) {
        assert HashedFor(s.table, k, call);
        var i :| 0 <= i < |d.pending| && d.pending[i].0 == k;
        assert d'.pending[i - 1].0 == k;
      }
    }
  }

  lemma DrainLeft(s: State, t: Tid, d: Drain)
    requires d.pending != [] && AtKey(s, d.pending[0].0) <= s.table.recs.Keys
    ensures DrainOf(PcOf(StepDrain(s, t, d), t)) == Some(d.(pending := d.pending[1..]))
  {
  }

  lemma OwnDrainSure(s: State, t: Tid, c: Choice, call: string)
    requires Good(s) && Enabled(s, Run(t, c)) && TouchedBy(s, PcOf(s, t)) <= s.table.recs.Keys
    requires DrainSure(s, PcOf(s, t), call)
    ensures DrainSure(Step(s, t, c), PcOf(Step(s, t, c), t), call)
  {
    var pc, s' := PcOf(s, t), Step(s, t, c);
    EntriesLive(s, Run(t, c));
    assert Effect(s, Run(t, c)) == s';
    if InStart(pc) { StartsNoDrain(s, t, pc, c); }
    else if InDirection(pc) { DirectionsNoDrain(s, t, pc, c); }
    else if pc.Scanning? { ScanSure(s, t, pc.d, c.batch, call); }
    else if pc.Draining? && pc.d.pending != [] { ClaimSure(s, t, pc.d, call); }
    else if DrainOf(PcOf(s', t)).Some? {
      SameDrain(s, t, c);
      StepHandlers(s, t, c);
      forall k | HashedFor(s'.table, k, call) ensures HashedFor(s.table, k, call) { EntryStays(s, s', k, call); }
    }
  }

  lemma BeginSafe(s: State, a: Action, call: string)
    requires Enabled(s, a) && (a.BeginStart? || a.BeginDirection? || a.BeginStop? || a.BeginDrain? || a.BeginLegEnd?)
    ensures PcSafe(Effect(s, a), PcOf(Effect(s, a), a.t), call)
  {
    var pc := PcOf(Effect(s, a), a.t);
    assert InsertedBy(pc) == None && DrainOf(pc) == None && !pc.HandlerUnbind?;
  }

  lemma PcSafeNext(s: State, us: set<string>, a: Action, u: Tid, call: string)
    requires Good(s) && NamesOk(s, us) && Enabled(s, a) && Touched(s, a) <= s.table.recs.Keys
    requires Exclusive(s, call) && Exclusive(Effect(s, a), call) && PcSafe(s, PcOf(s, u), call)
    ensures PcSafe(Effect(s, a), PcOf(Effect(s, a), u), call)
  {
    if a.Run? && a.t == u {
      OwnStartHashed(s, u, a.c, call);
      OwnUnbindSafe(s, u, a.c, call);
      OwnDrainSure(s, u, a.c, call);
    } else if (a.BeginStart? || a.BeginDirection? || a.BeginStop? || a.BeginDrain? || a.BeginLegEnd?) && a.t == u {
      BeginSafe(s, a, call);
    } else {
      OthersStand(s, a, u);
      OtherStartHashed(s, us, a, u, call);
      OtherUnbindSafe(s, a, u, call);
      OtherDrainSure(s, a, u, call);
    }
  }

  /** An unload's step leaves it an unload, unless it was its last. */
  lemma UnloadGoesOn(s: State, t: Tid, c: Choice)
    requires TouchedBy(s, PcOf(s, t)) <= s.table.recs.Keys && PcOf(s, t) != Idle && Unloading(PcOf(s, t))
    requires !(PcOf(s, t).Draining? && PcOf(s, t).d.pending == [] && PcOf(s, t).d.lastScan)
    ensures Unloading(PcOf(Step(s, t, c), t))
  {
    var pc := PcOf(s, t);
    if pc.Draining? { DrainGoesOn(s, t, pc.d); }
    else if pc.Tearing? { TearGoesOn(s, t, pc, c); }
  }

  lemma DrainGoesOn(s: State, t: Tid, d: Drain)
    requires d.pending != [] ==> AtKey(s, d.pending[0].0) <= s.table.recs.Keys
    requires d.unbind && !(d.pending == [] && d.lastScan)
    ensures Unloading(PcOf(StepDrain(s, t, d), t))
  {
  }

  lemma TearGoesOn(s: State, t: Tid, pc: PC, c: Choice)
    requires pc.Tearing? && pc.victim in s.table.recs && Unloading(pc)
    ensures Unloading(PcOf(StepTear(s, t, pc.victim, pc.step, pc.next, c), t))
  {
  }

  lemma UnloadCarries(s: State, us: set<string>, a: Action, u: Tid, call: string, r: RecId)
    requires Good(s) && NamesOk(s, us) && PcSafe(s, PcOf(s, u), call) && Enabled(s, a) && Touched(s, a) <= s.table.recs.Keys
    requires Unloading(PcOf(s, u)) && Hashed(s.table, r) && RecFor(s, r, call)
    ensures Unloading(PcOf(Effect(s, a), u))
  {
    if a.Run? && a.t == u {
      assert PcWell(PcOf(s, u), us);
      assert HashedFor(s.table, s.table.recs[r].key, call);
      UnloadGoesOn(s, u, a.c);
    }
    else if (a.BeginStart? || a.BeginDirection? || a.BeginStop? || a.BeginDrain? || a.BeginLegEnd?) && a.t == u { }
    else { OthersStand(s, a, u); }
  }

  lemma EntryOkNext(s: State, us: set<string>, a: Action, call: string, r: RecId)
    requires Good(s) && NamesOk(s, us) && SerialOk(s, call) && Enabled(s, a) && Touched(s, a) <= s.table.recs.Keys
    ensures EntryOk(Effect(s, a), call, r)
  {
    var s' := Effect(s, a);
    if Hashed(s'.table, r) && RecFor(s', r, call) && call !in s'.bound {
      HashCarries(s, a, call, r);
      assert EntryOk(s, call, r);
      if Hashed(s.table, r) && call in s.bound { UnboundByUnload(s, us, a, call, r); }
      else if Hashed(s.table, r) && !SomeBindsNext(s, r) {
        var u: Tid :| Unloading(PcOf(s, u));
        assert PcSafe(s, PcOf(s, u), call);
        UnloadCarries(s, us, a, u, call, r);
      }
    }
  }

  /** A handler that goes while a recording of the call is hashed goes to an unload. */
  lemma UnboundByUnload(s: State, us: set<string>, a: Action, call: string, r: RecId)
    requires Good(s) && NamesOk(s, us) && SerialOk(s, call) && Unbinds(s, a, call)
    requires Enabled(s, a) && Touched(s, a) <= s.table.recs.Keys && Hashed(s.table, r) && RecFor(s, r, call)
    ensures SomeUnload(Effect(s, a))
  {
    var pc := PcOf(s, a.t);
    assert PcSafe(s, pc, call) && PcWell(pc, us);
    assert HashedFor(s.table, s.table.recs[r].key, call);
    UnloadGoesOn(s, a.t, a.c);
    assert Unloading(PcOf(Effect(s, a), a.t));
  }

  lemma EffectSerialOk(s: State, us: set<string>, a: Action, call: string)
    requires Good(s) && NamesOk(s, us) && SerialOk(s, call) && Enabled(s, a) && Touched(s, a) <= s.table.recs.Keys
    requires Exclusive(s, call) && Exclusive(Effect(s, a), call)
    ensures SerialOk(Effect(s, a), call)
  {
    forall u: Tid ensures PcSafe(Effect(s, a), PcOf(Effect(s, a), u), call) {
      assert PcSafe(s, PcOf(s, u), call);
      PcSafeNext(s, us, a, u, call);
    }
    forall r: RecId ensures EntryOk(Effect(s, a), call, r) { EntryOkNext(s, us, a, call, r); }
  }

  lemma ExclusivePrefix(acts: seq<Action>, m: nat, call: string)
    requires ExclusiveRun(acts, call) && m <= |acts|
    ensures ExclusiveRun(acts[..m], call)
  {
    forall i | 0 <= i <= m ensures Exclusive(Exec(acts[..m][..i]), call) { assert acts[..m][..i] == acts[..i]; }
  }

  lemma {:induction false} RunsSerialOk(acts: seq<Action>, us: set<string>, call: string)
    requires NamedRun(acts, us) && ExclusiveRun(acts, call)
    ensures SerialOk(Exec(acts), call)
  {
    if acts != [] {
      var init, a := acts[..|acts| - 1], acts[|acts| - 1];
      ExclusivePrefix(acts, |acts| - 1, call);
      RunsSerialOk(init, us, call);
      RunsAreGood(init);
      RunsNamesOk(init, us);
      assert init[..|init|] == init && acts[..|acts|] == acts;
      assert Exclusive(Exec(init), call) && Exclusive(Exec(acts), call);
      if Enabled(Exec(init), a) && Touched(Exec(init), a) <= Exec(init).table.recs.Keys { EffectSerialOk(Exec(init), us, a, call); }
    }
  }

  /** None of the call's starts, stops and drains, and no unload, is at work. */
  ghost predicate Settled(s: State, call: string) {
    forall t: Tid :: !Starting(s, PcOf(s, t), call) && !Stopping(PcOf(s, t), call)
  }

  lemma SettledHasNonePending(s: State, us: set<string>, call: string)
    requires NamesOk(s, us) && Settled(s, call)
    ensures !SomePending(s, call)
  {
    forall t: Tid ensures !Pending(PcOf(s, t), call) {
      assert PcWell(PcOf(s, t), us);
      assert !Starting(s, PcOf(s, t), call) && !Stopping(PcOf(s, t), call);
    }
  }

  /** A call that has not hung up holds the module's hangup handler if and only if a recording of it is hashed. */
  lemma HandlersFollowRecordings(acts: seq<Action>, us: set<string>, call: string)
    requires NamedRun(acts, us) && NotHungUp(acts, call) && ExclusiveRun(acts, call) && Settled(Exec(acts), call)
    ensures call in Exec(acts).bound <==> HasRecording(Exec(acts).table, call)
  {
    var s := Exec(acts);
    RunsNamesOk(acts, us);
    RunsSerialOk(acts, us, call);
    SettledHasNonePending(s, us, call);
    BoundInVainIff(acts, us, call);
    if m: nat :| StrandedBy(acts, m, call) { NeverLate(acts, us, m, call); }
    RunsAreGood(acts);
    HashKeys(s);
    if HasRecording(s.table, call) { HashedIsBound(s, us, call); }
  }

  lemma HashedIsBound(s: State, us: set<string>, call: string)
    requires NamesOk(s, us) && SerialOk(s, call) && Settled(s, call) && HasRecording(s.table, call)
    requires forall k :: k in s.table.hash ==> s.table.hash[k] in s.table.recs && s.table.recs[s.table.hash[k]].key == k
    ensures call in s.bound
  {
    var k :| HashedFor(s.table, k, call);
    var r := s.table.hash[k];
    assert EntryOk(s, call, r);
    forall u: Tid ensures !BindsNext(PcOf(s, u), r) && !Unloading(PcOf(s, u)) {
      assert PcWell(PcOf(s, u), us) && !Starting(s, PcOf(s, u), call) && !Stopping(PcOf(s, u), call);
    }
  }

  /** In such runs no start binds late. */
  lemma NeverLate(acts: seq<Action>, us: set<string>, m: nat, call: string)
    requires NamedRun(acts, us) && ExclusiveRun(acts, call) && m < |acts|
    ensures !BindsLate(Exec(acts[..m]), acts[m], call)
  {
    var s, a := Exec(acts[..m]), acts[m];
    ExclusivePrefix(acts, m, call);
    RunsSerialOk(acts[..m], us, call);
    if Binds(s, a, call) {
      assert PcSafe(s, PcOf(s, a.t), call);
      HashedIsEntry(s, PcOf(s, a.t).r, call);
    }
  }
}
