/** What the steps of the protocol do to the hash and to the calls that hold this module's hangup handler. */
module ProtocolHandlers {
  import opened Common
  import opened RecordingKey
  import opened RecordingTable
  import opened RecordingProtocol
  import opened ProtocolOwnership
  import opened ProtocolRuns
  import opened ProtocolOutcomes
  import opened ProtocolDrain

  // ---- the hash and the handlers after a step ----

  /** The hash after the next step of a thread at `pc`. */
  ghost function HashAfter(s: State, pc: PC): map<string, RecId>
    requires TouchedBy(s, pc) <= s.table.recs.Keys
  {
    match pc
    case Allocated(r) =>
      if Busy(s.table, s.table.recs[r].key) then s.table.hash else s.table.hash[s.table.recs[r].key := r]
    case Discarding(r) => if Hashed(s.table, r) then s.table.hash - {s.table.recs[r].key} else s.table.hash
    case Claiming(key, _) => s.table.hash - {key}
    case Draining(d) => if d.pending == [] then s.table.hash else s.table.hash - {d.pending[0].0}
    case _ => s.table.hash
  }

  ghost function BoundAfter(s: State, pc: PC): set<string>
    requires TouchedBy(s, pc) <= s.table.recs.Keys
  {
    match pc
    case Binding(r) => s.bound + {s.table.recs[r].uuid}
    case HandlerUnbind(call, _) => s.bound - {call}
    case DrainUnbinding(_, call) => s.bound - {call}
    case _ => s.bound
  }

  lemma StartHandlers(s: State, t: Tid, pc: PC, c: Choice)
    requires InStart(pc) && TouchedBy(s, pc) <= s.table.recs.Keys
    ensures var s' := StepStart(s, t, pc, c); s'.table.hash == HashAfter(s, pc) && s'.bound == BoundAfter(s, pc)
  {
    match pc
    case Allocated(r) => InsertHandlers(s, t, r);
    case Discarding(r) => DiscardHandlers(s, t, r);
    case Finishing(r) => FinishHandlers(s, t, r);
    case Inviting(r) => assert StepStart(s, t, pc, c) == StepInvite(s, t, r, c);
    case Attaching(r) => assert StepStart(s, t, pc, c) == StepAttach(s, t, r, c);
    case _ =>
  }

  lemma InsertHandlers(s: State, t: Tid, r: RecId)
    requires r in s.table.recs && AtKey(s, s.table.recs[r].key) <= s.table.recs.Keys
    ensures var s' := StepInsert(s, t, r); s'.table.hash == HashAfter(s, Allocated(r)) && s'.bound == s.bound
  {
  }

  lemma DiscardHandlers(s: State, t: Tid, r: RecId)
    requires r in s.table.recs
    ensures var s' := StepDiscard(s, t, r); s'.table.hash == HashAfter(s, Discarding(r)) && s'.bound == s.bound
  {
  }

  lemma FinishHandlers(s: State, t: Tid, r: RecId)
    requires r in s.table.recs
    ensures StepFinish(s, t, r).table.hash == s.table.hash && StepFinish(s, t, r).bound == s.bound
  {
  }

  lemma DirectionHandlers(s: State, t: Tid, pc: PC, c: Choice)
    requires InDirection(pc) && TouchedBy(s, pc) <= s.table.recs.Keys
    ensures var s' := StepDirection(s, t, pc, c); s'.table.hash == HashAfter(s, pc) && s'.bound == BoundAfter(s, pc)
  {
    if pc.Reinviting? { ReinviteHandlers(s, t, pc, c); }
  }

  lemma ReinviteHandlers(s: State, t: Tid, pc: PC, c: Choice)
    requires pc.Reinviting? && pc.r in s.table.recs
    ensures StepReinvite(s, t, pc, c).table.hash == s.table.hash && StepReinvite(s, t, pc, c).bound == s.bound
  {
  }

  lemma StopHandlers(s: State, t: Tid, pc: PC, c: Choice)
    requires !InStart(pc) && !InDirection(pc) && !pc.Tearing? && TouchedBy(s, pc) <= s.table.recs.Keys
    ensures var s' := StepStop(s, t, pc, c); s'.table.hash == HashAfter(s, pc) && s'.bound == BoundAfter(s, pc)
  {
    match pc
    case Draining(d) => DrainHandlers(s, t, d);
    case Claiming(key, call) => ClaimHandlers(s, t, key, call);
    case _ =>
  }

  lemma DrainHandlers(s: State, t: Tid, d: Drain)
    requires d.pending != [] ==> AtKey(s, d.pending[0].0) <= s.table.recs.Keys
    ensures StepDrain(s, t, d).bound == s.bound
    ensures StepDrain(s, t, d).table.hash == if d.pending == [] then s.table.hash else s.table.hash - {d.pending[0].0}
  {
    if d.pending != [] && d.pending[0].0 !in s.table.hash { assert s.table.hash - {d.pending[0].0} == s.table.hash; }
  }

  lemma ClaimHandlers(s: State, t: Tid, key: string, call: string)
    requires AtKey(s, key) <= s.table.recs.Keys
    ensures var s' := StepClaim(s, t, key, call); s'.bound == s.bound && s'.table.hash == s.table.hash - {key}
  {
    if key !in s.table.hash { assert s.table.hash - {key} == s.table.hash; }
  }

  lemma StepHandlers(s: State, t: Tid, c: Choice)
    requires TouchedBy(s, PcOf(s, t)) <= s.table.recs.Keys
    ensures Step(s, t, c).table.hash == HashAfter(s, PcOf(s, t)) && Step(s, t, c).bound == BoundAfter(s, PcOf(s, t))
  {
    var pc := PcOf(s, t);
    if InStart(pc) { StartHandlers(s, t, pc, c); }
    else if InDirection(pc) { DirectionHandlers(s, t, pc, c); }
    else if !pc.Tearing? { StopHandlers(s, t, pc, c); }
  }

  /** An action that is no thread's own step. */
  lemma OtherHandlers(s: State, a: Action)
    requires !a.Run? && Touched(s, a) <= s.table.recs.Keys
    ensures Effect(s, a).table.hash == s.table.hash && Effect(s, a).bound == s.bound
  {
  }

  // ---- a call's recordings ----

  /** Entries that a step leaves are still their call's. */
  lemma EntryStays(s: State, s': State, k: string, call: string)
    requires NamesKept(s, s') && k in s.table.hash && k in s'.table.hash && s'.table.hash[k] == s.table.hash[k]
    requires s.table.hash[k] in s.table.recs && s'.table.hash[k] in s'.table.recs
    ensures HashedFor(s'.table, k, call) <==> HashedFor(s.table, k, call)
  {
  }

  // ---- names ----

  ghost predicate RecNamed(rec: Rec, us: set<string>) { rec.uuid in us && NamedBy(rec.key, rec.uuid) }

  /** Every recording goes by a key of its own call. */
  ghost predicate RecsNamed(s: State, us: set<string>) { forall r :: r in s.table.recs ==> RecNamed(s.table.recs[r], us) }

  /** The drain that a thread at `pc` is in, from its first scan on. */
  ghost function DrainAt(pc: PC): Option<Drain> { if pc.Scanning? then Some(pc.d) else DrainOf(pc) }

  /** What a scan noted down: keys with the calls they name, all of them calls that the drain is for. */
  ghost predicate PendingNamed(d: Drain, us: set<string>) {
    forall i :: 0 <= i < |d.pending| ==>
      d.pending[i].1 in us && NamedBy(d.pending[i].0, d.pending[i].1)
      && (d.call.Some? ==> d.pending[i].1 == d.call.value)
  }

  ghost predicate DrainWell(d: Drain, us: set<string>) {
    (d.unbind <==> d.call.None?) && (d.thenHandler ==> d.call.Some?) && PendingNamed(d, us)
  }

  /** A stop works under a key of its own call; a drain is one of the source's three; only an unload unbinds as it goes. */
  ghost predicate PcWell(pc: PC, us: set<string>) {
    && (pc.Claiming? ==> pc.call in us && NamedBy(pc.key, pc.call))
    && (DrainAt(pc).Some? ==> DrainWell(DrainAt(pc).value, us))
    && (pc.DrainUnbinding? ==> pc.d.unbind)
    && (pc.Tearing? && pc.next.ToDrainUnbind? ==> pc.next.d.unbind)
  }

  ghost predicate NamesOk(s: State, us: set<string>) {
    TellsApart(us) && RecsNamed(s, us) && forall t: Tid :: PcWell(PcOf(s, t), us)
  }

  lemma StartWell(s: State, t: Tid, pc: PC, c: Choice, us: set<string>)
    requires InStart(pc) && TouchedBy(s, pc) <= s.table.recs.Keys
    ensures var pc' := PcOf(StepStart(s, t, pc, c), t);
      !pc'.Claiming? && DrainAt(pc') == None && PcWell(pc', us)
  {
  }

  lemma DirectionWell(s: State, t: Tid, pc: PC, c: Choice, us: set<string>)
    requires InDirection(pc) && TouchedBy(s, pc) <= s.table.recs.Keys
    ensures var pc' := PcOf(StepDirection(s, t, pc, c), t);
      !pc'.Claiming? && DrainAt(pc') == None && PcWell(pc', us)
  {
  }

  lemma TearWell(s: State, t: Tid, pc: PC, c: Choice, us: set<string>)
    requires pc.Tearing? && pc.victim in s.table.recs && PcOf(s, t) == pc && PcWell(pc, us)
    ensures PcWell(PcOf(StepTear(s, t, pc.victim, pc.step, pc.next, c), t), us)
  {
  }

  lemma DrainNextWell(s: State, t: Tid, d: Drain, us: set<string>)
    requires d.pending != [] ==> AtKey(s, d.pending[0].0) <= s.table.recs.Keys
    requires DrainWell(d, us)
    ensures PcWell(PcOf(StepDrain(s, t, d), t), us)
  {
    if d.pending != [] {
      var d' := d.(pending := d.pending[1..]);
      assert PendingNamed(d', us);
    }
  }

  lemma ScanNextWell(s: State, t: Tid, d: Drain, batch: seq<string>, us: set<string>)
    requires s.table.hash.Values <= s.table.recs.Keys && NoDangling(s.table) && ValidBatch(s.table, d.call, batch)
    requires DrainWell(d, us) && RecsNamed(s, us)
    requires forall k :: k in s.table.hash ==> s.table.recs[s.table.hash[k]].key == k
    ensures PcWell(PcOf(StepScan(s, t, d, batch), t), us)
  {
    var d' := PcOf(StepScan(s, t, d, batch), t).d;
    forall i | 0 <= i < |d'.pending|
      ensures d'.pending[i].1 in us && NamedBy(d'.pending[i].0, d'.pending[i].1)
      ensures d.call.Some? ==> d'.pending[i].1 == d.call.value
    {
      assert batch[i] in MatchingKeys(s.table, d.call);
      assert RecNamed(s.table.recs[s.table.hash[batch[i]]], us);
    }
  }

  lemma StopWell(s: State, t: Tid, pc: PC, c: Choice, us: set<string>)
    requires Inv(s) && Enabled(s, Run(t, c)) && PcOf(s, t) == pc && RecsNamed(s, us) && PcWell(pc, us)
    requires !InStart(pc) && !InDirection(pc) && !pc.Tearing? && TouchedBy(s, pc) <= s.table.recs.Keys
    ensures PcWell(PcOf(StepStop(s, t, pc, c), t), us)
  {
    match pc
    case Draining(d) => DrainNextWell(s, t, d, us);
    case Scanning(d) => HashKeys(s); ScanNextWell(s, t, d, c.batch, us);
    case _ => HandlerNextWell(s, t, pc, c, us);
  }

  lemma HandlerNextWell(s: State, t: Tid, pc: PC, c: Choice, us: set<string>)
    requires PcOf(s, t) == pc && pc != Idle && PcWell(pc, us)
    requires !InStart(pc) && !InDirection(pc) && !pc.Tearing? && !pc.Draining? && !pc.Scanning?
    requires TouchedBy(s, pc) <= s.table.recs.Keys
    ensures PcWell(PcOf(StepStop(s, t, pc, c), t), us)
  {
  }

  lemma StepWell(s: State, t: Tid, c: Choice, us: set<string>)
    requires Inv(s) && Enabled(s, Run(t, c)) && RecsNamed(s, us) && PcWell(PcOf(s, t), us)
    requires TouchedBy(s, PcOf(s, t)) <= s.table.recs.Keys
    ensures PcWell(PcOf(Step(s, t, c), t), us)
  {
    var pc := PcOf(s, t);
    if InStart(pc) { StartWell(s, t, pc, c, us); }
    else if InDirection(pc) { DirectionWell(s, t, pc, c, us); }
    else if pc.Tearing? { TearWell(s, t, pc, c, us); }
    else { StopWell(s, t, pc, c, us); }
  }

  /** The uuids an action brings in are among `us`. */
  ghost predicate Uses(a: Action, us: set<string>) {
    (a.BeginStart? ==> a.uuid in us) && (a.BeginStop? ==> a.uuid in us)
  }

  lemma BeginWell(s: State, a: Action, us: set<string>)
    requires Enabled(s, a) && Uses(a, us)
    requires a.BeginStart? || a.BeginDirection? || a.BeginStop? || a.BeginDrain? || a.BeginLegEnd?
    ensures Effect(s, a) == s || PcWell(PcOf(Effect(s, a), a.t), us)
    ensures RecsNamed(s, us) ==> RecsNamed(Effect(s, a), us)
  {
  }

  lemma EffectNamesOk(s: State, a: Action, us: set<string>)
    requires Good(s) && NamesOk(s, us) && Enabled(s, a) && Touched(s, a) <= s.table.recs.Keys && Uses(a, us)
    ensures NamesOk(Effect(s, a), us)
  {
    var s' := Effect(s, a);
    if a.BeginStart? { assert PhaseOk(s, a.r); BeginWell(s, a, us); }
    else {
      EffectNames(s, a);
      forall r | r in s'.table.recs ensures RecNamed(s'.table.recs[r], us) { assert RecNamed(s.table.recs[r], us); }
    }
    forall u: Tid ensures PcWell(PcOf(s', u), us) {
      assert PcWell(PcOf(s, u), us);
      if a.Run? && a.t == u { StepWell(s, u, a.c, us); }
      else if (a.BeginStart? || a.BeginDirection? || a.BeginStop? || a.BeginDrain? || a.BeginLegEnd?) && a.t == u {
        BeginWell(s, a, us);
      }
      else { OthersStand(s, a, u); }
    }
  }

  /** Every uuid of the run is among `us`, whose calls keys tell apart. */
  ghost predicate NamedRun(acts: seq<Action>, us: set<string>) {
    TellsApart(us) && forall i :: 0 <= i < |acts| ==> Uses(acts[i], us)
  }

  lemma {:induction false} RunsNamesOk(acts: seq<Action>, us: set<string>)
    requires NamedRun(acts, us)
    ensures NamesOk(Exec(acts), us)
  {
    if acts != [] {
      var init, a := acts[..|acts| - 1], acts[|acts| - 1];
      RunsNamesOk(init, us);
      RunsAreGood(init);
      if Enabled(Exec(init), a) && Touched(Exec(init), a) <= Exec(init).table.recs.Keys { EffectNamesOk(Exec(init), a, us); }
    }
  }

  /** A key that both names a call and holds a recording leads to a recording of that call. */
  lemma KeyLeadsHome(s: State, us: set<string>, k: string, call: string)
    requires Good(s) && NamesOk(s, us) && k in s.table.hash && call in us && NamedBy(k, call)
    ensures HashedFor(s.table, k, call)
  {
    HashKeys(s);
    var rec := s.table.recs[s.table.hash[k]];
    assert RecNamed(rec, us);
    var h1: string :| k == Key(h1, call);
    var h2: string :| k == Key(h2, rec.uuid);
    KeyInjective(h1, call, h2, rec.uuid);
  }

  // ---- no step for one call touches another ----

  /** The start's recording is one of `call`. */
  ghost predicate RecFor(s: State, r: RecId, call: string) { r in s.table.recs && s.table.recs[r].uuid == call }

  /** A thread at `pc` works for `call`: a start, stop, pause or resume of it, a drain of it, or an unload. */
  ghost predicate WorksFor(s: State, pc: PC, call: string) {
    match pc
    case Idle => false
    case Allocated(r) => RecFor(s, r, call)
    case Refused(r) => RecFor(s, r, call)
    case Binding(r) => RecFor(s, r, call)
    case Preparing(r) => RecFor(s, r, call)
    case Inviting(r) => RecFor(s, r, call)
    case Attaching(r) => RecFor(s, r, call)
    case Wiring(r) => RecFor(s, r, call)
    case Finishing(r) => RecFor(s, r, call)
    case Stopped(_) => false
    case Discarding(r) => RecFor(s, r, call)
    case Dropping(_, c) => c == call
    case Acquiring(_, c, _) => c == call
    case Gating(_, c) => c == call
    case Checking(_, c, _) => c == call
    case Reinviting(_, c, _) => c == call
    case Ungating(_, c) => c == call
    case Releasing(_, c) => c == call
    case Claiming(_, c) => c == call
    case HandlerScan(c, _) => c == call
    case HandlerUnbind(c, _) => c == call
    case Scanning(d) => Matched(d.call, call)
    case Draining(d) => Matched(d.call, call)
    case DrainUnbinding(d, _) => Matched(d.call, call)
    case LegEnding(_, _) => false
    case Tearing(_, _, ToIdle) => false
    case Tearing(_, _, ToBind(r)) => RecFor(s, r, call)
    case Tearing(_, _, ToStopped(_)) => false
    case Tearing(_, _, ToScan(c, _)) => c == call
    case Tearing(_, _, ToDrain(d)) => Matched(d.call, call)
    case Tearing(_, _, ToDrainUnbind(d, _)) => Matched(d.call, call)
  }

  /** The drain is of that call, or of all. */
  predicate Matched(which: Option<string>, call: string) { which.None? || which.value == call }

  /** The call's hashed recordings and its handler are as they were. */
  ghost predicate SameFor(s: State, s': State, call: string) {
    && (forall k :: HashedFor(s.table, k, call) <==> HashedFor(s'.table, k, call))
    && (forall k :: HashedFor(s.table, k, call) ==> s'.table.hash[k] == s.table.hash[k])
    && (call in s.bound <==> call in s'.bound)
  }

  /** The key whose entry the next step of a thread at `pc` replaces or removes. */
  ghost function KeyMoved(s: State, pc: PC): Option<string>
    requires TouchedBy(s, pc) <= s.table.recs.Keys
  {
    match pc
    case Allocated(r) => if Busy(s.table, s.table.recs[r].key) then None else Some(s.table.recs[r].key)
    case Discarding(r) => if Hashed(s.table, r) then Some(s.table.recs[r].key) else None
    case Claiming(key, _) => Some(key)
    case Draining(d) => if d.pending == [] then None else Some(d.pending[0].0)
    case _ => None
  }

  /** It holds a recording of the call the thread works for. */
  lemma KeyMovedIsOwn(s: State, us: set<string>, pc: PC, call: string)
    requires Good(s) && NamesOk(s, us) && PcWell(pc, us) && TouchedBy(s, pc) <= s.table.recs.Keys
    requires KeyMoved(s, pc).Some? && HashedFor(s.table, KeyMoved(s, pc).value, call)
    ensures WorksFor(s, pc, call)
  {
    if pc.Allocated? { InsertIsOwn(s, us, pc.r, call); }
    else if pc.Claiming? { ClaimIsOwn(s, us, pc.key, pc.call, call); }
    else if pc.Draining? { DrainIsOwn(s, us, pc.d, call); }
  }

  lemma ClaimIsOwn(s: State, us: set<string>, key: string, c: string, call: string)
    requires Good(s) && NamesOk(s, us) && c in us && NamedBy(key, c) && HashedFor(s.table, key, call)
    ensures WorksFor(s, Claiming(key, c), call)
  {
    KeyLeadsHome(s, us, key, c);
  }

  lemma InsertIsOwn(s: State, us: set<string>, r: RecId, call: string)
    requires Good(s) && NamesOk(s, us) && r in s.table.recs && HashedFor(s.table, s.table.recs[r].key, call)
    ensures WorksFor(s, Allocated(r), call)
  {
    assert RecNamed(s.table.recs[r], us);
    KeyLeadsHome(s, us, s.table.recs[r].key, s.table.recs[r].uuid);
  }

  lemma DrainIsOwn(s: State, us: set<string>, d: Drain, call: string)
    requires Good(s) && NamesOk(s, us) && DrainWell(d, us) && d.pending != [] && HashedFor(s.table, d.pending[0].0, call)
    ensures WorksFor(s, Draining(d), call)
  {
    KeyLeadsHome(s, us, d.pending[0].0, d.pending[0].1);
  }

  lemma HashMovesOneKey(s: State, pc: PC)
    requires TouchedBy(s, pc) <= s.table.recs.Keys
    ensures forall k :: Some(k) != KeyMoved(s, pc) ==>
      (k in HashAfter(s, pc) <==> k in s.table.hash) && (k in s.table.hash ==> HashAfter(s, pc)[k] == s.table.hash[k])
  {
  }

  lemma StepSpares(s: State, us: set<string>, t: Tid, c: Choice, call: string)
    requires Good(s) && NamesOk(s, us) && Enabled(s, Run(t, c)) && TouchedBy(s, PcOf(s, t)) <= s.table.recs.Keys
    requires !WorksFor(s, PcOf(s, t), call)
    ensures SameFor(s, Step(s, t, c), call)
  {
    var s', pc := Step(s, t, c), PcOf(s, t);
    assert Effect(s, Run(t, c)) == s';
    StepHandlers(s, t, c);
    HashMovesOneKey(s, pc);
    EntriesLive(s, Run(t, c));
    assert PcWell(pc, us);
    forall k ensures HashedFor(s.table, k, call) <==> HashedFor(s'.table, k, call) {
      if Some(k) == KeyMoved(s, pc) { MovedSpares(s, us, t, c, k, call); }
      else if k in s.table.hash { EntryStays(s, s', k, call); }
    }
    forall k | HashedFor(s.table, k, call) ensures s'.table.hash[k] == s.table.hash[k] {
      if Some(k) == KeyMoved(s, pc) { KeyMovedIsOwn(s, us, pc, call); }
    }
    BoundSpares(s, us, pc, call);
  }

  /** Before and after a step every entry is of a live recording, and names stay. */
  lemma EntriesLive(s: State, a: Action)
    requires Good(s) && Enabled(s, a) && Touched(s, a) <= s.table.recs.Keys
    ensures NamesKept(s, Effect(s, a))
    ensures forall k :: k in s.table.hash ==> s.table.hash[k] in s.table.recs && s.table.recs[s.table.hash[k]].key == k
    ensures forall k :: k in Effect(s, a).table.hash ==> Effect(s, a).table.hash[k] in Effect(s, a).table.recs
  {
    ApplyGood(s, a);
    HashKeys(s);
    HashKeys(Effect(s, a));
    if a.BeginStart? { assert PhaseOk(s, a.r); }
    EffectNames(s, a);
  }

  lemma MovedSpares(s: State, us: set<string>, t: Tid, c: Choice, k: string, call: string)
    requires Good(s) && NamesOk(s, us) && Enabled(s, Run(t, c)) && TouchedBy(s, PcOf(s, t)) <= s.table.recs.Keys
    requires !WorksFor(s, PcOf(s, t), call) && Some(k) == KeyMoved(s, PcOf(s, t))
    ensures !HashedFor(s.table, k, call) && !HashedFor(Step(s, t, c).table, k, call)
  {
    var pc := PcOf(s, t);
    assert PcWell(pc, us);
    if HashedFor(s.table, k, call) { KeyMovedIsOwn(s, us, pc, call); }
    StepHandlers(s, t, c);
    EntriesLive(s, Run(t, c));
    if pc.Allocated? {
      OwnedIsIdle(s, t, pc.r);
      assert Step(s, t, c).table.hash[k] == pc.r;
    }
  }

  lemma BoundSpares(s: State, us: set<string>, pc: PC, call: string)
    requires PcWell(pc, us) && TouchedBy(s, pc) <= s.table.recs.Keys && !WorksFor(s, pc, call)
    ensures call in BoundAfter(s, pc) <==> call in s.bound
  {
  }

  /** In every run, a step of a thread that does not work for `call`, whatever it does for its own call, leaves the
    * hashed recordings and the handler of `call` as they were; and so does every action that is no such step. */
  lemma OtherCallsKept(acts: seq<Action>, us: set<string>, a: Action, call: string)
    requires NamedRun(acts, us) && (a.Run? ==> !WorksFor(Exec(acts), PcOf(Exec(acts), a.t), call))
    ensures SameFor(Exec(acts), Apply(Exec(acts), a), call)
  {
    RunsAreGood(acts);
    RunsNamesOk(acts, us);
    ActionSpares(Exec(acts), us, a, call);
  }

  lemma ActionSpares(s: State, us: set<string>, a: Action, call: string)
    requires Good(s) && NamesOk(s, us) && (a.Run? ==> !WorksFor(s, PcOf(s, a.t), call))
    ensures SameFor(s, Apply(s, a), call)
  {
    if Enabled(s, a) && Touched(s, a) <= s.table.recs.Keys {
      if a.Run? { StepSpares(s, us, a.t, a.c, call); }
      else {
        OtherHandlers(s, a);
        EntriesLive(s, a);
        forall k ensures HashedFor(s.table, k, call) <==> HashedFor(Effect(s, a).table, k, call) {
          if k in s.table.hash { EntryStays(s, Effect(s, a), k, call); }
        }
      }
    }
  }
}
