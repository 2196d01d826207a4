/** The recording lifetime protocol as a step system.
  *
  * Any number of threads run siprec, siprec_pause, siprec_resume, siprec_stop,
  * the call's hangup handler, the recording leg's hangup handler and module
  * unload. One step is one hold of recordings_mutex, or one piece of the
  * unlocked work between two holds. What FreeSWITCH and the network answer is
  * the step's `Choice`.
  *
  * What a step may do does not depend on which recordings are still alive: a
  * step that dereferences a recording whose pool was freed is a `Faults` step,
  * so "no use after free" is a theorem about runs and not a premise. */
module RecordingProtocol {
  import opened Common
  import opened RecordingTable
  import opened RecordingKey

  /** Where a recording is in its life. A history variable: the C struct does not hold it. */
  datatype Phase = Unborn | Private | InHash | Retired | Detached | Byed | Freed

  datatype TearStep = DoDetach | DoBye | DoFree

  /** One pass of drain_recordings. `lastScan` says the latest scan came back short. What it saw and how long
    * the log was then (`seen`, `scanAt`) are history. */
  datatype Drain = Drain(call: Option<string>, unbind: bool, thenHandler: bool,
                         lastScan: bool, seen: set<RecId>, scanAt: nat, pending: seq<(string, string)>)

  /** What a thread does once its teardown_recording returns. */
  datatype After =
    | ToIdle
    | ToBind(r: RecId)
    | ToStopped(was: RecId)
    | ToScan(call: string, start: Option<RecId>)
    | ToDrain(d: Drain)
    | ToDrainUnbind(d: Drain, call: string)

  function Then(next: After): PC {
    match next
    case ToIdle => Idle
    case ToBind(r) => Binding(r)
    case ToStopped(r) => Stopped(r)
    case ToScan(call, start) => HandlerScan(call, start)
    case ToDrain(d) => Draining(d)
    case ToDrainUnbind(d, call) => DrainUnbinding(d, call)
  }

  /** Where a thread stands, with the recordings it still refers to. */
  datatype PC =
    | Idle
    // start_recording_session
    | Allocated(r: RecId)
    | Refused(r: RecId)
    | Binding(r: RecId)
    | Preparing(r: RecId)
    | Inviting(r: RecId)
    | Attaching(r: RecId)
    | Wiring(r: RecId)
    | Finishing(r: RecId)
    | Stopped(was: RecId)
    | Discarding(r: RecId)
    | Dropping(r: RecId, call: string)
    // siprec_change_direction
    | Acquiring(key: string, call: string, resume: bool)
    | Gating(r: RecId, call: string)
    | Checking(r: RecId, call: string, resume: bool)
    | Reinviting(r: RecId, call: string, resume: bool)
    | Ungating(r: RecId, call: string)
    | Releasing(r: RecId, call: string)
    // stop paths
    | Claiming(key: string, call: string)
    | HandlerScan(call: string, start: Option<RecId>)
    | HandlerUnbind(call: string, start: Option<RecId>)
    | Scanning(d: Drain)
    | Draining(d: Drain)
    | DrainUnbinding(d: Drain, call: string)
    | LegEnding(key: string, leg: string)
    // teardown_recording
    | Tearing(victim: RecId, step: TearStep, next: After)

  datatype Event =
    | Alloc(r: RecId, call: string) | Insert(r: RecId) | Unhash(r: RecId)
    | Answer(r: RecId, leg: string) | Attach(r: RecId) | Close(r: RecId)
    | TickBegin(r: RecId) | Send(r: RecId) | TickEnd(r: RecId)
    | Passed(t: Tid) | Reinvited(t: Tid, r: RecId) | Gate(t: Tid, r: RecId) | Ungate(t: Tid, r: RecId)
    | Mark(r: RecId, leg: string)
    | Detach(r: RecId) | Bye(r: RecId) | Free(r: RecId)
    | Outcome(t: Tid, r: RecId, st: Status)
    | Drained(t: Tid)

  /** The media bug on the call. It lives in the call's session, outside the recording's pool. */
  datatype Bug = Bug(paused: bool, ticking: bool)

  datatype State = State(table: Table<RecId>, phase: map<RecId, Phase>, bugs: map<RecId, Bug>,
                         legs: map<string, RecId>, bound: set<string>,
                         threads: map<Tid, PC>, log: seq<Event>)

  const INIT := State(Table(map[], map[]), map[], map[], map[], {}, map[], [])

  /** What the environment answers a step: success or not, the new leg's uuid, the scan's batch. */
  datatype Choice = Choice(yes: bool, located: bool, leg: string, batch: seq<string>)

  datatype Action =
    | BeginStart(t: Tid, r: RecId, handle: string, uuid: string)
    | BeginDirection(t: Tid, handle: string, uuid: string, resume: bool, srcEnabled: bool)
    | BeginStop(t: Tid, handle: string, uuid: string)
    | BeginDrain(t: Tid, call: Option<string>, unbind: bool, thenHandler: bool)
    | BeginLegEnd(t: Tid, key: string, leg: string)
    | Run(t: Tid, c: Choice)
    | Tick(r: RecId)      // READ_PING: check leg_gone and begin to drain the bug
    | TickSend(r: RecId)  // one RTP packet
    | TickDone(r: RecId)
    | CoreClose(r: RecId) // the core (hangup, another module) removes the bug

  function PcOf(s: State, t: Tid): PC {
    if t in s.threads then s.threads[t] else Idle
  }

  function Go(s: State, t: Tid, pc: PC): State { s.(threads := s.threads[t := pc]) }

  function Emit(s: State, e: Event): State { s.(log := s.log + [e]) }

  function WithRec(s: State, r: RecId, rec: Rec): State {
    s.(table := s.table.(recs := s.table.recs[r := rec]))
  }

  function WithPhase(s: State, r: RecId, p: Phase): State { s.(phase := s.phase[r := p]) }

  function AtKey(s: State, key: string): set<RecId> {
    if key in s.table.hash then {s.table.hash[key]} else {}
  }

  /** The recordings the next step of a thread at `pc` dereferences. */
  function TouchedBy(s: State, pc: PC): set<RecId> {
    match pc
    case Idle => {}
    case Stopped(_) => {}
    case HandlerUnbind(_, _) => {}
    case DrainUnbinding(_, _) => {}
    case Acquiring(key, _, _) => AtKey(s, key)
    case Claiming(key, _) => AtKey(s, key)
    case LegEnding(key, _) => AtKey(s, key)
    case HandlerScan(_, _) => s.table.hash.Values
    case Scanning(_) => s.table.hash.Values
    case Draining(d) => if d.pending == [] then {} else AtKey(s, d.pending[0].0)
    case Allocated(r) => {r} + if r in s.table.recs then AtKey(s, s.table.recs[r].key) else {}
    case Discarding(r) => {r}
    case Tearing(v, _, _) => {v}
    case Refused(r) => {r}
    case Binding(r) => {r}
    case Preparing(r) => {r}
    case Inviting(r) => {r}
    case Attaching(r) => {r}
    case Wiring(r) => {r}
    case Finishing(r) => {r}
    case Dropping(r, _) => {r}
    case Gating(r, _) => {r}
    case Checking(r, _, _) => {r}
    case Reinviting(r, _, _) => {r}
    case Ungating(r, _) => {r}
    case Releasing(r, _) => {r}
  }

  function Touched(s: State, a: Action): set<RecId> {
    match a
    case Run(t, _) => TouchedBy(s, PcOf(s, t))
    case Tick(r) => {r}
    case TickSend(r) => {r}
    case TickDone(r) => {r}
    case CoreClose(r) => {r}
    case _ => {}
  }

  /** A batch of one scan: distinct matching keys, in any order, as many as fit. */
  ghost predicate ValidBatch(tb: Table<RecId>, call: Option<string>, batch: seq<string>)
    requires NoDangling(tb)
  {
    var keys := MatchingKeys(tb, call);
    && (forall i, j :: 0 <= i < j < |batch| ==> batch[i] != batch[j])
    && (forall k :: k in batch ==> k in keys)
    && (|batch| < DRAIN_BATCH ==> forall k :: k in keys ==> k in batch)
    && |batch| <= DRAIN_BATCH
  }

  /** What the environment may do. It says nothing about which recordings are still alive. */
  ghost predicate Enabled(s: State, a: Action) {
    match a
    case BeginStart(t, r, _, _) => PcOf(s, t) == Idle && r !in s.phase
    case BeginDirection(t, _, _, _, _) => PcOf(s, t) == Idle
    case BeginStop(t, _, _) => PcOf(s, t) == Idle
    case BeginDrain(t, call, unbind, thenHandler) =>
      // a hangup, siprec_stop without a handle, or an unload
      PcOf(s, t) == Idle && (thenHandler ==> call.Some?) && (unbind <==> call.None?)
    case BeginLegEnd(t, _, _) => PcOf(s, t) == Idle
    case Run(t, c) =>
      (match PcOf(s, t)
       case Idle => false
       case Inviting(_) => c.yes ==> c.leg != "" && c.leg !in s.legs
       case Tearing(v, DoDetach, _) => v in s.bugs ==> !s.bugs[v].ticking // bug_remove waits for the callback
       case Scanning(d) => NoDangling(s.table) ==> ValidBatch(s.table, d.call, c.batch)
       case _ => true)
    case Tick(r) => r in s.bugs && !s.bugs[r].paused && !s.bugs[r].ticking
    case TickSend(r) => r in s.bugs && s.bugs[r].ticking
    case TickDone(r) => r in s.bugs && s.bugs[r].ticking
    case CoreClose(r) => r in s.bugs && !s.bugs[r].ticking
  }

  /** The bug pointer in the media context goes NULL (SWITCH_ABC_TYPE_CLOSE). */
  function Closing(s: State, r: RecId): State
    requires r in s.table.recs
  {
    var rec := s.table.recs[r];
    var media := match rec.media
      case Adding(_) => Adding(false)
      case Wired(_) => Wired(false)
      case m => m;
    Emit(WithRec(s, r, rec.(media := media)).(bugs := s.bugs - {r}), Close(r))
  }

  /** release_call_handler is over: back to the start that called it, if any. */
  function HandlerDone(s: State, t: Tid, start: Option<RecId>): State {
    var s' := Go(s, t, Idle);
    if start.Some? then Emit(s', Outcome(t, start.value, Failed)) else s'
  }

  function DrainDone(s: State, t: Tid, d: Drain): State {
    var s' := Emit(s, Drained(t));
    if d.thenHandler && d.call.Some? then Go(s', t, HandlerScan(d.call.value, None)) else Go(s', t, Idle)
  }

  /** release_recording at the end of an operation; `next` follows the deferred teardown. */
  function Releases(s: State, t: Tid, r: RecId, kept: PC, next: After): State
    requires r in s.table.recs
  {
    Go(s.(table := ReleaseHold(s.table, r)), t,
       if ReleaseTearsDown(s.table, r) then Tearing(r, DoDetach, next) else kept)
  }

  /** claim_recording by thread `t`: who was taken out of the hash leaves phase InHash. */
  function Claims(s: State, key: string): State
    requires key in s.table.hash ==> s.table.hash[key] in s.table.recs
  {
    var c := ClaimHold(s.table, key);
    if c.found.None? then s
    else Emit(WithPhase(s, c.found.value, Retired), Unhash(c.found.value)).(table := c.table)
  }

  function StepInsert(s: State, t: Tid, r: RecId): State
    requires r in s.table.recs && AtKey(s, s.table.recs[r].key) <= s.table.recs.Keys
  {
    if Busy(s.table, s.table.recs[r].key) then Go(s, t, Refused(r))
    else
      var stale := Stale(s.table, r);
      var s1 := if stale.Some? then Emit(WithPhase(s, stale.value, Retired), Unhash(stale.value)) else s;
      var s2 := Emit(WithPhase(s1, r, InHash), Insert(r)).(table := InsertHold(s.table, r));
      Go(s2, t, if stale.Some? then Tearing(stale.value, DoDetach, ToBind(r)) else Binding(r))
  }

  function StepInvite(s: State, t: Tid, r: RecId, c: Choice): State
    requires r in s.table.recs
  {
    if c.yes
    then Go(Emit(WithRec(s, r, s.table.recs[r].(leg := OnLeg(c.leg))).(legs := s.legs[c.leg := r]),
                 Answer(r, c.leg)), t, Attaching(r))
    else Go(s, t, Discarding(r))
  }

  function StepAttach(s: State, t: Tid, r: RecId, c: Choice): State
    requires r in s.table.recs
  {
    if c.yes
    then Go(Emit(WithRec(s, r, s.table.recs[r].(media := Adding(true))).(bugs := s.bugs[r := Bug(false, false)]),
                 Attach(r)), t, Wiring(r))
    else Go(s, t, Discarding(r))
  }

  function StepWire(s: State, t: Tid, r: RecId): State
    requires r in s.table.recs
  {
    var rec := s.table.recs[r];
    Go(WithRec(s, r, rec.(media := Wired(rec.media.Adding? && rec.media.bug))), t, Finishing(r))
  }

  function StepFinish(s: State, t: Tid, r: RecId): State
    requires r in s.table.recs
  {
    var s' := Releases(s, t, r, Idle, ToStopped(r));
    if ReleaseTearsDown(s.table, r) then s'
    else Emit(s', Outcome(t, r, if s.table.recs[r].doomed then Failed else Success))
  }

  function StepDiscard(s: State, t: Tid, r: RecId): State
    requires r in s.table.recs
  {
    var s1 := if Hashed(s.table, r) then Emit(WithPhase(s, r, Retired), Unhash(r)) else s;
    Go(s1.(table := DiscardHold(s.table, r)), t, Dropping(r, s.table.recs[r].uuid))
  }

  function StepAcquire(s: State, t: Tid, pc: PC): State
    requires pc.Acquiring? && AtKey(s, pc.key) <= s.table.recs.Keys
  {
    if pc.key !in s.table.hash then Go(s, t, Idle)
    else
      var r := s.table.hash[pc.key];
      Go(s.(table := AcquireHold(s.table, pc.key)), t,
         if pc.resume then Checking(r, pc.call, true) else Gating(r, pc.call))
  }

  /** siprec_media_set_paused: a no-op unless the media context is wired and its bug is on the call. */
  function SetPaused(s: State, r: RecId, paused: bool, e: Event): State
    requires r in s.table.recs
  {
    if s.table.recs[r].media == Wired(true) && r in s.bugs
    then Emit(s.(bugs := s.bugs[r := s.bugs[r].(paused := paused)]), e)
    else s
  }

  function StepReinvite(s: State, t: Tid, pc: PC, c: Choice): State
    requires pc.Reinviting? && pc.r in s.table.recs
  {
    var rec := s.table.recs[pc.r];
    var failed := Releasing(pc.r, pc.call);
    if !rec.leg.OnLeg? then Go(s, t, failed)
    else if !c.located then Go(WithRec(s, pc.r, rec.(leg := Blank)), t, failed)
    else if c.yes && pc.resume then Go(Emit(s, Reinvited(t, pc.r)), t, Ungating(pc.r, pc.call))
    else Go(s, t, failed)
  }

  function StepClaim(s: State, t: Tid, key: string, call: string): State
    requires AtKey(s, key) <= s.table.recs.Keys
  {
    var c := ClaimHold(s.table, key);
    Go(Claims(s, key), t,
       if c.found.None? then Idle
       else if c.owned then Tearing(c.found.value, DoDetach, ToScan(call, None))
       else HandlerScan(call, None))
  }

  /** release_call_handler: the scan under the lock decides whether the unlocked unbind follows. */
  function StepHandlerScan(s: State, t: Tid, call: string, start: Option<RecId>): State
    requires s.table.hash.Values <= s.table.recs.Keys
  {
    if exists k :: k in s.table.hash && s.table.recs[s.table.hash[k]].uuid == call
    then HandlerDone(s, t, start)
    else Go(s, t, HandlerUnbind(call, start))
  }

  function StepScan(s: State, t: Tid, d: Drain, batch: seq<string>): State
    requires s.table.hash.Values <= s.table.recs.Keys
  {
    var known := set k | k in batch && k in s.table.hash;
    var pending := seq(|batch|, i requires 0 <= i < |batch| =>
      (batch[i], if batch[i] in s.table.hash then s.table.recs[s.table.hash[batch[i]]].uuid else ""));
    Go(s, t, Draining(d.(lastScan := |batch| < DRAIN_BATCH, pending := pending,
                         seen := (set k | k in known :: s.table.hash[k]), scanAt := |s.log|)))
  }

  function StepDrain(s: State, t: Tid, d: Drain): State
    requires d.pending != [] ==> AtKey(s, d.pending[0].0) <= s.table.recs.Keys
  {
    if d.pending == [] then (if d.lastScan then DrainDone(s, t, d) else Go(s, t, Scanning(d)))
    else
      var c := ClaimHold(s.table, d.pending[0].0);
      var d' := d.(pending := d.pending[1..]);
      var next := if d.unbind && c.found.Some? then ToDrainUnbind(d', d.pending[0].1) else ToDrain(d');
      Go(Claims(s, d.pending[0].0), t,
         if c.owned then Tearing(c.found.value, DoDetach, next) else Then(next))
  }

  function StepLegEnd(s: State, t: Tid, key: string, leg: string): State
    requires AtKey(s, key) <= s.table.recs.Keys
  {
    var s' := Go(s.(table := LegEndedHold(s.table, key, leg)), t, Idle);
    if LegMatches(s.table, key, leg) then Emit(s', Mark(s.table.hash[key], leg)) else s'
  }

  /** siprec_media_detach; a NULL media_ctx makes it a no-op. */
  function Detaches(s: State, v: RecId): State
    requires v in s.table.recs
  {
    var rec := s.table.recs[v];
    var s' := if rec.media.Wired? then WithRec(s, v, rec.(media := Unwired)).(bugs := s.bugs - {v}) else s;
    Emit(WithPhase(s', v, Detached), Detach(v))
  }

  /** siprec_invite_send_bye: a leg that can be located is hung up and its uuid consumed. */
  function Byes(s: State, v: RecId, located: bool): State
    requires v in s.table.recs
  {
    var rec := s.table.recs[v];
    var s' := if rec.leg.OnLeg? && located then WithRec(s, v, rec.(leg := Blank)) else s;
    Emit(WithPhase(s', v, Byed), Bye(v))
  }

  function StepTear(s: State, t: Tid, v: RecId, step: TearStep, next: After, c: Choice): State
    requires v in s.table.recs
  {
    match step
    case DoDetach => Go(Detaches(s, v), t, Tearing(v, DoBye, next))
    case DoBye => Go(Byes(s, v, c.located), t, Tearing(v, DoFree, next))
    case DoFree => Go(Frees(s, v), t, Then(next))
  }

  /** switch_core_destroy_memory_pool: the recording_t goes with its pool. */
  function Frees(s: State, r: RecId): State {
    Emit(WithPhase(s, r, Freed), Free(r)).(table := s.table.(recs := s.table.recs - {r}))
  }

  predicate InStart(pc: PC) {
    || pc.Allocated? || pc.Refused? || pc.Binding? || pc.Preparing? || pc.Inviting? || pc.Attaching?
    || pc.Wiring? || pc.Finishing? || pc.Stopped? || pc.Discarding? || pc.Dropping?
  }

  predicate InDirection(pc: PC) {
    pc.Acquiring? || pc.Gating? || pc.Checking? || pc.Reinviting? || pc.Ungating? || pc.Releasing?
  }

  /** start_recording_session. */
  function StepStart(s: State, t: Tid, pc: PC, c: Choice): State
    requires InStart(pc) && TouchedBy(s, pc) <= s.table.recs.Keys
  {
    match pc
    case Allocated(r) => StepInsert(s, t, r)
    case Refused(r) => Emit(Go(Frees(s, r), t, Idle), Outcome(t, r, InUse))
    case Binding(r) => Go(s.(bound := s.bound + {s.table.recs[r].uuid}), t, Preparing(r))
    case Preparing(r) => Go(s, t, if c.yes then Inviting(r) else Discarding(r))
    case Inviting(r) => StepInvite(s, t, r, c)
    case Attaching(r) => StepAttach(s, t, r, c)
    case Wiring(r) => StepWire(s, t, r)
    case Finishing(r) => StepFinish(s, t, r)
    case Stopped(r) => Emit(Go(s, t, Idle), Outcome(t, r, Failed))
    case Discarding(r) => StepDiscard(s, t, r)
    case Dropping(r, call) => Releases(s, t, r, HandlerScan(call, Some(r)), ToScan(call, Some(r)))
  }

  /** siprec_change_direction. */
  function StepDirection(s: State, t: Tid, pc: PC, c: Choice): State
    requires InDirection(pc) && TouchedBy(s, pc) <= s.table.recs.Keys
  {
    match pc
    case Acquiring(_, _, _) => StepAcquire(s, t, pc)
    case Gating(r, call) => Go(SetPaused(s, r, true, Gate(t, r)), t, Checking(r, call, false))
    case Checking(r, call, resume) =>
      Go(s, t, if s.table.recs[r].leg.OnLeg? then Reinviting(r, call, resume) else Releasing(r, call))
    case Reinviting(_, _, _) => StepReinvite(s, t, pc, c)
    case Ungating(r, call) => Go(SetPaused(s, r, false, Ungate(t, r)), t, Releasing(r, call))
    case Releasing(r, call) => Releases(s, t, r, Idle, ToIdle)
  }

  /** The stop paths and the leg's hangup handler. */
  function StepStop(s: State, t: Tid, pc: PC, c: Choice): State
    requires !InStart(pc) && !InDirection(pc) && !pc.Tearing? && TouchedBy(s, pc) <= s.table.recs.Keys
  {
    match pc
    case Idle => s
    case Claiming(key, call) => StepClaim(s, t, key, call)
    case HandlerScan(call, start) => StepHandlerScan(s, t, call, start)
    case HandlerUnbind(call, start) => HandlerDone(s.(bound := s.bound - {call}), t, start)
    case Scanning(d) => StepScan(s, t, d, c.batch)
    case Draining(d) => StepDrain(s, t, d)
    case DrainUnbinding(d, call) => Go(s.(bound := s.bound - {call}), t, Draining(d))
    case LegEnding(key, leg) => StepLegEnd(s, t, key, leg)
  }

  /** One step of thread `t`, whose dereferences are all to live recordings. */
  function Step(s: State, t: Tid, c: Choice): State
    requires TouchedBy(s, PcOf(s, t)) <= s.table.recs.Keys
  {
    var pc := PcOf(s, t);
    if InStart(pc) then StepStart(s, t, pc, c)
    else if InDirection(pc) then StepDirection(s, t, pc, c)
    else if pc.Tearing? then StepTear(s, t, pc.victim, pc.step, pc.next, c)
    else StepStop(s, t, pc, c)
  }

  function Effect(s: State, a: Action): State
    requires Touched(s, a) <= s.table.recs.Keys
  {
    match a
    case BeginStart(t, r, handle, uuid) =>
      Go(Emit(WithPhase(WithRec(s, r, Rec(Key(handle, uuid), uuid, 0, false, false, NoContext, Unattached)),
                        r, Private), Alloc(r, uuid)), t, Allocated(r))
    case BeginDirection(t, handle, uuid, resume, srcEnabled) =>
      if !resume then Go(s, t, Acquiring(Key(handle, uuid), uuid, false))
      else if srcEnabled then Go(Emit(s, Passed(t)), t, Acquiring(Key(handle, uuid), uuid, true))
      else s
    case BeginStop(t, handle, uuid) => Go(s, t, Claiming(Key(handle, uuid), uuid))
    case BeginDrain(t, call, unbind, thenHandler) =>
      Go(s, t, Scanning(Drain(call, unbind, thenHandler, false, {}, 0, [])))
    case BeginLegEnd(t, key, leg) => Go(s, t, LegEnding(key, leg))
    case Run(t, c) => Step(s, t, c)
    case Tick(r) =>
      if s.table.recs[r].legGone then Closing(s, r)
      else if r in s.bugs then Emit(s.(bugs := s.bugs[r := s.bugs[r].(ticking := true)]), TickBegin(r)) else s
    case TickSend(r) => Emit(s, Send(r))
    case TickDone(r) =>
      if r in s.bugs then Emit(s.(bugs := s.bugs[r := s.bugs[r].(ticking := false)]), TickEnd(r)) else s
    case CoreClose(r) => Closing(s, r)
  }

  /** The environment can make this step happen, and it dereferences freed memory. */
  ghost predicate Faults(s: State, a: Action) {
    Enabled(s, a) && !(Touched(s, a) <= s.table.recs.Keys)
  }

  /** One action; what the environment cannot do is ignored, and a fault goes no further. */
  ghost function Apply(s: State, a: Action): State {
    if Enabled(s, a) && Touched(s, a) <= s.table.recs.Keys then Effect(s, a) else s
  }

  /** The state after any sequence of actions: every interleaving is one such sequence. */
  ghost function Exec(acts: seq<Action>): State {
    if acts == [] then INIT else Apply(Exec(acts[..|acts| - 1]), acts[|acts| - 1])
  }
}
