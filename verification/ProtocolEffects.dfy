/** What leg-ends, stops, ticks and starts do in any run, said of how they begin, of idleness, of the fields they find and of
  * the log. */
module ProtocolEffects {
  import opened Common
  import opened RecordingTable
  import opened RecordingProtocol
  import opened ProtocolOwnership
  import opened ProtocolMonitor
  import opened ProtocolWatch
  import opened ProtocolRuns
  import opened ProtocolSteps
  import opened ProtocolOutcomes
  import opened ProtocolDrain
  import opened ProtocolOperations

  // ---- leg-ends mark ----

  /** Thread `t` is idle, begins with action `n`, and takes its first step with action `m`. */
  ghost predicate Enters(st: seq<State>, acts: seq<Action>, n: nat, m: nat, t: Tid)
    requires |st| == |acts| + 1
  {
    NextStep(acts, n, m, t) && PcOf(st[n], t) == Idle && Begins(acts[n], t)
  }

  /** In any run the hangup of a recording leg marks, as its first step, exactly the recording whose current leg it is, if
    * the hash holds that under the key; and it does nothing else. */
  lemma LegEndMarks(st: seq<State>, acts: seq<Action>, n: nat, m: nat, t: Tid, key: string, leg: string)
    requires IsRun(st, acts) && Enters(st, acts, n, m, t) && acts[n] == BeginLegEnd(t, key, leg)
    ensures var s, s' := st[m], st[m + 1];
      && NoDangling(s.table) && PcOf(s', t) == Idle
      && if key != "" && leg != "" && key in s.table.hash && s.table.recs[s.table.hash[key]].leg == OnLeg(leg)
         then var r := s.table.hash[key];
           s'.log == s.log + [Mark(r, leg)] && s'.table == s.table.(recs := s.table.recs[r := s.table.recs[r].(legGone := true)])
         else s'.log == s.log && s'.table == s.table
  {
    TakesStep(st, acts, n);
    WaitsThere(st, acts, n, m, t);
    TakesStep(st, acts, m);
    var s := st[m];
    StateIsGood(st, acts, m);
    HashKeys(s);
    TouchesLive(s, acts[m]);
    LegEndStep(s, t, acts[m].c, key, leg);
  }

  lemma LegEndStep(s: State, t: Tid, c: Choice, key: string, leg: string)
    requires PcOf(s, t) == LegEnding(key, leg) && AtKey(s, key) <= s.table.recs.Keys
    ensures var s' := Apply(s, Run(t, c));
      && PcOf(s', t) == Idle
      && if key != "" && leg != "" && key in s.table.hash && s.table.recs[s.table.hash[key]].leg == OnLeg(leg)
         then var r := s.table.hash[key];
           s'.log == s.log + [Mark(r, leg)] && s'.table == s.table.(recs := s.table.recs[r := s.table.recs[r].(legGone := true)])
         else s'.log == s.log && s'.table == s.table
  {
    assert Step(s, t, c) == StepLegEnd(s, t, key, leg);
  }

  // ---- media ticks ----

  /** In any run a tick that finds the bug on the call, not paused, and the recording unmarked begins; its packets are sent
    * and it ends. */
  lemma LiveTickBegins(acts: seq<Action>, r: RecId)
    requires var s := Exec(acts);
      r in s.bugs && !s.bugs[r].paused && !s.bugs[r].ticking && (r in s.table.recs ==> !s.table.recs[r].legGone)
    ensures var s1 := Apply(Exec(acts), Tick(r));
      var s2 := Apply(s1, TickSend(r));
      var s3 := Apply(s2, TickDone(r));
      && s1.log == Exec(acts).log + [TickBegin(r)] && s2.log == s1.log + [Send(r)] && s3.log == s2.log + [TickEnd(r)]
      && s3 == Exec(acts).(log := s3.log)
  {
    var s := Exec(acts);
    RunsAreGood(acts);
    assert Consistent(ViewOf(s, r), Monitor(s.log, r));
    TickSteps(s, r);
  }

  /** ... and one that finds the mark sends nothing: it takes the bug off the call and logs just that. */
  lemma MarkedTickCloses(acts: seq<Action>, r: RecId)
    requires var s := Exec(acts);
      r in s.bugs && !s.bugs[r].paused && !s.bugs[r].ticking && r in s.table.recs && s.table.recs[r].legGone
    ensures var s, s' := Exec(acts), Apply(Exec(acts), Tick(r));
      && s'.log == s.log + [Close(r)] && s'.bugs == s.bugs - {r}
      && r in s'.table.recs && s'.table.recs[r].media in {Wired(false), Adding(false)}
      && !Enabled(s', Tick(r)) && !Enabled(s', TickSend(r))
  {
    var s := Exec(acts);
    RunsAreGood(acts);
    assert Consistent(ViewOf(s, r), Monitor(s.log, r));
  }

  lemma TickSteps(s: State, r: RecId)
    requires r in s.bugs && !s.bugs[r].paused && !s.bugs[r].ticking && r in s.table.recs && !s.table.recs[r].legGone
    ensures var s1 := Apply(s, Tick(r));
      var s2 := Apply(s1, TickSend(r));
      var s3 := Apply(s2, TickDone(r));
      && s1.log == s.log + [TickBegin(r)] && s2.log == s1.log + [Send(r)] && s3.log == s2.log + [TickEnd(r)]
      && s3 == s.(log := s3.log)
  {
    var s2 := Apply(Apply(s, Tick(r)), TickSend(r));
    assert s.bugs == s2.bugs[r := s2.bugs[r].(ticking := false)];
  }

  // ---- stops take and tear down ----

  /** The stop at `pc` has the recording in hand, at this point of its teardown. */
  predicate TearsFor(pc: PC, r: RecId, step: TearStep, call: string) { pc == Tearing(r, step, ToScan(call, None)) }

  /** Where it stands, and what was logged since moment `m`. */
  ghost predicate Torn(st: seq<State>, m: nat, i: nat, pc: PC, r: RecId, call: string)
    requires m <= i < |st|
  {
    || TearsFor(pc, r, DoDetach, call)
    || (TearsFor(pc, r, DoBye, call) && Logged(st, m, i, Detach(r)))
    || (TearsFor(pc, r, DoFree, call) && Logged(st, m, i, Detach(r)) && Logged(st, m, i, Bye(r)))
    || IsTorn(st, m, i, r)
  }

  ghost predicate IsTorn(st: seq<State>, m: nat, i: nat, r: RecId)
    requires m <= i < |st|
  {
    Logged(st, m, i, Detach(r)) && Logged(st, m, i, Bye(r)) && Logged(st, m, i, Free(r))
  }

  lemma StaysLogged(st: seq<State>, acts: seq<Action>, m: nat, i: nat, x: Event)
    requires IsRun(st, acts) && m <= i < |acts|
    ensures Logged(st, m, i, x) ==> Logged(st, m, i + 1, x)
  {
    if Logged(st, m, i, x) { LoggedWithin(st, acts, m, m, i, i + 1, x); }
  }

  lemma TornStays(st: seq<State>, acts: seq<Action>, m: nat, i: nat, pc: PC, r: RecId, call: string)
    requires IsRun(st, acts) && m <= i < |acts| && Torn(st, m, i, pc, r, call)
    ensures Torn(st, m, i + 1, pc, r, call)
  {
    StaysLogged(st, acts, m, i, Detach(r));
    StaysLogged(st, acts, m, i, Bye(r));
    StaysLogged(st, acts, m, i, Free(r));
  }

  lemma TornOn(st: seq<State>, m: nat, i: nat, pc: PC, pc': PC, r: RecId, call: string, step: TearStep)
    requires m <= i < |st| && Torn(st, m, i, pc, r, call) && TearsFor(pc, r, step, call)
    requires match step
      case DoDetach => Logged(st, m, i, Detach(r)) && TearsFor(pc', r, DoBye, call)
      case DoBye => Logged(st, m, i, Bye(r)) && TearsFor(pc', r, DoFree, call)
      case DoFree => Logged(st, m, i, Free(r))
    ensures Torn(st, m, i, pc', r, call)
  {
  }

  lemma TearStepLogs(s: State, t: Tid, c: Choice, r: RecId, call: string, step: TearStep)
    requires Enabled(s, Run(t, c)) && TouchedBy(s, PcOf(s, t)) <= s.table.recs.Keys && TearsFor(PcOf(s, t), r, step, call)
    ensures var s' := Apply(s, Run(t, c));
      match step
      case DoDetach => s'.log == s.log + [Detach(r)] && TearsFor(PcOf(s', t), r, DoBye, call)
      case DoBye => s'.log == s.log + [Bye(r)] && TearsFor(PcOf(s', t), r, DoFree, call)
      case DoFree => s'.log == s.log + [Free(r)]
  {
    assert Step(s, t, c) == StepTear(s, t, r, step, ToScan(call, None), c);
    if step == DoDetach { DetachLogs(s, r); }
  }

  lemma TornNext(st: seq<State>, acts: seq<Action>, m: nat, i: nat, t: Tid, r: RecId, call: string)
    requires IsRun(st, acts) && m <= i < |acts| && Torn(st, m, i, PcOf(st[i], t), r, call)
    ensures Torn(st, m, i + 1, PcOf(st[i + 1], t), r, call)
  {
    var s, a, pc := st[i], acts[i], PcOf(st[i], t);
    if pc.Tearing? && TearsFor(pc, r, pc.step, call) && !NotOf(a, t) && Enabled(s, a) {
      OwnTear(st, acts, m, i, t, r, call, pc.step);
    } else {
      TornStays(st, acts, m, i, pc, r, call);
      TakesStep(st, acts, i);
      if pc != Idle && NotOf(a, t) { StandsStill(s, a, t); }
    }
  }

  lemma OwnTear(st: seq<State>, acts: seq<Action>, m: nat, i: nat, t: Tid, r: RecId, call: string, step: TearStep)
    requires IsRun(st, acts) && m <= i < |acts| && acts[i].Run? && acts[i].t == t && Enabled(st[i], acts[i])
    requires TearsFor(PcOf(st[i], t), r, step, call)
    requires Torn(st, m, i, PcOf(st[i], t), r, call)
    ensures Torn(st, m, i + 1, PcOf(st[i + 1], t), r, call)
  {
    var s := st[i];
    TakesStep(st, acts, i);
    TornStays(st, acts, m, i, PcOf(s, t), r, call);
    StateIsGood(st, acts, i);
    TouchesLive(s, acts[i]);
    TearStepLogs(s, t, acts[i].c, r, call, step);
    LoggedNow(st, acts, m, i, match step case DoDetach => Detach(r) case DoBye => Bye(r) case DoFree => Free(r));
    TornOn(st, m, i + 1, PcOf(s, t), PcOf(st[i + 1], t), r, call, step);
  }

  lemma {:induction false} TornThrough(st: seq<State>, acts: seq<Action>, m: nat, i: nat, e: nat, t: Tid, r: RecId, call: string)
    requires IsRun(st, acts) && m <= i <= e <= |acts| && Torn(st, m, i, PcOf(st[i], t), r, call)
    ensures Torn(st, m, e, PcOf(st[e], t), r, call)
  {
    if i < e {
      TornThrough(st, acts, m, i, e - 1, t, r, call);
      TornNext(st, acts, m, e - 1, t, r, call);
    }
  }

  /** The locked step of siprec_stop with a handle: what is under the key leaves the hash; pinned it is doomed, unpinned it is
    * this thread's to tear down. */
  lemma StopStep(s: State, t: Tid, c: Choice, key: string, call: string)
    requires PcOf(s, t) == Claiming(key, call) && NoDangling(s.table)
    ensures StopTook(s, Apply(s, Run(t, c)), t, key, call)
  {
    assert Step(s, t, c) == StepClaim(s, t, key, call);
  }

  ghost predicate StopTook(s: State, s': State, t: Tid, key: string, call: string)
    requires NoDangling(s.table)
  {
    if key !in s.table.hash then s'.table == s.table && s'.log == s.log && PcOf(s', t) == Idle
    else
      var r := s.table.hash[key];
      && s'.log == s.log + [Unhash(r)] && s'.table.hash == s.table.hash - {key}
      && if s.table.recs[r].useCount > 0 then s'.table.recs == s.table.recs[r := s.table.recs[r].(doomed := true)]
         else TearsFor(PcOf(s', t), r, DoDetach, call)
  }

  /** In any run a stop of a handle takes, with its first step, what is hashed under the handle's key. A recording that
    * nobody pins it has detached, sent BYE and freed by the time it returns; a pinned one is doomed; without one nothing
    * changes. */
  lemma StopTearsDown(st: seq<State>, acts: seq<Action>, n: nat, m: nat, e: nat, t: Tid, handle: string, uuid: string)
    requires IsRun(st, acts) && Enters(st, acts, n, m, t) && acts[n] == BeginStop(t, handle, uuid)
    requires m < e <= |acts| && PcOf(st[e], t) == Idle
    ensures var s, s' := st[m], st[m + 1];
      var key := handle + "-" + uuid;
      && NoDangling(s.table)
      && if key !in s.table.hash then s'.table == s.table && s'.log == s.log
         else
           var r := s.table.hash[key];
           && Logged(st, m, e, Unhash(r)) && s'.table.hash == s.table.hash - {key}
           && if s.table.recs[r].useCount > 0 then r in s'.table.recs && s'.table.recs[r].doomed
              else Logged(st, m, e, Detach(r)) && Logged(st, m, e, Bye(r)) && Logged(st, m, e, Free(r))
  {
    StopClaims(st, acts, n, m, t, handle, uuid);
    var s, key := st[m], handle + "-" + uuid;
    if key in s.table.hash {
      var r := s.table.hash[key];
      UnhashLogged(st, acts, m, e, r);
      if s.table.recs[r].useCount <= 0 { TornByReturn(st, acts, m, e, t, r, uuid); }
    }
  }

  lemma UnhashLogged(st: seq<State>, acts: seq<Action>, m: nat, e: nat, r: RecId)
    requires IsRun(st, acts) && m < e <= |acts| && st[m + 1].log == st[m].log + [Unhash(r)]
    ensures Logged(st, m, e, Unhash(r))
  {
    LoggedNow(st, acts, m, m, Unhash(r));
    LoggedWithin(st, acts, m, m, m + 1, e, Unhash(r));
  }

  lemma TornByReturn(st: seq<State>, acts: seq<Action>, m: nat, e: nat, t: Tid, r: RecId, call: string)
    requires IsRun(st, acts) && m < e <= |acts| && TearsFor(PcOf(st[m + 1], t), r, DoDetach, call) && PcOf(st[e], t) == Idle
    ensures IsTorn(st, m, e, r)
  {
    TornThrough(st, acts, m, m + 1, e, t, r, call);
  }

  lemma StopClaims(st: seq<State>, acts: seq<Action>, n: nat, m: nat, t: Tid, handle: string, uuid: string)
    requires IsRun(st, acts) && Enters(st, acts, n, m, t) && acts[n] == BeginStop(t, handle, uuid)
    ensures NoDangling(st[m].table) && StopTook(st[m], st[m + 1], t, handle + "-" + uuid, uuid)
  {
    TakesStep(st, acts, n);
    WaitsThere(st, acts, n, m, t);
    TakesStep(st, acts, m);
    var s := st[m];
    assert PcOf(s, t) == Claiming(handle + "-" + uuid, uuid);
    StateIsGood(st, acts, m);
    HashKeys(s);
    TouchesLive(s, acts[m]);
    StopStep(s, t, acts[m].c, handle + "-" + uuid, uuid);
  }

  // ---- starts fail for cause ----

  /** On its way to reporting failure after giving up its recording. */
  ghost function GaveUp(pc: PC): Option<RecId> {
    match pc
    case Discarding(r) => Some(r)
    case Dropping(r, _) => Some(r)
    case HandlerScan(_, start) => start
    case HandlerUnbind(_, start) => start
    case Tearing(_, _, ToScan(_, start)) => start
    case _ => None
  }

  /** A step of thread `t`'s start of `r` was answered no: no session or settings, no INVITE answered, no bug. */
  ghost predicate RefusedBy(s: State, a: Action, t: Tid, r: RecId) {
    a.Run? && a.t == t && !a.c.yes && PcOf(s, t) in {Preparing(r), Inviting(r), Attaching(r)}
  }

  ghost predicate SomeRefused(acts: seq<Action>, t: Tid, r: RecId) {
    exists i :: 0 <= i < |acts| && RefusedBy(Exec(acts[..i]), acts[i], t, r)
  }

  lemma GivesUp(s: State, t: Tid, c: Choice, r: RecId)
    requires TouchedBy(s, PcOf(s, t)) <= s.table.recs.Keys && PcOf(s, t) != Idle
    requires GaveUp(PcOf(Step(s, t, c), t)) == Some(r)
    ensures GaveUp(PcOf(s, t)) == Some(r) || RefusedBy(s, Run(t, c), t, r)
  {
    var pc := PcOf(s, t);
    if InStart(pc) { StartGivesUp(s, t, pc, c, r); }
    else if InDirection(pc) { DirectionGivesUpNone(s, t, pc, c); }
    else if !pc.Tearing? { StopGivesUp(s, t, pc, c, r); }
  }

  lemma StartGivesUp(s: State, t: Tid, pc: PC, c: Choice, r: RecId)
    requires InStart(pc) && TouchedBy(s, pc) <= s.table.recs.Keys && PcOf(s, t) == pc
    requires GaveUp(PcOf(StepStart(s, t, pc, c), t)) == Some(r)
    ensures GaveUp(pc) == Some(r) || RefusedBy(s, Run(t, c), t, r)
  {
  }

  lemma DirectionGivesUpNone(s: State, t: Tid, pc: PC, c: Choice)
    requires InDirection(pc) && TouchedBy(s, pc) <= s.table.recs.Keys
    ensures GaveUp(PcOf(StepDirection(s, t, pc, c), t)) == None
  {
    if pc.Reinviting? { assert StepDirection(s, t, pc, c) == StepReinvite(s, t, pc, c); }
  }

  lemma StopGivesUp(s: State, t: Tid, pc: PC, c: Choice, r: RecId)
    requires !InStart(pc) && !InDirection(pc) && !pc.Tearing? && pc != Idle && TouchedBy(s, pc) <= s.table.recs.Keys
    requires PcOf(s, t) == pc
    ensures GaveUp(PcOf(StepStop(s, t, pc, c), t)) == Some(r) ==> GaveUp(pc) == Some(r)
  {
    match pc
    case Draining(d) => DrainGivesUpNone(s, t, d);
    case Claiming(key, call) => assert StepStop(s, t, pc, c) == StepClaim(s, t, key, call);
    case LegEnding(key, leg) => assert StepStop(s, t, pc, c) == StepLegEnd(s, t, key, leg);
    case HandlerScan(call, start) => assert StepStop(s, t, pc, c) == StepHandlerScan(s, t, call, start);
    case _ =>
  }

  lemma DrainGivesUpNone(s: State, t: Tid, d: Drain)
    requires d.pending != [] ==> AtKey(s, d.pending[0].0) <= s.table.recs.Keys
    ensures GaveUp(PcOf(StepDrain(s, t, d), t)) == None
  {
  }

  lemma {:induction false} GaveUpForCause(acts: seq<Action>, t: Tid, r: RecId)
    requires GaveUp(PcOf(Exec(acts), t)) == Some(r)
    ensures SomeRefused(acts, t, r)
  {
    if acts != [] {
      var init, a := acts[..|acts| - 1], acts[|acts| - 1];
      var s := Exec(init);
      if GaveUp(PcOf(s, t)) == Some(r) {
        GaveUpForCause(init, t, r);
        var i :| 0 <= i < |init| && RefusedBy(Exec(init[..i]), init[i], t, r);
        assert init[..i] == acts[..i] && RefusedBy(Exec(acts[..i]), acts[i], t, r);
      } else {
        GaveUpNow(s, a, t, r);
        assert RefusedBy(Exec(acts[..|init|]), acts[|init|], t, r);
      }
    }
  }

  lemma GaveUpNow(s: State, a: Action, t: Tid, r: RecId)
    requires GaveUp(PcOf(Apply(s, a), t)) == Some(r) && GaveUp(PcOf(s, t)) != Some(r)
    ensures RefusedBy(s, a, t, r)
  {
    if a.Run? && a.t == t { GivesUp(s, t, a.c, r); }
    else if !Begins(a, t) { OthersStand(s, a, t); }
  }

  /** In any run a start that reports FALSE was answered no on its way, or its recording was taken out of the hash by
    * somebody else while it was starting. */
  lemma StartFailsForCause(acts: seq<Action>, a: Action, t: Tid, r: RecId)
    requires Returns(acts, a, t, r, Failed)
    ensures SomeRefused(acts, t, r) || Unhash(r) in Exec(acts).log
  {
    var s := Exec(acts);
    RunsAreGood(acts);
    RunsLeaveOk(acts);
    ReportsFrom(s, a, t, r, Failed);
    if GaveUp(PcOf(s, t)) == Some(r) { GaveUpForCause(acts, t, r); }
    else { TakenFrom(acts, t, r); }
  }

  lemma TakenFrom(acts: seq<Action>, t: Tid, r: RecId)
    requires var s := Exec(acts);
      Good(s) && LeavesOk(s) && Reports(s, PcOf(s, t), r, Failed) && GaveUp(PcOf(s, t)) != Some(r)
    ensures Unhash(r) in Exec(acts).log
  {
    var s := Exec(acts);
    assert LeftBehind(s, PcOf(s, t));
    if PcOf(s, t).Finishing? { PinnedIsLive(s, t, r); }
    EnteredWasInserted(acts, t, r);
    assert PhaseOk(s, r) && Consistent(ViewOf(s, r), Monitor(s.log, r));
    if Unhash(r) !in s.log { InsertedNotUnhashed(s.log, r); }
  }

  /** The recording that a start at `pc` has put in the hash. */
  ghost function Entered(pc: PC): Option<RecId> {
    match pc
    case Tearing(_, _, ToBind(r)) => Some(r)
    case Binding(r) => Some(r)
    case Preparing(r) => Some(r)
    case Inviting(r) => Some(r)
    case Attaching(r) => Some(r)
    case Wiring(r) => Some(r)
    case Finishing(r) => Some(r)
    case Tearing(_, _, ToStopped(r)) => Some(r)
    case Stopped(r) => Some(r)
    case _ => None
  }

  lemma StartEnters(s: State, t: Tid, pc: PC, c: Choice, r: RecId)
    requires InStart(pc) && TouchedBy(s, pc) <= s.table.recs.Keys && PcOf(s, t) == pc
    requires Entered(PcOf(StepStart(s, t, pc, c), t)) == Some(r)
    ensures Entered(pc) == Some(r) || (pc == Allocated(r) && Insert(r) in StepStart(s, t, pc, c).log)
  {
    match pc
    case Allocated(q) => InsertEnters(s, t, q, r);
    case Finishing(q) => assert StepStart(s, t, pc, c) == StepFinish(s, t, q);
    case _ =>
  }

  lemma InsertEnters(s: State, t: Tid, q: RecId, r: RecId)
    requires q in s.table.recs && AtKey(s, s.table.recs[q].key) <= s.table.recs.Keys
    requires Entered(PcOf(StepInsert(s, t, q), t)) == Some(r)
    ensures q == r && Insert(r) in StepInsert(s, t, q).log
  {
  }

  lemma DirectionEntersNone(s: State, t: Tid, pc: PC, c: Choice)
    requires InDirection(pc) && TouchedBy(s, pc) <= s.table.recs.Keys
    ensures Entered(PcOf(StepDirection(s, t, pc, c), t)) == None
  {
    if pc.Reinviting? { assert StepDirection(s, t, pc, c) == StepReinvite(s, t, pc, c); }
  }

  lemma StopEntersNone(s: State, t: Tid, pc: PC, c: Choice)
    requires !InStart(pc) && !InDirection(pc) && !pc.Tearing? && pc != Idle && TouchedBy(s, pc) <= s.table.recs.Keys
    requires PcOf(s, t) == pc
    ensures Entered(PcOf(StepStop(s, t, pc, c), t)) == None
  {
    match pc
    case Claiming(key, call) => assert StepStop(s, t, pc, c) == StepClaim(s, t, key, call);
    case HandlerScan(call, start) => assert StepStop(s, t, pc, c) == StepHandlerScan(s, t, call, start);
    case LegEnding(key, leg) => assert StepStop(s, t, pc, c) == StepLegEnd(s, t, key, leg);
    case _ =>
  }

  lemma StepEnters(s: State, t: Tid, c: Choice, r: RecId)
    requires TouchedBy(s, PcOf(s, t)) <= s.table.recs.Keys && PcOf(s, t) != Idle
    requires Entered(PcOf(Step(s, t, c), t)) == Some(r)
    ensures Entered(PcOf(s, t)) == Some(r) || Insert(r) in Step(s, t, c).log
  {
    var pc := PcOf(s, t);
    if InStart(pc) { StartEnters(s, t, pc, c, r); }
    else if InDirection(pc) { DirectionEntersNone(s, t, pc, c); }
    else if !pc.Tearing? { StopEntersNone(s, t, pc, c); }
  }

  lemma EnteredNow(s: State, a: Action, t: Tid, r: RecId)
    requires Entered(PcOf(Apply(s, a), t)) == Some(r)
    ensures Entered(PcOf(s, t)) == Some(r) || Insert(r) in Apply(s, a).log
  {
    if Enabled(s, a) && Touched(s, a) <= s.table.recs.Keys {
      if a.Run? && a.t == t { StepEnters(s, t, a.c, r); }
      else if !Begins(a, t) { OthersStand(s, a, t); }
    }
  }

  lemma {:induction false} EnteredWasInserted(acts: seq<Action>, t: Tid, r: RecId)
    requires Entered(PcOf(Exec(acts), t)) == Some(r)
    ensures Insert(r) in Exec(acts).log
  {
    if acts != [] {
      var init, a := acts[..|acts| - 1], acts[|acts| - 1];
      EnteredNow(Exec(init), a, t, r);
      if Entered(PcOf(Exec(init), t)) == Some(r) { EnteredWasInserted(init, t, r); LogOnlyGrows(Exec(init), a); }
    }
  }

  // ---- starts succeed for cause ----

  /** How far a start has come with the recording that it put in the hash. */
  ghost function Progress(pc: PC): Option<(RecId, nat)> {
    match pc
    case Inviting(r) => Some((r, 1))
    case Attaching(r) => Some((r, 2))
    case Wiring(r) => Some((r, 3))
    case Finishing(r) => Some((r, 4))
    case _ => None
  }

  /** Where it was asked before it came this far. */
  function Asked(r: RecId, k: nat): PC { if k == 1 then Preparing(r) else if k == 2 then Inviting(r) else Attaching(r) }

  ghost predicate SaidYes(s: State, a: Action, t: Tid, pc: PC) { a.Run? && a.t == t && a.c.yes && PcOf(s, t) == pc }

  /** At some moment of the run thread `t` stood at `pc` and was answered yes. */
  ghost predicate Answered(acts: seq<Action>, t: Tid, pc: PC) {
    exists i :: 0 <= i < |acts| && SaidYes(Exec(acts[..i]), acts[i], t, pc)
  }

  /** A thread that stands at progress `n` either stood there before the step, or one step earlier and, up to 3, was told yes. */
  ghost predicate Advanced(s: State, a: Action, t: Tid, r: RecId, n: nat) {
    || Progress(PcOf(s, t)) == Some((r, n))
    || ((n == 1 || Progress(PcOf(s, t)) == Some((r, n - 1))) && (n == 4 || SaidYes(s, a, t, Asked(r, n))))
  }

  lemma StartAdvances(s: State, t: Tid, pc: PC, c: Choice, r: RecId, n: nat)
    requires InStart(pc) && TouchedBy(s, pc) <= s.table.recs.Keys && PcOf(s, t) == pc && 1 <= n
    requires Progress(PcOf(StepStart(s, t, pc, c), t)) == Some((r, n))
    ensures Advanced(s, Run(t, c), t, r, n)
  {
    match pc
    case Inviting(q) => assert StepStart(s, t, pc, c) == StepInvite(s, t, q, c);
    case Attaching(q) => assert StepStart(s, t, pc, c) == StepAttach(s, t, q, c);
    case _ =>
  }

  lemma DirectionStays(s: State, t: Tid, pc: PC, c: Choice)
    requires InDirection(pc) && TouchedBy(s, pc) <= s.table.recs.Keys
    ensures Progress(PcOf(StepDirection(s, t, pc, c), t)) == None
  {
    if pc.Reinviting? { assert StepDirection(s, t, pc, c) == StepReinvite(s, t, pc, c); }
  }

  lemma StopStays(s: State, t: Tid, pc: PC, c: Choice)
    requires !InStart(pc) && !InDirection(pc) && !pc.Tearing? && pc != Idle && TouchedBy(s, pc) <= s.table.recs.Keys
    requires PcOf(s, t) == pc
    ensures Progress(PcOf(StepStop(s, t, pc, c), t)) == None
  {
    match pc
    case Claiming(key, call) => assert StepStop(s, t, pc, c) == StepClaim(s, t, key, call);
    case HandlerScan(call, start) => assert StepStop(s, t, pc, c) == StepHandlerScan(s, t, call, start);
    case LegEnding(key, leg) => assert StepStop(s, t, pc, c) == StepLegEnd(s, t, key, leg);
    case _ =>
  }

  lemma AdvancedNow(s: State, a: Action, t: Tid, r: RecId, n: nat)
    requires Progress(PcOf(Apply(s, a), t)) == Some((r, n)) && 1 <= n
    ensures Advanced(s, a, t, r, n)
  {
    if Enabled(s, a) && Touched(s, a) <= s.table.recs.Keys {
      if a.Run? && a.t == t { StepAdvances(s, t, a.c, r, n); }
      else if !Begins(a, t) { OthersStand(s, a, t); }
    }
  }

  lemma StepAdvances(s: State, t: Tid, c: Choice, r: RecId, n: nat)
    requires TouchedBy(s, PcOf(s, t)) <= s.table.recs.Keys && PcOf(s, t) != Idle && 1 <= n
    requires Progress(PcOf(Step(s, t, c), t)) == Some((r, n))
    ensures Advanced(s, Run(t, c), t, r, n)
  {
    var pc := PcOf(s, t);
    if InStart(pc) { StartAdvances(s, t, pc, c, r, n); }
    else if InDirection(pc) { DirectionStays(s, t, pc, c); }
    else if !pc.Tearing? { StopStays(s, t, pc, c); }
  }

  lemma {:induction false} CameThere(acts: seq<Action>, t: Tid, r: RecId, n: nat, k: nat)
    requires Progress(PcOf(Exec(acts), t)) == Some((r, n)) && 1 <= k <= n && k <= 3
    ensures Answered(acts, t, Asked(r, k))
  {
    if acts != [] {
      var init, a := acts[..|acts| - 1], acts[|acts| - 1];
      AdvancedNow(Exec(init), a, t, r, n);
      if Progress(PcOf(Exec(init), t)) == Some((r, n)) { CameThere(init, t, r, n, k); AnsweredBefore(acts, t, Asked(r, k)); }
      else if k < n { CameThere(init, t, r, n - 1, k); AnsweredBefore(acts, t, Asked(r, k)); }
      else { assert SaidYes(Exec(acts[..|init|]), acts[|init|], t, Asked(r, k)); }
    }
  }

  lemma AnsweredBefore(acts: seq<Action>, t: Tid, pc: PC)
    requires acts != [] && Answered(acts[..|acts| - 1], t, pc)
    ensures Answered(acts, t, pc)
  {
    var init := acts[..|acts| - 1];
    var i :| 0 <= i < |init| && SaidYes(Exec(init[..i]), init[i], t, pc);
    assert init[..i] == acts[..i] && SaidYes(Exec(acts[..i]), acts[i], t, pc);
  }

  /** In any run a start that reports SUCCESS was answered yes each time it asked: for what it needs, its INVITE and its bug. */
  lemma StartSucceedsForCause(acts: seq<Action>, a: Action, t: Tid, r: RecId)
    requires Returns(acts, a, t, r, Success)
    ensures Answered(acts, t, Preparing(r)) && Answered(acts, t, Inviting(r)) && Answered(acts, t, Attaching(r))
  {
    RunsAreGood(acts);
    ReportsFrom(Exec(acts), a, t, r, Success);
    CameThere(acts, t, r, 4, 1);
    CameThere(acts, t, r, 4, 2);
    CameThere(acts, t, r, 4, 3);
  }

  // ---- starts report ----

  /** The recording of the start that a thread at `pc` is in the middle of. */
  ghost function StartOf(pc: PC): Option<RecId> {
    match pc
    case Allocated(r) => Some(r)
    case Refused(r) => Some(r)
    case Dropping(r, _) => Some(r)
    case Discarding(r) => Some(r)
    case HandlerScan(_, start) => start
    case HandlerUnbind(_, start) => start
    case Tearing(_, _, ToScan(_, start)) => start
    case _ => Entered(pc)
  }

  ghost predicate ReportedBy(s: State, s': State, t: Tid, r: RecId) {
    |s'.log| > |s.log| && s'.log[|s'.log| - 1].Outcome? && s'.log[|s'.log| - 1].t == t && s'.log[|s'.log| - 1].r == r
  }

  lemma StartStays(s: State, t: Tid, pc: PC, c: Choice, r: RecId)
    requires InStart(pc) && TouchedBy(s, pc) <= s.table.recs.Keys && PcOf(s, t) == pc && StartOf(pc) == Some(r)
    ensures var s' := StepStart(s, t, pc, c); StartOf(PcOf(s', t)) == Some(r) || ReportedBy(s, s', t, r)
  {
    match pc
    case Allocated(q) => InsertStays(s, t, q);
    case Finishing(q) => FinishStays(s, t, q);
    case Discarding(q) => DiscardStays(s, t, q);
    case _ =>
  }

  lemma InsertStays(s: State, t: Tid, r: RecId)
    requires r in s.table.recs && AtKey(s, s.table.recs[r].key) <= s.table.recs.Keys
    ensures StartOf(PcOf(StepInsert(s, t, r), t)) == Some(r)
  {
  }

  lemma FinishStays(s: State, t: Tid, r: RecId)
    requires r in s.table.recs
    ensures var s' := StepFinish(s, t, r); StartOf(PcOf(s', t)) == Some(r) || ReportedBy(s, s', t, r)
  {
  }

  lemma DiscardStays(s: State, t: Tid, r: RecId)
    requires r in s.table.recs
    ensures StartOf(PcOf(StepDiscard(s, t, r), t)) == Some(r)
  {
  }

  lemma StopPathStays(s: State, t: Tid, pc: PC, c: Choice, r: RecId)
    requires pc.HandlerScan? || pc.HandlerUnbind?
    requires TouchedBy(s, pc) <= s.table.recs.Keys && PcOf(s, t) == pc && StartOf(pc) == Some(r)
    ensures var s' := StepStop(s, t, pc, c); StartOf(PcOf(s', t)) == Some(r) || ReportedBy(s, s', t, r)
  {
    if pc.HandlerScan? { assert StepStop(s, t, pc, c) == StepHandlerScan(s, t, pc.call, pc.start); }
  }

  lemma OwnStepStays(s: State, t: Tid, c: Choice, r: RecId)
    requires TouchedBy(s, PcOf(s, t)) <= s.table.recs.Keys && StartOf(PcOf(s, t)) == Some(r)
    ensures StartOf(PcOf(Step(s, t, c), t)) == Some(r) || ReportedBy(s, Step(s, t, c), t, r)
  {
    var pc := PcOf(s, t);
    if InStart(pc) { StartStays(s, t, pc, c, r); }
    else if pc.Tearing? { TearStays(s, t, pc, c, r); }
    else { StopPathStays(s, t, pc, c, r); }
  }

  lemma TearStays(s: State, t: Tid, pc: PC, c: Choice, r: RecId)
    requires pc.Tearing? && pc.victim in s.table.recs && StartOf(pc) == Some(r)
    ensures StartOf(PcOf(StepTear(s, t, pc.victim, pc.step, pc.next, c), t)) == Some(r)
  {
  }

  lemma StartGoesOn(s: State, a: Action, t: Tid, r: RecId)
    requires StartOf(PcOf(s, t)) == Some(r)
    ensures StartOf(PcOf(Apply(s, a), t)) == Some(r) || ReportedBy(s, Apply(s, a), t, r)
  {
    if Enabled(s, a) && Touched(s, a) <= s.table.recs.Keys {
      if a.Run? && a.t == t { OwnStepStays(s, t, a.c, r); } else { OthersStand(s, a, t); }
    }
  }

  ghost predicate HasReported(st: seq<State>, n: nat, e: nat, t: Tid, r: RecId)
    requires n <= e <= |st| - 1
  {
    exists o: Status :: Logged(st, n, e, Outcome(t, r, o))
  }

  lemma ReportIsLogged(st: seq<State>, acts: seq<Action>, n: nat, i: nat, t: Tid, r: RecId)
    requires IsRun(st, acts) && n <= i < |acts| && ReportedBy(st[i], st[i + 1], t, r)
    ensures HasReported(st, n, i + 1, t, r)
  {
    var log := st[i + 1].log;
    var last := log[|log| - 1];
    assert Logged(st, i, i + 1, last);
    LoggedWithin(st, acts, n, i, i + 1, i + 1, last);
    assert last == Outcome(t, r, last.st);
  }

  ghost predicate GoesOnOrReported(st: seq<State>, n: nat, e: nat, t: Tid, r: RecId)
    requires n <= e <= |st| - 1
  {
    StartOf(PcOf(st[e], t)) == Some(r) || HasReported(st, n, e, t, r)
  }

  lemma {:induction false} StartIsUnderWay(st: seq<State>, acts: seq<Action>, n: nat, e: nat, t: Tid, r: RecId)
    requires IsRun(st, acts) && n < e <= |acts| && StartOf(PcOf(st[n + 1], t)) == Some(r)
    ensures GoesOnOrReported(st, n, e, t, r)
  {
    if e > n + 1 {
      StartIsUnderWay(st, acts, n, e - 1, t, r);
      OneMoreStep(st, acts, n, e - 1, t, r);
    }
  }

  lemma OneMoreStep(st: seq<State>, acts: seq<Action>, n: nat, i: nat, t: Tid, r: RecId)
    requires IsRun(st, acts) && n <= i < |acts| && GoesOnOrReported(st, n, i, t, r)
    ensures GoesOnOrReported(st, n, i + 1, t, r)
  {
    if HasReported(st, n, i, t, r) { ReportStays(st, acts, n, i, t, r); } else { UnderWayNext(st, acts, n, i, t, r); }
  }

  lemma ReportStays(st: seq<State>, acts: seq<Action>, n: nat, i: nat, t: Tid, r: RecId)
    requires IsRun(st, acts) && n <= i < |acts| && HasReported(st, n, i, t, r)
    ensures HasReported(st, n, i + 1, t, r)
  {
    var o :| Logged(st, n, i, Outcome(t, r, o));
    LoggedWithin(st, acts, n, n, i, i + 1, Outcome(t, r, o));
  }

  lemma UnderWayNext(st: seq<State>, acts: seq<Action>, n: nat, i: nat, t: Tid, r: RecId)
    requires IsRun(st, acts) && n <= i < |acts| && StartOf(PcOf(st[i], t)) == Some(r)
    ensures StartOf(PcOf(st[i + 1], t)) == Some(r) || HasReported(st, n, i + 1, t, r)
  {
    TakesStep(st, acts, i);
    StartGoesOn(st[i], acts[i], t, r);
    if StartOf(PcOf(st[i + 1], t)) != Some(r) { ReportIsLogged(st, acts, n, i, t, r); }
  }

  /** In any run a start that has returned has reported an outcome. */
  lemma StartReports(st: seq<State>, acts: seq<Action>, n: nat, e: nat, t: Tid, r: RecId, handle: string, uuid: string)
    requires IsRun(st, acts) && n < e <= |acts| && acts[n] == BeginStart(t, r, handle, uuid) && Enabled(st[n], acts[n])
    requires PcOf(st[e], t) == Idle
    ensures exists o: Status :: Logged(st, n, e, Outcome(t, r, o))
  {
    TakesStep(st, acts, n);
    StartIsUnderWay(st, acts, n, e, t, r);
  }
}
