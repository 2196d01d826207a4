/** What an operation does from its beginning to its return, in any run: said of how it begins, of idleness and of the log. */
module ProtocolOperations {
  import opened Common
  import opened RecordingTable
  import opened RecordingProtocol
  import opened ProtocolOwnership
  import opened ProtocolMonitor
  import opened ProtocolWatch
  import opened ProtocolRuns
  import opened ProtocolSteps
  import opened ProtocolOutcomes

  // ---- a run, state by state ----

  ghost predicate Took(st: seq<State>, acts: seq<Action>, i: nat)
    requires |st| == |acts| + 1 && i < |acts|
  {
    st[i + 1] == Apply(st[i], acts[i])
  }

  /** The states of a run: `st[k]` is the one before action `k`. */
  ghost predicate IsRun(st: seq<State>, acts: seq<Action>) {
    |st| == |acts| + 1 && st[0] == INIT && forall i :: 0 <= i < |acts| ==> Took(st, acts, i)
  }

  /** Every sequence of actions has exactly these states. */
  lemma {:induction false} RunIsExec(st: seq<State>, acts: seq<Action>, k: nat)
    requires IsRun(st, acts) && k <= |acts|
    ensures st[k] == Exec(acts[..k])
  {
    if k > 0 {
      RunIsExec(st, acts, k - 1);
      assert Took(st, acts, k - 1);
      ExecNext(acts, k - 1);
    }
  }

  lemma ExecNext(acts: seq<Action>, k: nat)
    requires k < |acts|
    ensures Exec(acts[..k + 1]) == Apply(Exec(acts[..k]), acts[k])
  {
    assert acts[..k + 1][..k] == acts[..k] && acts[..k + 1][k] == acts[k];
  }

  lemma RunExists(acts: seq<Action>) returns (st: seq<State>)
    ensures IsRun(st, acts) && st[|acts|] == Exec(acts)
  {
    st := seq(|acts| + 1, k requires 0 <= k <= |acts| => Exec(acts[..k]));
    forall i | 0 <= i < |acts| ensures Took(st, acts, i) { ExecNext(acts, i); }
    assert acts[..|acts|] == acts && acts[..0] == [];
  }

  lemma StateIsGood(st: seq<State>, acts: seq<Action>, k: nat)
    requires IsRun(st, acts) && k <= |acts|
    ensures Good(st[k])
  {
    RunIsExec(st, acts, k);
    RunsAreGood(acts[..k]);
  }

  lemma {:induction false} InOrder(st: seq<State>, acts: seq<Action>, m: nat, e: nat)
    requires IsRun(st, acts) && m <= e <= |acts|
    ensures st[m].log <= st[e].log
  {
    if m < e {
      InOrder(st, acts, m, e - 1);
      assert Took(st, acts, e - 1);
      LogOnlyGrows(st[e - 1], acts[e - 1]);
    }
  }

  // ---- a thread's next step ----

  /** Action `m` is the first step that thread `t` takes after action `n`. */
  ghost predicate NextStep(acts: seq<Action>, n: nat, m: nat, t: Tid) {
    && n < m < |acts| && acts[m].Run? && acts[m].t == t
    && forall i :: n < i < m ==> !(acts[i].Run? && acts[i].t == t)
  }

  /** An action of another thread, of the media or of the core. */
  predicate NotOf(a: Action, t: Tid) { !(a.Run? && a.t == t) }

  lemma StandsStill(s: State, a: Action, t: Tid)
    requires PcOf(s, t) != Idle && NotOf(a, t)
    ensures PcOf(Apply(s, a), t) == PcOf(s, t)
  {
    if Enabled(s, a) && Touched(s, a) <= s.table.recs.Keys {
      OthersStand(s, a, t);
    }
  }

  lemma TakesStep(st: seq<State>, acts: seq<Action>, m: nat)
    requires IsRun(st, acts) && m < |acts|
    ensures st[m + 1] == Apply(st[m], acts[m])
  {
    assert Took(st, acts, m);
  }

  lemma {:induction false} WaitsThere(st: seq<State>, acts: seq<Action>, n: nat, m: nat, t: Tid)
    requires IsRun(st, acts) && n < m <= |acts| && PcOf(st[n + 1], t) != Idle && forall i :: n < i < m ==> NotOf(acts[i], t)
    ensures PcOf(st[m], t) == PcOf(st[n + 1], t)
  {
    if m > n + 1 {
      WaitsThere(st, acts, n, m - 1, t);
      TakesStep(st, acts, m - 1);
      StandsStill(st[m - 1], acts[m - 1], t);
    }
  }

  // ---- an attached fork stays so while its recording is pinned, or is closed ----

  lemma StartMedia(s: State, t: Tid, pc: PC, c: Choice, r: RecId)
    requires InStart(pc) && TouchedBy(s, pc) <= s.table.recs.Keys && pc != Attaching(r) && pc != Wiring(r)
    requires r in s.table.recs && r in StepStart(s, t, pc, c).table.recs
    ensures StepStart(s, t, pc, c).table.recs[r].media == s.table.recs[r].media
  {
    match pc
    case Allocated(q) => InsertMedia(s, t, q, r);
    case Discarding(q) => assert StepStart(s, t, pc, c) == StepDiscard(s, t, q);
    case Finishing(q) => assert StepStart(s, t, pc, c) == StepFinish(s, t, q);
    case Inviting(q) => assert StepStart(s, t, pc, c) == StepInvite(s, t, q, c);
    case Attaching(q) => assert StepStart(s, t, pc, c) == StepAttach(s, t, q, c);
    case _ =>
  }

  lemma InsertMedia(s: State, t: Tid, q: RecId, r: RecId)
    requires q in s.table.recs && AtKey(s, s.table.recs[q].key) <= s.table.recs.Keys && r in s.table.recs
    ensures r in StepInsert(s, t, q).table.recs && StepInsert(s, t, q).table.recs[r].media == s.table.recs[r].media
  {
  }

  lemma DirectionMedia(s: State, t: Tid, pc: PC, c: Choice, r: RecId)
    requires InDirection(pc) && TouchedBy(s, pc) <= s.table.recs.Keys && r in s.table.recs
    ensures r in StepDirection(s, t, pc, c).table.recs
    ensures StepDirection(s, t, pc, c).table.recs[r].media == s.table.recs[r].media
  {
    match pc
    case Acquiring(_, _, _) => assert StepDirection(s, t, pc, c) == StepAcquire(s, t, pc);
    case Reinviting(_, _, _) => assert StepDirection(s, t, pc, c) == StepReinvite(s, t, pc, c);
    case _ =>
  }

  lemma StopMedia(s: State, t: Tid, pc: PC, c: Choice, r: RecId)
    requires !InStart(pc) && !InDirection(pc) && !pc.Tearing? && TouchedBy(s, pc) <= s.table.recs.Keys && r in s.table.recs
    ensures r in StepStop(s, t, pc, c).table.recs && StepStop(s, t, pc, c).table.recs[r].media == s.table.recs[r].media
  {
    match pc
    case Claiming(key, call) => assert StepStop(s, t, pc, c) == StepClaim(s, t, key, call);
    case Draining(d) => DrainMedia(s, t, d, r);
    case LegEnding(key, leg) => assert StepStop(s, t, pc, c) == StepLegEnd(s, t, key, leg);
    case HandlerScan(call, start) => assert StepStop(s, t, pc, c) == StepHandlerScan(s, t, call, start);
    case _ =>
  }

  lemma DrainMedia(s: State, t: Tid, d: Drain, r: RecId)
    requires (d.pending != [] ==> AtKey(s, d.pending[0].0) <= s.table.recs.Keys) && r in s.table.recs
    ensures r in StepDrain(s, t, d).table.recs && StepDrain(s, t, d).table.recs[r].media == s.table.recs[r].media
  {
  }

  ghost predicate WiredOrClosed(s: State, s': State, r: RecId) {
    (r in s'.table.recs && s'.table.recs[r].media == Wired(true)) || s'.log == s.log + [Close(r)]
  }

  /** The fork of a pinned recording, wired with its bug on the call, after any action: still so, or just closed. */
  lemma WiredNext(s: State, a: Action, u: Tid, r: RecId)
    requires Good(s) && Pin(PcOf(s, u)) == Some(r) && r in s.table.recs && s.table.recs[r].media == Wired(true)
    ensures WiredOrClosed(s, Apply(s, a), r)
  {
    if Enabled(s, a) && Touched(s, a) <= s.table.recs.Keys {
      if a.Run? { StepWired(s, a.t, a.c, u, r); }
      else if a.Tick? || a.TickSend? || a.TickDone? || a.CoreClose? { MediaWired(s, a, r); }
      else { assert PhaseOk(s, r); }
    }
  }

  lemma MediaWired(s: State, a: Action, r: RecId)
    requires Enabled(s, a) && Touched(s, a) <= s.table.recs.Keys && r in s.table.recs && s.table.recs[r].media == Wired(true)
    requires a.Tick? || a.TickSend? || a.TickDone? || a.CoreClose?
    ensures WiredOrClosed(s, Effect(s, a), r)
  {
  }

  lemma StepWired(s: State, t: Tid, c: Choice, u: Tid, r: RecId)
    requires Good(s) && Pin(PcOf(s, u)) == Some(r) && r in s.table.recs && s.table.recs[r].media == Wired(true)
    requires TouchedBy(s, PcOf(s, t)) <= s.table.recs.Keys && PcOf(s, t) != Idle
    ensures r in Step(s, t, c).table.recs && Step(s, t, c).table.recs[r].media == Wired(true)
  {
    var pc := PcOf(s, t);
    if InStart(pc) { StartWired(s, t, pc, c, u, r); }
    else if InDirection(pc) { DirectionMedia(s, t, pc, c, r); }
    else if pc.Tearing? { TearSpares(s, t, pc, c, u, r); }
    else { StopMedia(s, t, pc, c, r); }
  }

  lemma StartWired(s: State, t: Tid, pc: PC, c: Choice, u: Tid, r: RecId)
    requires Good(s) && Pin(PcOf(s, u)) == Some(r) && r in s.table.recs && s.table.recs[r].media == Wired(true)
    requires PcOf(s, t) == pc && InStart(pc) && TouchedBy(s, pc) <= s.table.recs.Keys
    ensures r in StepStart(s, t, pc, c).table.recs && StepStart(s, t, pc, c).table.recs[r].media == Wired(true)
  {
    PinnedIsLive(s, u, r);
    if pc.Refused? { OwnedIsIdle(s, t, pc.r); }
    WiredIsPast(s, t, pc, r);
    StartLive(s, t, pc, c, r);
    StartMedia(s, t, pc, c, r);
  }

  lemma WiredIsPast(s: State, t: Tid, pc: PC, r: RecId)
    requires StartersOk(s) && PcOf(s, t) == pc && r in s.table.recs && s.table.recs[r].media == Wired(true)
    ensures pc != Attaching(r) && pc != Wiring(r)
  {
    assert StarterOk(s, t);
  }

  lemma StartLive(s: State, t: Tid, pc: PC, c: Choice, r: RecId)
    requires InStart(pc) && TouchedBy(s, pc) <= s.table.recs.Keys && pc != Refused(r) && r in s.table.recs
    ensures r in StepStart(s, t, pc, c).table.recs
  {
    match pc
    case Allocated(q) => InsertMedia(s, t, q, r);
    case Finishing(q) => assert StepStart(s, t, pc, c) == StepFinish(s, t, q);
    case Discarding(q) => assert StepStart(s, t, pc, c) == StepDiscard(s, t, q);
    case _ =>
  }

  lemma TearSpares(s: State, t: Tid, pc: PC, c: Choice, u: Tid, r: RecId)
    requires Good(s) && PcOf(s, t) == pc && pc.Tearing? && pc.victim in s.table.recs && Pin(PcOf(s, u)) == Some(r)
    ensures r in s.table.recs && r in StepTear(s, t, pc.victim, pc.step, pc.next, c).table.recs
    ensures StepTear(s, t, pc.victim, pc.step, pc.next, c).table.recs[r] == s.table.recs[r]
  {
    PinnedIsLive(s, u, r);
    OwnedIsIdle(s, t, pc.victim);
    TearTouchesVictim(s, t, pc, c, r);
  }

  lemma TearTouchesVictim(s: State, t: Tid, pc: PC, c: Choice, r: RecId)
    requires pc.Tearing? && pc.victim in s.table.recs && r in s.table.recs && r != pc.victim
    ensures r in StepTear(s, t, pc.victim, pc.step, pc.next, c).table.recs
    ensures StepTear(s, t, pc.victim, pc.step, pc.next, c).table.recs[r] == s.table.recs[r]
  {
  }

  // ---- an operation under way ----

  predicate Begins(a: Action, t: Tid) {
    match a
    case BeginStart(u, _, _, _) => u == t
    case BeginDirection(u, _, _, _, _) => u == t
    case BeginStop(u, _, _) => u == t
    case BeginDrain(u, _, _, _) => u == t
    case BeginLegEnd(u, _, _) => u == t
    case _ => false
  }

  /** From action `n` on up to action `e` thread `t` begins nothing else. */
  ghost predicate OneOperation(acts: seq<Action>, n: nat, e: nat, t: Tid) {
    n < e <= |acts| && forall i :: n < i < e ==> !Begins(acts[i], t)
  }

  /** Thread `t` is idle, begins a pause or resume with action `n`, and its first step, action `m`, finds `r` under the key,
    * its fork attached. */
  ghost predicate FindsAttached(st: seq<State>, acts: seq<Action>, n: nat, m: nat, t: Tid, handle: string, uuid: string,
                                resume: bool, r: RecId)
    requires |st| == |acts| + 1
  {
    && NextStep(acts, n, m, t) && PcOf(st[n], t) == Idle
    && acts[n].BeginDirection? && acts[n] == BeginDirection(t, handle, uuid, resume, acts[n].srcEnabled)
    && (resume ==> acts[n].srcEnabled)
    && var tb := st[m].table;
       var key := handle + "-" + uuid;
       key in tb.hash && tb.hash[key] == r && (r in tb.recs ==> tb.recs[r].media == Wired(true))
  }

  /** The longer log has the event where the shorter one had ended. */
  ghost predicate IsNew(was: seq<Event>, log: seq<Event>, x: Event) {
    exists i :: |was| <= i < |log| && log[i] == x
  }

  /** The event was logged between two moments of a run. */
  ghost predicate Logged(st: seq<State>, m: nat, e: nat, x: Event)
    requires m <= e < |st|
  {
    IsNew(st[m].log, st[e].log, x)
  }

  lemma Within(a: seq<Event>, b: seq<Event>, c: seq<Event>, d: seq<Event>, x: Event)
    requires a <= b <= c <= d && IsNew(b, c, x)
    ensures IsNew(a, d, x)
  {
    var i :| |b| <= i < |c| && c[i] == x;
    assert d[i] == x;
  }

  /** What was logged in between was logged between the two ends. */
  lemma LoggedWithin(st: seq<State>, acts: seq<Action>, m: nat, i: nat, j: nat, e: nat, x: Event)
    requires IsRun(st, acts) && m <= i <= j <= e <= |acts| && Logged(st, i, j, x)
    ensures Logged(st, m, e, x)
  {
    InOrder(st, acts, m, i);
    InOrder(st, acts, i, j);
    InOrder(st, acts, j, e);
    Within(st[m].log, st[i].log, st[j].log, st[e].log, x);
  }

  /** Either event, once logged, stays so. */
  lemma EitherStays(st: seq<State>, acts: seq<Action>, m: nat, i: nat, e: nat, x: Event, y: Event)
    requires IsRun(st, acts) && m <= i <= e <= |acts| && (Logged(st, m, i, x) || Logged(st, m, i, y))
    ensures Logged(st, m, e, x) || Logged(st, m, e, y)
  {
    if Logged(st, m, i, x) { LoggedWithin(st, acts, m, m, i, e, x); } else { LoggedWithin(st, acts, m, m, i, e, y); }
  }

  lemma LoggedNow(st: seq<State>, acts: seq<Action>, m: nat, i: nat, x: Event)
    requires IsRun(st, acts) && m <= i < |acts| && st[i + 1].log == st[i].log + [x]
    ensures Logged(st, m, i + 1, x)
  {
    assert st[i + 1].log[|st[i].log|] == x;
    LoggedWithin(st, acts, m, i, i + 1, i + 1, x);
  }

  /** The first step of a pause or resume that finds a recording pins it. */
  lemma FirstStepPins(
      st: seq<State>, acts: seq<Action>, n: nat, m: nat, t: Tid, handle: string, uuid: string, resume: bool, r: RecId)
    requires IsRun(st, acts) && FindsAttached(st, acts, n, m, t, handle, uuid, resume, r)
    ensures var s := st[m + 1];
      && r in s.table.recs && s.table.recs[r].media == Wired(true)
      && PcOf(s, t) == if resume then Checking(r, uuid, true) else Gating(r, uuid)
  {
    TakesStep(st, acts, n);
    WaitsThere(st, acts, n, m, t);
    TakesStep(st, acts, m);
    var s := st[m];
    assert PcOf(s, t) == Acquiring(handle + "-" + uuid, uuid, resume);
    StateIsGood(st, acts, m);
    TouchesLive(s, acts[m]);
    HashKeys(s);
    AcquireFinds(s, t, handle + "-" + uuid, uuid, resume, r, acts[m].c);
  }

  lemma AcquireFinds(s: State, t: Tid, key: string, uuid: string, resume: bool, r: RecId, c: Choice)
    requires PcOf(s, t) == Acquiring(key, uuid, resume) && key in s.table.hash && s.table.hash[key] == r && r in s.table.recs
    ensures var s' := Apply(s, Run(t, c));
      && r in s'.table.recs && s'.table.recs[r].media == s.table.recs[r].media
      && PcOf(s', t) == if resume then Checking(r, uuid, true) else Gating(r, uuid)
  {
    assert Step(s, t, c) == StepAcquire(s, t, PcOf(s, t));
  }

  /** Working on `r`, which it pins. */
  predicate WorksOn(pc: PC, r: RecId) {
    match pc
    case Gating(q, _) => q == r
    case Checking(q, _, _) => q == r
    case Reinviting(q, _, _) => q == r
    case Ungating(q, _) => q == r
    case Releasing(q, _) => q == r
    case _ => false
  }

  predicate Ended(pc: PC) { pc == Idle || (pc.Tearing? && pc.next == ToIdle) }

  ghost predicate WiredSince(st: seq<State>, m: nat, i: nat, r: RecId)
    requires m <= i <= |st| - 1
  {
    || (r in st[i].table.recs && st[i].table.recs[r].media == Wired(true))
    || Logged(st, m, i, Close(r))
  }

  /** The operation works on `r` with its fork attached, unless that was closed meanwhile, or it is over. */
  ghost predicate UnderWay(st: seq<State>, m: nat, i: nat, t: Tid, r: RecId)
    requires m <= i <= |st| - 1
  {
    (WorksOn(PcOf(st[i], t), r) && WiredSince(st, m, i, r)) || Ended(PcOf(st[i], t))
  }

  lemma NextPc(s: State, t: Tid, c: Choice, r: RecId)
    requires TouchedBy(s, PcOf(s, t)) <= s.table.recs.Keys && PcOf(s, t) != Idle
    ensures WorksOn(PcOf(s, t), r) ==> WorksOn(PcOf(Step(s, t, c), t), r) || Ended(PcOf(Step(s, t, c), t))
    ensures Ended(PcOf(s, t)) ==> Ended(PcOf(Step(s, t, c), t))
  {
    if PcOf(s, t).Reinviting? { assert Step(s, t, c) == StepReinvite(s, t, PcOf(s, t), c); }
  }

  lemma PcAfter(s: State, a: Action, t: Tid, r: RecId)
    requires Good(s) && !Begins(a, t)
    ensures WorksOn(PcOf(s, t), r) ==> WorksOn(PcOf(Apply(s, a), t), r) || Ended(PcOf(Apply(s, a), t))
    ensures Ended(PcOf(s, t)) ==> Ended(PcOf(Apply(s, a), t))
  {
    if Enabled(s, a) && Touched(s, a) <= s.table.recs.Keys {
      if a.Run? && a.t == t { NextPc(s, t, a.c, r); } else { OthersStand(s, a, t); }
    }
  }

  lemma WiredAfter(st: seq<State>, acts: seq<Action>, m: nat, i: nat, t: Tid, r: RecId)
    requires IsRun(st, acts) && m <= i < |acts| && WorksOn(PcOf(st[i], t), r) && WiredSince(st, m, i, r)
    ensures WiredSince(st, m, i + 1, r)
  {
    var s := st[i];
    StateIsGood(st, acts, i);
    TakesStep(st, acts, i);
    PinnedIsLive(s, t, r);
    if Logged(st, m, i, Close(r)) { LoggedWithin(st, acts, m, m, i, i + 1, Close(r)); }
    else {
      WiredNext(s, acts[i], t, r);
      if st[i + 1].log == s.log + [Close(r)] { LoggedNow(st, acts, m, i, Close(r)); }
    }
  }

  lemma {:induction false} StaysUnderWay(st: seq<State>, acts: seq<Action>, m: nat, i: nat, e: nat, t: Tid, r: RecId)
    requires IsRun(st, acts)
    requires m <= i <= e <= |acts| && UnderWay(st, m, i, t, r) && forall j :: i <= j < e ==> !Begins(acts[j], t)
    ensures UnderWay(st, m, e, t, r)
  {
    if i < e {
      StaysUnderWay(st, acts, m, i, e - 1, t, r);
      UnderWayAfter(st, acts, m, e - 1, t, r);
    }
  }

  lemma UnderWayAfter(st: seq<State>, acts: seq<Action>, m: nat, i: nat, t: Tid, r: RecId)
    requires IsRun(st, acts) && m <= i < |acts| && UnderWay(st, m, i, t, r) && !Begins(acts[i], t)
    ensures UnderWay(st, m, i + 1, t, r)
  {
    StateIsGood(st, acts, i);
    TakesStep(st, acts, i);
    PcAfter(st[i], acts[i], t, r);
    if WorksOn(PcOf(st[i], t), r) && WiredSince(st, m, i, r) { WiredAfter(st, acts, m, i, t, r); }
  }

  /** A thread that moved has taken a step. */
  lemma {:induction false} SteppedBetween(st: seq<State>, acts: seq<Action>, m: nat, e: nat, t: Tid) returns (k: nat)
    requires IsRun(st, acts) && m + 1 <= e <= |acts| && PcOf(st[m + 1], t) != Idle
    requires PcOf(st[e], t) != PcOf(st[m + 1], t)
    ensures NextStep(acts, m, k, t) && k < e
  {
    if forall i :: m < i < e ==> NotOf(acts[i], t) { WaitsThere(st, acts, m, e, t); k := m; }
    else {
      var j :| m < j < e && !NotOf(acts[j], t);
      k := FirstOf(acts, m, j, t);
    }
  }

  lemma {:induction false} FirstOf(acts: seq<Action>, m: nat, j: nat, t: Tid) returns (k: nat)
    requires m < j < |acts| && !NotOf(acts[j], t)
    ensures NextStep(acts, m, k, t) && k <= j
    decreases j
  {
    if i :| m < i < j && !NotOf(acts[i], t) { k := FirstOf(acts, m, i, t); } else { k := j; }
  }

  // ---- pauses gate ----

  lemma GateStep(s: State, t: Tid, c: Choice, r: RecId, call: string)
    requires Good(s) && PcOf(s, t) == Gating(r, call) && r in s.table.recs && s.table.recs[r].media == Wired(true)
    ensures Apply(s, Run(t, c)).log == s.log + [Gate(t, r)]
  {
    assert Consistent(ViewOf(s, r), Monitor(s.log, r));
    TouchesLive(s, Run(t, c));
  }

  /** In any run: the step after the one by which a pause found an attached recording gates it, and reads nothing else of
    * it before; unless the core, or a tick that saw the leg gone, closed the fork in between. */
  lemma PauseGatesFirst(
      st: seq<State>, acts: seq<Action>, n: nat, m: nat, k: nat, t: Tid, handle: string, uuid: string, r: RecId)
    requires IsRun(st, acts) && FindsAttached(st, acts, n, m, t, handle, uuid, false, r) && NextStep(acts, m, k, t)
    ensures Logged(st, m, k + 1, Gate(t, r)) || Logged(st, m, k + 1, Close(r))
  {
    FirstStepPins(st, acts, n, m, t, handle, uuid, false, r);
    WaitsThere(st, acts, m, k, t);
    WiredThrough(st, acts, m + 1, k, t, r);
    GatesAt(st, acts, m, k, t, r, uuid);
  }

  lemma GatesAt(st: seq<State>, acts: seq<Action>, m: nat, k: nat, t: Tid, r: RecId, call: string)
    requires IsRun(st, acts) && m < k < |acts| && PcOf(st[k], t) == Gating(r, call)
    requires acts[k].Run? && acts[k].t == t && WiredSince(st, m + 1, k, r)
    ensures Logged(st, m, k + 1, Gate(t, r)) || Logged(st, m, k + 1, Close(r))
  {
    if Logged(st, m + 1, k, Close(r)) { ClosedEarlier(st, acts, m, k, r); }
    else {
      TakesStep(st, acts, k);
      StateIsGood(st, acts, k);
      GateStep(st[k], t, acts[k].c, r, call);
      LoggedNow(st, acts, m, k, Gate(t, r));
    }
  }

  lemma ClosedEarlier(st: seq<State>, acts: seq<Action>, m: nat, k: nat, r: RecId)
    requires IsRun(st, acts) && m < k < |acts| && Logged(st, m + 1, k, Close(r))
    ensures Logged(st, m, k + 1, Close(r))
  {
    LoggedWithin(st, acts, m, m + 1, k, k + 1, Close(r));
  }

  lemma {:induction false} WiredThrough(st: seq<State>, acts: seq<Action>, i: nat, e: nat, t: Tid, r: RecId)
    requires IsRun(st, acts) && i <= e <= |acts| && WorksOn(PcOf(st[i], t), r) && forall j :: i <= j < e ==> NotOf(acts[j], t)
    requires r in st[i].table.recs && st[i].table.recs[r].media == Wired(true)
    ensures WiredSince(st, i, e, r)
  {
    if i < e {
      WiredThrough(st, acts, i, e - 1, t, r);
      StandsThrough(st, acts, i, e - 1, t);
      WiredAfter(st, acts, i, e - 1, t, r);
    }
  }

  lemma {:induction false} StandsThrough(st: seq<State>, acts: seq<Action>, i: nat, e: nat, t: Tid)
    requires IsRun(st, acts) && i <= e <= |acts| && PcOf(st[i], t) != Idle && forall j :: i <= j < e ==> NotOf(acts[j], t)
    ensures PcOf(st[e], t) == PcOf(st[i], t)
  {
    if i < e {
      StandsThrough(st, acts, i, e - 1, t);
      TakesStep(st, acts, e - 1);
      StandsStill(st[e - 1], acts[e - 1], t);
    }
  }

  /** ... so by the time the pause has returned the recording was gated, or its fork closed. */
  lemma PausedByReturn(
      st: seq<State>, acts: seq<Action>, n: nat, m: nat, e: nat, t: Tid, handle: string, uuid: string, r: RecId)
    requires IsRun(st, acts)
    requires FindsAttached(st, acts, n, m, t, handle, uuid, false, r) && m < e <= |acts| && PcOf(st[e], t) == Idle
    ensures Logged(st, m, e, Gate(t, r)) || Logged(st, m, e, Close(r))
  {
    FirstStepPins(st, acts, n, m, t, handle, uuid, false, r);
    var k := SteppedBetween(st, acts, m, e, t);
    PauseGatesFirst(st, acts, n, m, k, t, handle, uuid, r);
    EitherStays(st, acts, m, k + 1, e, Gate(t, r), Close(r));
  }

  // ---- resumes ungate ----

  lemma UngateStep(s: State, t: Tid, c: Choice, r: RecId, call: string)
    requires Good(s) && PcOf(s, t) == Ungating(r, call) && r in s.table.recs && s.table.recs[r].media == Wired(true)
    ensures Apply(s, Run(t, c)).log == s.log + [Ungate(t, r)]
    ensures r in Apply(s, Run(t, c)).bugs && !Apply(s, Run(t, c)).bugs[r].paused
  {
    assert Consistent(ViewOf(s, r), Monitor(s.log, r));
    TouchesLive(s, Run(t, c));
  }

  /** An answered re-INVITE is logged by its own resume, which goes on to ungate. */
  lemma ReinvitedGoesOn(s: State, a: Action, t: Tid, r: RecId)
    requires Good(s) && IsNew(s.log, Apply(s, a).log, Reinvited(t, r))
    ensures PcOf(s, t).Reinviting? && PcOf(s, t).r == r && PcOf(Apply(s, a), t).Ungating? && PcOf(Apply(s, a), t).r == r
  {
    ReinvitedBy(s, a, t, r);
    assert Step(s, t, a.c) == StepReinvite(s, t, PcOf(s, t), a.c);
  }

  lemma ReinvitedBy(s: State, a: Action, t: Tid, r: RecId)
    requires IsNew(s.log, Apply(s, a).log, Reinvited(t, r))
    ensures a.Run? && a.t == t && Enabled(s, a) && Touched(s, a) <= s.table.recs.Keys
    ensures PcOf(s, t).Reinviting? && PcOf(s, t).r == r
  {
    var log := Apply(s, a).log;
    var x :| |s.log| <= x < |log| && log[x] == Reinvited(t, r);
    if a.Run? { ReinvitedAt(s, a.t, a.c, x, t, r); }
  }

  lemma ReinvitedAt(s: State, u: Tid, c: Choice, x: nat, t: Tid, r: RecId)
    requires TouchedBy(s, PcOf(s, u)) <= s.table.recs.Keys && PcOf(s, u) != Idle
    requires |s.log| <= x < |Step(s, u, c).log| && Step(s, u, c).log[x] == Reinvited(t, r)
    ensures u == t && PcOf(s, t).Reinviting? && PcOf(s, t).r == r
  {
    StepShaped(s, u, c);
    assert Logs(s, u, PcOf(s, u), c, Step(s, u, c).log[x]);
  }

  /** The action that logged an event. */
  lemma {:induction false} LoggedBy(st: seq<State>, acts: seq<Action>, m: nat, e: nat, x: Event) returns (i: nat)
    requires IsRun(st, acts) && m <= e <= |acts| && Logged(st, m, e, x)
    ensures m <= i < e && Logged(st, i, i + 1, x)
  {
    EarlierOrLast(st, acts, m, e, x);
    if Logged(st, m, e - 1, x) { i := LoggedBy(st, acts, m, e - 1, x); } else { i := e - 1; }
  }

  lemma EarlierOrLast(st: seq<State>, acts: seq<Action>, m: nat, e: nat, x: Event)
    requires IsRun(st, acts) && m <= e <= |acts| && Logged(st, m, e, x)
    ensures m < e && (Logged(st, m, e - 1, x) || Logged(st, e - 1, e, x))
  {
    var i :| |st[m].log| <= i < |st[e].log| && st[e].log[i] == x;
    InOrder(st, acts, e - 1, e);
    if i < |st[e - 1].log| { assert st[e - 1].log[i] == x; }
  }

  /** In any run: a resume whose re-INVITE for an attached recording was answered has ungated it by the time it returns,
    * unless the fork was closed. */
  lemma ResumedByReturn(
      st: seq<State>, acts: seq<Action>, n: nat, m: nat, e: nat, t: Tid, handle: string, uuid: string, r: RecId)
    requires IsRun(st, acts) && FindsAttached(st, acts, n, m, t, handle, uuid, true, r) && m < e && OneOperation(acts, n, e, t)
    requires PcOf(st[e], t) == Idle && Logged(st, m + 1, e, Reinvited(t, r))
    ensures Logged(st, m, e, Ungate(t, r)) || Logged(st, m, e, Close(r))
  {
    FirstStepPins(st, acts, n, m, t, handle, uuid, true, r);
    var k := UngatesOnce(st, acts, m, e, t, r);
    EitherStays(st, acts, m, k + 1, e, Ungate(t, r), Close(r));
  }

  lemma UngatesOnce(st: seq<State>, acts: seq<Action>, m: nat, e: nat, t: Tid, r: RecId) returns (k: nat)
    requires IsRun(st, acts)
    requires m + 1 <= e <= |acts| && UnderWay(st, m + 1, m + 1, t, r) && forall j :: m < j < e ==> !Begins(acts[j], t)
    requires Logged(st, m + 1, e, Reinvited(t, r)) && PcOf(st[e], t) == Idle
    ensures m < k < e && (Logged(st, m, k + 1, Ungate(t, r)) || Logged(st, m, k + 1, Close(r)))
  {
    var i := AnsweredAt(st, acts, m, e, t, r);
    k := UngatesBefore(st, acts, m, i, e, t, r);
    UngatesAt(st, acts, m, k, t, r);
  }

  /** After its answer a resume that has returned has taken the step that ungates. */
  lemma UngatesBefore(st: seq<State>, acts: seq<Action>, m: nat, i: nat, e: nat, t: Tid, r: RecId) returns (k: nat)
    requires IsRun(st, acts)
    requires m < i < e <= |acts| && UnderWay(st, m + 1, i + 1, t, r) && forall j :: m < j < e ==> !Begins(acts[j], t)
    requires PcOf(st[i + 1], t).Ungating? && PcOf(st[i + 1], t).r == r && PcOf(st[e], t) == Idle
    ensures i < k < e && acts[k].Run? && acts[k].t == t && WiredSince(st, m + 1, k, r)
    ensures PcOf(st[k], t).Ungating? && PcOf(st[k], t).r == r
  {
    k := SteppedBetween(st, acts, i, e, t);
    WaitsThere(st, acts, i, k, t);
    StaysUnderWay(st, acts, m + 1, i + 1, k, t, r);
  }

  /** The action by which a resume had its answer. */
  lemma AnsweredAt(st: seq<State>, acts: seq<Action>, m: nat, e: nat, t: Tid, r: RecId) returns (i: nat)
    requires IsRun(st, acts)
    requires m + 1 <= e <= |acts| && UnderWay(st, m + 1, m + 1, t, r) && forall j :: m < j < e ==> !Begins(acts[j], t)
    requires Logged(st, m + 1, e, Reinvited(t, r))
    ensures m < i < e && UnderWay(st, m + 1, i + 1, t, r)
    ensures PcOf(st[i + 1], t).Ungating? && PcOf(st[i + 1], t).r == r
  {
    i := LoggedBy(st, acts, m + 1, e, Reinvited(t, r));
    StaysUnderWay(st, acts, m + 1, m + 1, i + 1, t, r);
    GoesOnAt(st, acts, i, t, r);
  }

  lemma GoesOnAt(st: seq<State>, acts: seq<Action>, i: nat, t: Tid, r: RecId)
    requires IsRun(st, acts) && i < |acts| && Logged(st, i, i + 1, Reinvited(t, r))
    ensures PcOf(st[i + 1], t).Ungating? && PcOf(st[i + 1], t).r == r
  {
    StateIsGood(st, acts, i);
    TakesStep(st, acts, i);
    ReinvitedGoesOn(st[i], acts[i], t, r);
  }

  lemma UngatesAt(st: seq<State>, acts: seq<Action>, m: nat, k: nat, t: Tid, r: RecId)
    requires IsRun(st, acts) && m < k < |acts| && PcOf(st[k], t).Ungating? && PcOf(st[k], t).r == r
    requires acts[k].Run? && acts[k].t == t && WiredSince(st, m + 1, k, r)
    ensures Logged(st, m, k + 1, Ungate(t, r)) || Logged(st, m, k + 1, Close(r))
  {
    TakesStep(st, acts, k);
    if Logged(st, m + 1, k, Close(r)) { ClosedEarlier(st, acts, m, k, r); }
    else {
      StateIsGood(st, acts, k);
      UngateStep(st[k], t, acts[k].c, r, PcOf(st[k], t).call);
      LoggedNow(st, acts, m, k, Ungate(t, r));
    }
  }
}
