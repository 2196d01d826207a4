/** A leg is used up for good: by the BYE that ends it, or by a re-INVITE that could not find it. */
module ProtocolLegs {
  import opened Common
  import opened RecordingTable
  import opened RecordingProtocol
  import opened ProtocolOwnership
  import opened ProtocolMonitor
  import opened ProtocolWatch
  import opened ProtocolRuns
  import opened ProtocolSteps
  import opened ProtocolOutcomes

  /** The recording, while it exists, names no leg any more. */
  ghost predicate Spent(s: State, r: RecId) {
    PhaseOf(s, r) != Unborn && (r in s.table.recs ==> s.table.recs[r].leg == Blank)
  }

  /** Its leg is what it was, or blank. */
  ghost predicate NoNewLeg(s: State, s': State, r: RecId) {
    r in s'.table.recs ==> r in s.table.recs && s'.table.recs[r].leg in {s.table.recs[r].leg, Blank}
  }

  lemma StartLeg(s: State, t: Tid, pc: PC, c: Choice, r: RecId)
    requires InStart(pc) && TouchedBy(s, pc) <= s.table.recs.Keys && pc != Inviting(r)
    ensures NoNewLeg(s, StepStart(s, t, pc, c), r)
  {
    match pc
    case Allocated(q) => InsertLeg(s, t, q, r);
    case Discarding(q) => DiscardLeg(s, t, q, r);
    case Finishing(q) => FinishLeg(s, t, q, r);
    case Inviting(q) => assert StepStart(s, t, pc, c) == StepInvite(s, t, q, c);
    case Attaching(q) => assert StepStart(s, t, pc, c) == StepAttach(s, t, q, c);
    case _ =>
  }

  lemma InsertLeg(s: State, t: Tid, q: RecId, r: RecId)
    requires q in s.table.recs && AtKey(s, s.table.recs[q].key) <= s.table.recs.Keys
    ensures NoNewLeg(s, StepInsert(s, t, q), r)
  {
  }

  lemma DiscardLeg(s: State, t: Tid, q: RecId, r: RecId)
    requires q in s.table.recs
    ensures NoNewLeg(s, StepDiscard(s, t, q), r)
  {
  }

  lemma FinishLeg(s: State, t: Tid, q: RecId, r: RecId)
    requires q in s.table.recs
    ensures NoNewLeg(s, StepFinish(s, t, q), r)
  {
  }

  lemma DirectionLeg(s: State, t: Tid, pc: PC, c: Choice, r: RecId)
    requires InDirection(pc) && TouchedBy(s, pc) <= s.table.recs.Keys
    ensures NoNewLeg(s, StepDirection(s, t, pc, c), r)
  {
    match pc
    case Acquiring(_, _, _) => assert StepDirection(s, t, pc, c) == StepAcquire(s, t, pc);
    case Reinviting(_, _, _) => assert StepDirection(s, t, pc, c) == StepReinvite(s, t, pc, c);
    case _ =>
  }

  lemma StopLeg(s: State, t: Tid, pc: PC, c: Choice, r: RecId)
    requires !InStart(pc) && !InDirection(pc) && !pc.Tearing? && TouchedBy(s, pc) <= s.table.recs.Keys
    ensures NoNewLeg(s, StepStop(s, t, pc, c), r)
  {
    match pc
    case Claiming(key, call) => assert StepStop(s, t, pc, c) == StepClaim(s, t, key, call);
    case Draining(d) => DrainLeg(s, t, d, r);
    case LegEnding(key, leg) => assert StepStop(s, t, pc, c) == StepLegEnd(s, t, key, leg);
    case HandlerScan(call, start) => assert StepStop(s, t, pc, c) == StepHandlerScan(s, t, call, start);
    case _ =>
  }

  lemma DrainLeg(s: State, t: Tid, d: Drain, r: RecId)
    requires d.pending != [] ==> AtKey(s, d.pending[0].0) <= s.table.recs.Keys
    ensures NoNewLeg(s, StepDrain(s, t, d), r)
  {
  }

  lemma TearLeg(s: State, t: Tid, pc: PC, c: Choice, r: RecId)
    requires pc.Tearing? && pc.victim in s.table.recs
    ensures NoNewLeg(s, StepTear(s, t, pc.victim, pc.step, pc.next, c), r)
  {
  }

  lemma StepLeg(s: State, t: Tid, c: Choice, r: RecId)
    requires TouchedBy(s, PcOf(s, t)) <= s.table.recs.Keys && PcOf(s, t) != Inviting(r)
    ensures NoNewLeg(s, Step(s, t, c), r)
  {
    var pc := PcOf(s, t);
    if InStart(pc) { StartLeg(s, t, pc, c, r); }
    else if InDirection(pc) { DirectionLeg(s, t, pc, c, r); }
    else if pc.Tearing? { TearLeg(s, t, pc, c, r); }
    else { StopLeg(s, t, pc, c, r); }
  }

  lemma SpentIsPastInvite(s: State, t: Tid, r: RecId)
    requires StartersOk(s) && Spent(s, r) && TouchedBy(s, PcOf(s, t)) <= s.table.recs.Keys
    ensures PcOf(s, t) != Inviting(r)
  {
    assert StarterOk(s, t);
  }

  lemma SpentNext(s: State, a: Action, r: RecId)
    requires Good(s) && Spent(s, r)
    ensures Spent(Apply(s, a), r)
  {
    if Enabled(s, a) && Touched(s, a) <= s.table.recs.Keys {
      RankGrows(s, a, r);
      SpentGetsNone(s, a, r);
      StillSpent(s, Effect(s, a), r);
    }
  }

  lemma StillSpent(s: State, s': State, r: RecId)
    requires Spent(s, r) && NoNewLeg(s, s', r) && Rank(PhaseOf(s, r)) <= Rank(PhaseOf(s', r))
    ensures Spent(s', r)
  {
  }

  lemma SpentGetsNone(s: State, a: Action, r: RecId)
    requires StartersOk(s) && Spent(s, r) && Enabled(s, a) && Touched(s, a) <= s.table.recs.Keys
    ensures NoNewLeg(s, Effect(s, a), r)
  {
    if a.Run? {
      SpentIsPastInvite(s, a.t, r);
      StepLeg(s, a.t, a.c, r);
    } else { OtherLeg(s, a, r); }
  }

  lemma OtherLeg(s: State, a: Action, r: RecId)
    requires Touched(s, a) <= s.table.recs.Keys && Enabled(s, a) && !a.Run? && PhaseOf(s, r) != Unborn
    ensures NoNewLeg(s, Effect(s, a), r)
  {
  }

  // ---- over runs ----

  /** Thread `t` uses up the leg of `r`: its re-INVITE finds no session for it, or its BYE does. */
  ghost predicate UsesUp(s: State, t: Tid, c: Choice, r: RecId) {
    && r in s.table.recs && s.table.recs[r].leg.OnLeg?
    && ((PcOf(s, t).Reinviting? && PcOf(s, t).r == r && !c.located)
        || (PcOf(s, t).Tearing? && PcOf(s, t).victim == r && PcOf(s, t).step == DoBye && c.located))
  }

  lemma UsedUp(acts: seq<Action>, t: Tid, c: Choice, r: RecId)
    requires UsesUp(Exec(acts), t, c, r)
    ensures Spent(Apply(Exec(acts), Run(t, c)), r)
  {
    var s, a := Exec(acts), Run(t, c);
    RunsAreGood(acts);
    TouchesLive(s, a);
    assert PhaseOk(s, r);
    RankGrows(s, a, r);
    if PcOf(s, t).Reinviting? { assert Step(s, t, c) == StepReinvite(s, t, PcOf(s, t), c); }
  }

  /** What a step marks names a leg. */
  lemma MarkedHasLeg(s: State, t: Tid, c: Choice, i: nat)
    requires TouchedBy(s, PcOf(s, t)) <= s.table.recs.Keys && PcOf(s, t) != Idle
    requires |s.log| <= i < |Step(s, t, c).log| && Step(s, t, c).log[i].Mark?
    ensures var r := Step(s, t, c).log[i].r; r in s.table.recs && s.table.recs[r].leg.OnLeg?
  {
    var pc := PcOf(s, t);
    StepShaped(s, t, c);
    assert Logs(s, t, pc, c, Step(s, t, c).log[i]);
    assert Step(s, t, c) == StepLegEnd(s, t, pc.key, pc.leg);
  }

  lemma SpentMarksNot(s: State, a: Action, r: RecId, leg: string)
    requires Spent(s, r) && Mark(r, leg) in Apply(s, a).log
    ensures Mark(r, leg) in s.log
  {
    if Enabled(s, a) && Touched(s, a) <= s.table.recs.Keys && a.Run? {
      StepShaped(s, a.t, a.c);
      var log := Step(s, a.t, a.c).log;
      var i :| 0 <= i < |log| && log[i] == Mark(r, leg);
      if i >= |s.log| { MarkedHasLeg(s, a.t, a.c, i); }
    }
  }

  /** A leg is used up for good. Once a re-INVITE could not find it, or the BYE found it, no later hangup of any leg marks the
    * recording, and in every state from then on the recording, while it exists, names no leg. */
  lemma UsedLegIsGone(acts: seq<Action>, t: Tid, c: Choice, r: RecId, more: seq<Action>)
    requires UsesUp(Exec(acts), t, c, r)
    ensures var s, s' := Exec(acts), Exec(acts + [Run(t, c)] + more);
      && (r in s'.table.recs ==> s'.table.recs[r].leg == Blank)
      && forall leg: string :: Mark(r, leg) in s'.log ==> Mark(r, leg) in s.log
  {
    var used := acts + [Run(t, c)];
    assert used[..|acts|] == acts;
    UsedUp(acts, t, c, r);
    StaysSpent(used, more, r);
    forall leg: string | Mark(r, leg) in Exec(used).log ensures Mark(r, leg) in Exec(acts).log {
      UseMarksNot(acts, t, c, r, leg);
    }
  }

  lemma UseMarksNot(acts: seq<Action>, t: Tid, c: Choice, r: RecId, leg: string)
    requires UsesUp(Exec(acts), t, c, r) && Mark(r, leg) in Apply(Exec(acts), Run(t, c)).log
    ensures Mark(r, leg) in Exec(acts).log
  {
    var s := Exec(acts);
    if Enabled(s, Run(t, c)) && Touched(s, Run(t, c)) <= s.table.recs.Keys {
      StepShaped(s, t, c);
      var log := Step(s, t, c).log;
      var i :| 0 <= i < |log| && log[i] == Mark(r, leg);
      assert i >= |s.log| ==> Logs(s, t, PcOf(s, t), c, log[i]);
    }
  }

  lemma {:induction false} StaysSpent(acts: seq<Action>, more: seq<Action>, r: RecId)
    requires Spent(Exec(acts), r)
    ensures Spent(Exec(acts + more), r)
    ensures forall leg: string :: Mark(r, leg) in Exec(acts + more).log ==> Mark(r, leg) in Exec(acts).log
  {
    if more == [] { assert acts + more == acts; }
    else {
      var run, init, a := acts + more, more[..|more| - 1], more[|more| - 1];
      assert run[..|run| - 1] == acts + init && run[|run| - 1] == a;
      StaysSpent(acts, init, r);
      RunsAreGood(acts + init);
      SpentNext(Exec(acts + init), a, r);
      forall leg: string | Mark(r, leg) in Exec(run).log ensures Mark(r, leg) in Exec(acts + init).log {
        SpentMarksNot(Exec(acts + init), a, r, leg);
      }
    }
  }
}
