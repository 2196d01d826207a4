/** From any reachable state, a start that nobody disturbs and whose every step is answered yes succeeds: what the claims
  * over all runs are about does happen. */
module ProtocolUndisturbed {
  import opened Common
  import opened RecordingTable
  import opened RecordingProtocol
  import opened ProtocolOutcomes

  /** Thread `t` stands at `pc` with recording `r`, which has these fields and the hash's entry under its key. */
  ghost predicate Holds(s: State, t: Tid, pc: PC, r: RecId, rec: Rec, leg: string) {
    && PcOf(s, t) == pc && r in s.table.recs && s.table.recs[r] == rec && Hashed(s.table, r)
    && (rec.leg == NoContext ==> leg !in s.legs)
  }

  function Begun(handle: string, uuid: string): Rec { Rec(handle + "-" + uuid, uuid, 0, false, false, NoContext, Unattached) }

  function YesWith(leg: string): Choice { Choice(true, true, leg, []) }

  lemma Allocated1(s: State, t: Tid, r: RecId, handle: string, uuid: string)
    requires PcOf(s, t) == Idle && r !in s.phase
    ensures var s' := Apply(s, BeginStart(t, r, handle, uuid));
      && PcOf(s', t) == Allocated(r) && r in s'.table.recs && s'.table.recs[r] == Begun(handle, uuid)
      && s'.table.hash == s.table.hash && s'.legs == s.legs
  {
  }

  lemma Inserted2(s: State, t: Tid, r: RecId, rec: Rec, leg: string)
    requires PcOf(s, t) == Allocated(r) && r in s.table.recs && s.table.recs[r] == rec && rec.key !in s.table.hash
    requires rec.useCount == 0 && !rec.doomed && leg !in s.legs
    ensures Holds(Apply(s, Run(t, YesWith(leg))), t, Binding(r), r, rec.(useCount := 1), leg)
  {
    assert Step(s, t, YesWith(leg)) == StepInsert(s, t, r);
  }

  lemma Bound3(s: State, t: Tid, r: RecId, rec: Rec, leg: string)
    requires Holds(s, t, Binding(r), r, rec, leg)
    ensures var s' := Apply(s, Run(t, YesWith(leg))); Holds(s', t, Preparing(r), r, rec, leg) && rec.uuid in s'.bound
  {
  }

  lemma Prepared4(s: State, t: Tid, r: RecId, rec: Rec, leg: string)
    requires Holds(s, t, Preparing(r), r, rec, leg)
    ensures var s' := Apply(s, Run(t, YesWith(leg))); Holds(s', t, Inviting(r), r, rec, leg) && s'.bound == s.bound
  {
  }

  lemma Invited5(s: State, t: Tid, r: RecId, rec: Rec, leg: string)
    requires Holds(s, t, Inviting(r), r, rec, leg) && rec.leg == NoContext && leg != ""
    ensures var s' := Apply(s, Run(t, YesWith(leg)));
      Holds(s', t, Attaching(r), r, rec.(leg := OnLeg(leg)), leg) && s'.bound == s.bound
  {
    assert Step(s, t, YesWith(leg)) == StepInvite(s, t, r, YesWith(leg));
  }

  lemma Attached6(s: State, t: Tid, r: RecId, rec: Rec, leg: string)
    requires Holds(s, t, Attaching(r), r, rec, leg)
    ensures var s' := Apply(s, Run(t, YesWith(leg)));
      && Holds(s', t, Wiring(r), r, rec.(media := Adding(true)), leg) && s'.bound == s.bound
      && r in s'.bugs && s'.bugs[r] == Bug(false, false)
  {
    assert Step(s, t, YesWith(leg)) == StepAttach(s, t, r, YesWith(leg));
  }

  lemma Wired7(s: State, t: Tid, r: RecId, rec: Rec, leg: string)
    requires Holds(s, t, Wiring(r), r, rec, leg) && rec.media == Adding(true)
    ensures var s' := Apply(s, Run(t, YesWith(leg)));
      Holds(s', t, Finishing(r), r, rec.(media := Wired(true)), leg) && s'.bound == s.bound && s'.bugs == s.bugs
  {
    assert Step(s, t, YesWith(leg)) == StepWire(s, t, r);
  }

  lemma Finished8(s: State, t: Tid, r: RecId, rec: Rec, leg: string)
    requires Holds(s, t, Finishing(r), r, rec, leg) && !rec.doomed
    ensures var s' := Apply(s, Run(t, YesWith(leg)));
      && Holds(s', t, Idle, r, rec.(useCount := rec.useCount - 1), leg) && s'.bound == s.bound && s'.bugs == s.bugs
      && s'.log == s.log + [Outcome(t, r, Success)]
  {
    assert Step(s, t, YesWith(leg)) == StepFinish(s, t, r);
  }

  function Yeses(t: Tid, leg: string, n: nat): (y: seq<Action>)
    ensures |y| == n
  {
    if n == 0 then [] else Yeses(t, leg, n - 1) + [Run(t, YesWith(leg))]
  }

  function After(acts: seq<Action>, begin: Action, t: Tid, leg: string, n: nat): seq<Action> { acts + [begin] + Yeses(t, leg, n) }

  lemma AfterOne(acts: seq<Action>, begin: Action, t: Tid, leg: string, n: nat)
    ensures Exec(After(acts, begin, t, leg, n + 1)) == Apply(Exec(After(acts, begin, t, leg, n)), Run(t, YesWith(leg)))
  {
    assert After(acts, begin, t, leg, n + 1) == After(acts, begin, t, leg, n) + [Run(t, YesWith(leg))];
    ExecSnoc(After(acts, begin, t, leg, n), Run(t, YesWith(leg)));
  }

  /** The first half: its recording is in the hash, pinned, and the call holds the handler. */
  lemma StartInserts(acts: seq<Action>, t: Tid, r: RecId, handle: string, uuid: string, leg: string)
    requires PcOf(Exec(acts), t) == Idle && r !in Exec(acts).phase && handle + "-" + uuid !in Exec(acts).table.hash
    requires leg !in Exec(acts).legs
    ensures var s' := Exec(After(acts, BeginStart(t, r, handle, uuid), t, leg, 3));
      Holds(s', t, Inviting(r), r, Begun(handle, uuid).(useCount := 1), leg) && uuid in s'.bound
  {
    var begin := BeginStart(t, r, handle, uuid);
    assert acts + [begin] + Yeses(t, leg, 0) == acts + [begin];
    ExecSnoc(acts, begin);
    Allocated1(Exec(acts), t, r, handle, uuid);
    AfterOne(acts, begin, t, leg, 0);
    Inserted2(Exec(After(acts, begin, t, leg, 0)), t, r, Begun(handle, uuid), leg);
    AfterOne(acts, begin, t, leg, 1);
    Bound3(Exec(After(acts, begin, t, leg, 1)), t, r, Begun(handle, uuid).(useCount := 1), leg);
    AfterOne(acts, begin, t, leg, 2);
    Prepared4(Exec(After(acts, begin, t, leg, 2)), t, r, Begun(handle, uuid).(useCount := 1), leg);
  }

  /** From any reachable state, with the key free: seven steps of its own, each answered yes, and the start has reported
    * SUCCESS; its recording is hashed, unpinned, answered by that leg, its fork attached and running, and the call holds the
    * hangup handler. */
  lemma UndisturbedStartSucceeds(acts: seq<Action>, t: Tid, r: RecId, handle: string, uuid: string, leg: string)
    requires PcOf(Exec(acts), t) == Idle && r !in Exec(acts).phase && handle + "-" + uuid !in Exec(acts).table.hash
    requires leg != "" && leg !in Exec(acts).legs
    ensures var s' := Exec(acts + [BeginStart(t, r, handle, uuid)] + Yeses(t, leg, 7));
      && Outcome(t, r, Success) in s'.log && PcOf(s', t) == Idle
      && handle + "-" + uuid in s'.table.hash && s'.table.hash[handle + "-" + uuid] == r && r in s'.table.recs
      && s'.table.recs[r] == Rec(handle + "-" + uuid, uuid, 0, false, false, OnLeg(leg), Wired(true))
      && r in s'.bugs && s'.bugs[r] == Bug(false, false) && uuid in s'.bound
  {
    var begin, rec := BeginStart(t, r, handle, uuid), Begun(handle, uuid).(useCount := 1);
    StartInserts(acts, t, r, handle, uuid, leg);
    AfterOne(acts, begin, t, leg, 3);
    Invited5(Exec(After(acts, begin, t, leg, 3)), t, r, rec, leg);
    AfterOne(acts, begin, t, leg, 4);
    Attached6(Exec(After(acts, begin, t, leg, 4)), t, r, rec.(leg := OnLeg(leg)), leg);
    AfterOne(acts, begin, t, leg, 5);
    Wired7(Exec(After(acts, begin, t, leg, 5)), t, r, rec.(leg := OnLeg(leg), media := Adding(true)), leg);
    AfterOne(acts, begin, t, leg, 6);
    Finished8(Exec(After(acts, begin, t, leg, 6)), t, r, rec.(leg := OnLeg(leg), media := Wired(true)), leg);
  }

  // ---- a pause and a resume ----

  /** Thread `t` is about to acquire, or holds a pin on, the hashed recording `r`, whose fork runs on the call. */
  ghost predicate Works(s: State, t: Tid, pc: PC, r: RecId, rec: Rec, bug: Bug) {
    && PcOf(s, t) == pc && r in s.table.recs && s.table.recs[r] == rec && Hashed(s.table, r) && !rec.doomed
    && rec.leg.OnLeg? && rec.media == Wired(true) && r in s.bugs && s.bugs[r] == bug
  }

  function Pinned(rec: Rec): Rec { rec.(useCount := rec.useCount + 1) }

  const YES := YesWith("")

  lemma Acquired1(s: State, t: Tid, call: string, resume: bool, r: RecId, rec: Rec, bug: Bug)
    requires Works(s, t, Acquiring(rec.key, call, resume), r, rec, bug)
    ensures Works(Apply(s, Run(t, YES)), t, if resume then Checking(r, call, true) else Gating(r, call), r, Pinned(rec), bug)
  {
    assert Step(s, t, YES) == StepAcquire(s, t, PcOf(s, t));
  }

  lemma Gated2(s: State, t: Tid, call: string, r: RecId, rec: Rec, bug: Bug)
    requires Works(s, t, Gating(r, call), r, rec, bug)
    ensures var s' := Apply(s, Run(t, YES));
      Works(s', t, Checking(r, call, false), r, rec, bug.(paused := true)) && s'.log == s.log + [Gate(t, r)]
  {
  }

  lemma Checked(s: State, t: Tid, call: string, resume: bool, r: RecId, rec: Rec, bug: Bug)
    requires Works(s, t, Checking(r, call, resume), r, rec, bug)
    ensures var s' := Apply(s, Run(t, YES)); Works(s', t, Reinviting(r, call, resume), r, rec, bug) && s'.log == s.log
  {
  }

  lemma Reinvited4(s: State, t: Tid, call: string, resume: bool, r: RecId, rec: Rec, bug: Bug)
    requires Works(s, t, Reinviting(r, call, resume), r, rec, bug)
    ensures var s' := Apply(s, Run(t, YES));
      && Works(s', t, if resume then Ungating(r, call) else Releasing(r, call), r, rec, bug)
      && s'.log == s.log + if resume then [Reinvited(t, r)] else []
  {
    assert Step(s, t, YES) == StepReinvite(s, t, PcOf(s, t), YES);
  }

  lemma Ungated5(s: State, t: Tid, call: string, r: RecId, rec: Rec, bug: Bug)
    requires Works(s, t, Ungating(r, call), r, rec, bug)
    ensures var s' := Apply(s, Run(t, YES));
      Works(s', t, Releasing(r, call), r, rec, bug.(paused := false)) && s'.log == s.log + [Ungate(t, r)]
  {
  }

  lemma Released(s: State, t: Tid, call: string, r: RecId, rec: Rec, bug: Bug)
    requires Works(s, t, Releasing(r, call), r, Pinned(rec), bug)
    ensures var s' := Apply(s, Run(t, YES)); Works(s', t, Idle, r, rec, bug) && s'.log == s.log
  {
    assert Step(s, t, YES) == Releases(s, t, r, Idle, ToIdle);
  }

  lemma DirectionBegins(acts: seq<Action>, t: Tid, handle: string, uuid: string, resume: bool, r: RecId, rec: Rec, bug: Bug)
    requires Works(Exec(acts), t, Idle, r, rec, bug) && rec.key == handle + "-" + uuid
    ensures var s' := Exec(After(acts, BeginDirection(t, handle, uuid, resume, true), t, "", 1));
      Works(s', t, if resume then Checking(r, uuid, true) else Gating(r, uuid), r, Pinned(rec), bug)
  {
    var begin := BeginDirection(t, handle, uuid, resume, true);
    assert acts + [begin] + Yeses(t, "", 0) == acts + [begin];
    ExecSnoc(acts, begin);
    AfterOne(acts, begin, t, "", 0);
    Acquired1(Exec(After(acts, begin, t, "", 0)), t, uuid, resume, r, rec, bug);
  }

  /** From any reachable state with the recording hashed, answered and attached: five steps of its own and a pause has
    * returned; the fork is paused, the recording as it was. */
  lemma UndisturbedPauseGates(acts: seq<Action>, t: Tid, handle: string, uuid: string, r: RecId, rec: Rec, bug: Bug)
    requires Works(Exec(acts), t, Idle, r, rec, bug) && rec.key == handle + "-" + uuid
    ensures var s' := Exec(acts + [BeginDirection(t, handle, uuid, false, true)] + Yeses(t, "", 5));
      Works(s', t, Idle, r, rec, bug.(paused := true)) && Gate(t, r) in s'.log
  {
    var begin, p := BeginDirection(t, handle, uuid, false, true), Pinned(rec);
    DirectionBegins(acts, t, handle, uuid, false, r, rec, bug);
    AfterOne(acts, begin, t, "", 1);
    Gated2(Exec(After(acts, begin, t, "", 1)), t, uuid, r, p, bug);
    AfterOne(acts, begin, t, "", 2);
    Checked(Exec(After(acts, begin, t, "", 2)), t, uuid, false, r, p, bug.(paused := true));
    AfterOne(acts, begin, t, "", 3);
    Reinvited4(Exec(After(acts, begin, t, "", 3)), t, uuid, false, r, p, bug.(paused := true));
    AfterOne(acts, begin, t, "", 4);
    Released(Exec(After(acts, begin, t, "", 4)), t, uuid, r, rec, bug.(paused := true));
  }

  /** ... and a resume that passed its check and whose re-INVITE was answered has ungated the fork. */
  lemma UndisturbedResumeUngates(acts: seq<Action>, t: Tid, handle: string, uuid: string, r: RecId, rec: Rec, bug: Bug)
    requires Works(Exec(acts), t, Idle, r, rec, bug) && rec.key == handle + "-" + uuid
    ensures var s' := Exec(acts + [BeginDirection(t, handle, uuid, true, true)] + Yeses(t, "", 5));
      Works(s', t, Idle, r, rec, bug.(paused := false)) && Ungate(t, r) in s'.log && Reinvited(t, r) in s'.log
  {
    var begin, p := BeginDirection(t, handle, uuid, true, true), Pinned(rec);
    DirectionBegins(acts, t, handle, uuid, true, r, rec, bug);
    AfterOne(acts, begin, t, "", 1);
    Checked(Exec(After(acts, begin, t, "", 1)), t, uuid, true, r, p, bug);
    AfterOne(acts, begin, t, "", 2);
    Reinvited4(Exec(After(acts, begin, t, "", 2)), t, uuid, true, r, p, bug);
    AfterOne(acts, begin, t, "", 3);
    Ungated5(Exec(After(acts, begin, t, "", 3)), t, uuid, r, p, bug);
    AfterOne(acts, begin, t, "", 4);
    Released(Exec(After(acts, begin, t, "", 4)), t, uuid, r, rec, bug.(paused := false));
  }
}
