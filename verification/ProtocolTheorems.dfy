/** What the recording lifetime protocol guarantees over every interleaving. */
module ProtocolTheorems {
  import opened Common
  import opened RecordingTable
  import opened RecordingProtocol
  import opened ProtocolOwnership
  import opened ProtocolMonitor
  import opened ProtocolWatch
  import opened ProtocolRuns
  import opened ProtocolSteps
  import L = Ledger

  /** The threads that hold a pin on `r`. */
  ghost function PinHolders(s: State, r: RecId): set<Tid> {
    set t | t in s.threads && Pin(s.threads[t]) == Some(r)
  }

  /** `t` is the thread that alone may free `r`. */
  ghost predicate OwnedBy(s: State, t: Tid, r: RecId) { t in s.threads && Own(s.threads[t]) == Some(r) }

  /** No step of any run dereferences a recording whose pool was freed. */
  lemma NoUseAfterFree(acts: seq<Action>, a: Action)
    ensures !Faults(Exec(acts), a)
  {
    RunsAreGood(acts);
    if Enabled(Exec(acts), a) { TouchesLive(Exec(acts), a); }
  }

  /** In every run use_count is the number of pins; hashed means not doomed; unhashed and pinned means doomed;
    * unhashed and unpinned means one thread, and one only, may free it. */
  lemma PinsAreCounted(acts: seq<Action>, r: RecId)
    requires r in Exec(acts).table.recs
    ensures var s := Exec(acts);
      var rec := s.table.recs[r];
      && rec.useCount == |PinHolders(s, r)|
      && (Hashed(s.table, r) ==> !rec.doomed)
      && (!Hashed(s.table, r) && rec.useCount > 0 ==> rec.doomed)
      && (!Hashed(s.table, r) && rec.useCount == 0 <==> exists t :: OwnedBy(s, t, r))
      && (forall t, u :: OwnedBy(s, t, r) && OwnedBy(s, u, r) ==> t == u)
  {
    var s := Exec(acts);
    RunsAreGood(acts);
    assert PinHolders(s, r) == L.Pinners(Pins(s.threads), r);
    assert Accounts(s.table.recs)[r] == AccountOf(s.table.recs[r]);
    assert L.Placed(LedgerOf(s), r);
    assert L.InHash(LedgerOf(s), r) <==> Hashed(s.table, r);
    assert forall t :: t in Owns(s.threads) ==> OwnedBy(s, t, Owns(s.threads)[t]);
    forall t | OwnedBy(s, t, r)
      ensures s.table.recs[r].useCount == 0 && !Hashed(s.table, r) && t in Owns(s.threads) && Owns(s.threads)[t] == r
    {
      OwnedIsIdle(s, t, r);
    }
  }

  ghost predicate AllIdle(s: State) { forall t :: t in s.threads ==> s.threads[t] == Idle }

  /** When every thread is idle, each recording that was ever inserted is still hashed and unpinned, or was
    * detached, BYEd and freed exactly once. */
  lemma QuiescentRunsStrandNothing(acts: seq<Action>, r: RecId)
    requires AllIdle(Exec(acts)) && Insert(r) in Exec(acts).log
    ensures var s := Exec(acts);
      || (Hashed(s.table, r) && s.table.recs[r].useCount == 0 && CountOf(s.log, Free(r)) == 0)
      || (r !in s.table.recs && CountOf(s.log, Detach(r)) == CountOf(s.log, Bye(r)) == CountOf(s.log, Free(r)) == 1)
  {
    var s := Exec(acts);
    RunsAreGood(acts);
    assert Consistent(ViewOf(s, r), Monitor(s.log, r)) && PhaseOk(s, r);
    CountPositive(s.log, Insert(r));
    LifeByPhase(s.log, r);
    if r in s.table.recs {
      PinsAreCounted(acts, r);
      assert PinHolders(s, r) == {};
    }
  }

  /** What the teardown counts of an inserted recording are at the two ends of its life in memory. */
  lemma LifeByPhase(log: seq<Event>, r: RecId)
    requires Monitor(log, r).Mon? && CountOf(log, Insert(r)) > 0
    ensures Monitor(log, r).phase == InHash ==> CountOf(log, Free(r)) == 0
    ensures Monitor(log, r).phase == Freed ==> CountOf(log, Detach(r)) == CountOf(log, Bye(r)) == CountOf(log, Free(r)) == 1
    ensures Monitor(log, r).phase != Unborn
  {
    AcceptedCounts(log, r);
  }

  lemma {:induction false} CountPositive(log: seq<Event>, e: Event)
    requires e in log
    ensures CountOf(log, e) > 0
  {
    assert log == log[..|log| - 1] + [log[|log| - 1]];
    if log[|log| - 1] != e { CountPositive(log[..|log| - 1], e); }
  }

  /** In every run, every log is accepted: the order lemmas of ProtocolMonitor hold of it. */
  lemma EveryLifeIsAccepted(acts: seq<Action>, r: RecId)
    ensures Monitor(Exec(acts).log, r).Mon?
  {
    RunsAreGood(acts);
    assert Consistent(ViewOf(Exec(acts), r), Monitor(Exec(acts).log, r));
  }

  /** Detach, BYE and free happen in that order, each at most once; no packet and no tick after the detach;
    * nothing re-enters the hash; the module's own BYE marks nothing. */
  lemma TeardownOrder(acts: seq<Action>, r: RecId, i: nat, j: nat)
    requires i < j < |Exec(acts).log|
    ensures var log := Exec(acts).log;
      && !(log[i] == Bye(r) && log[j] == Detach(r))
      && !(log[i] == Free(r) && Teardown(log[j], r))
      && !(log[i] == Unhash(r) && log[j] == Insert(r))
      && !(log[i] == Bye(r) && log[j].Mark? && log[j].r == r)
      && !(log[i] == Detach(r) && (log[j] == Send(r) || log[j] == TickBegin(r)))
      && CountOf(log, Free(r)) <= 1 && CountOf(log, Bye(r)) <= 1 && CountOf(log, Detach(r)) <= 1
  {
    EveryLifeIsAccepted(acts, r);
    AcceptedOrder(Exec(acts).log, r, i, j);
    AcceptedCounts(Exec(acts).log, r);
  }

  /** No step of a teardown is skipped: a fork is detached only after its recording left the hash, a leg is BYEd only
    * after its fork was detached, and an inserted recording is freed only after its leg was BYEd. */
  lemma TeardownSkipsNothing(acts: seq<Action>, r: RecId, j: nat)
    requires j < |Exec(acts).log|
    ensures var log := Exec(acts).log;
      && (log[j] == Detach(r) ==> Before(log, Unhash(r), j))
      && (log[j] == Bye(r) ==> Before(log, Detach(r), j))
      && (log[j] == Free(r) && Before(log, Insert(r), j) ==> Before(log, Bye(r), j))
  {
    EveryLifeIsAccepted(acts, r);
    AcceptedCauses(Exec(acts).log, r, j);
  }

  /** After a leg-end marked a recording no tick of its fork begins. */
  lemma MarkedForkStops(acts: seq<Action>, r: RecId, i: nat, j: nat)
    requires i < j < |Exec(acts).log| && Exec(acts).log[i].Mark? && Exec(acts).log[i].r == r
    ensures Exec(acts).log[j] != TickBegin(r)
  {
    EveryLifeIsAccepted(acts, r);
    AcceptedMark(Exec(acts).log, r, i, j);
  }

  // ---- a leg belongs to one recording for ever ----

  ghost predicate LegsOk(s: State) {
    forall r: RecId, leg: string :: Answer(r, leg) in s.log ==> leg in s.legs && s.legs[leg] == r
  }

  lemma {:induction false} LegsAreUnique(acts: seq<Action>)
    ensures LegsOk(Exec(acts))
  {
    if acts != [] {
      var s, a := Exec(acts[..|acts| - 1]), acts[|acts| - 1];
      LegsAreUnique(acts[..|acts| - 1]);
      if Enabled(s, a) && Touched(s, a) <= s.table.recs.Keys { EffectLegs(s, a); }
    }
  }

  ghost predicate NoAnswer(s: State, s': State) {
    forall e :: e in s'.log && e.Answer? ==> e in s.log
  }

  lemma EffectLegs(s: State, a: Action)
    requires LegsOk(s) && Enabled(s, a) && Touched(s, a) <= s.table.recs.Keys
    ensures LegsOk(Effect(s, a))
  {
    if a.Run? && PcOf(s, a.t).Inviting? && a.c.yes {
      assert Effect(s, a).legs == s.legs[a.c.leg := PcOf(s, a.t).r];
      assert Effect(s, a).log == s.log + [Answer(PcOf(s, a.t).r, a.c.leg)];
    } else {
      EffectNoAnswer(s, a);
    }
  }

  lemma EffectNoAnswer(s: State, a: Action)
    requires Enabled(s, a) && Touched(s, a) <= s.table.recs.Keys
    requires !(a.Run? && PcOf(s, a.t).Inviting? && a.c.yes)
    ensures NoAnswer(s, Effect(s, a)) && Effect(s, a).legs == s.legs
  {
    if a.Run? { StepNoAnswer(s, a.t, PcOf(s, a.t), a.c); }
  }

  lemma StepNoAnswer(s: State, t: Tid, pc: PC, c: Choice)
    requires PcOf(s, t) == pc && pc != Idle && TouchedBy(s, pc) <= s.table.recs.Keys && !(pc.Inviting? && c.yes)
    ensures NoAnswer(s, Step(s, t, c)) && Step(s, t, c).legs == s.legs
  {
    StepShaped(s, t, c);
    var log := Step(s, t, c).log;
    assert forall i :: |s.log| <= i < |log| ==> Logs(s, t, pc, c, log[i]);
    assert forall i :: 0 <= i < |s.log| ==> log[i] == s.log[i];
  }

  /** A leg marks only the recording whose INVITE it answered: a late hangup of an old leg never stops the
    * recording that replaced its own under the same key. */
  lemma LateHangupSparesReplacement(acts: seq<Action>, first: RecId, second: RecId, leg: string)
    requires Answer(first, leg) in Exec(acts).log && Mark(second, leg) in Exec(acts).log
    ensures first == second
  {
    EveryLifeIsAccepted(acts, second);
    MarkedByOwnLeg(Exec(acts).log, second, leg);
    LegsAreUnique(acts);
  }
}
