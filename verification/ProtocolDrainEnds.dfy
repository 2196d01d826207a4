/** A drain that no start of its call disturbs ends, and leaves nothing of its call hashed. */
module ProtocolDrainEnds {
  import opened Common
  import opened RecordingTable
  import opened RecordingProtocol
  import opened ProtocolOwnership
  import opened ProtocolMonitor
  import opened ProtocolWatch
  import opened ProtocolRuns
  import opened ProtocolSteps
  import opened ProtocolOutcomes
  import opened ProtocolDrain
  import opened ProtocolHandlers
  import opened ProtocolHandlerTheorems

  // ---- the log knows each recording's call ----

  ghost predicate CallLogged(s: State, r: RecId) { r in s.table.recs ==> Alloc(r, s.table.recs[r].uuid) in s.log }

  ghost predicate CallsLogged(s: State) { forall r: RecId :: CallLogged(s, r) }

  lemma EffectCallsLogged(s: State, a: Action)
    requires Good(s) && CallsLogged(s) && Enabled(s, a) && Touched(s, a) <= s.table.recs.Keys
    ensures CallsLogged(Effect(s, a))
  {
    EffectGrows(s, a);
    if a.BeginStart? { assert PhaseOk(s, a.r); }
    EffectNames(s, a);
    forall r: RecId ensures CallLogged(Effect(s, a), r) {
      assert CallLogged(s, r);
      if a.BeginStart? && r == a.r { assert Effect(s, a).log[|s.log|] == Alloc(a.r, a.uuid); }
    }
  }

  lemma {:induction false} RunsCallsLogged(acts: seq<Action>)
    ensures CallsLogged(Exec(acts))
  {
    if acts != [] {
      var s, a := Exec(acts[..|acts| - 1]), acts[|acts| - 1];
      RunsCallsLogged(acts[..|acts| - 1]);
      RunsAreGood(acts[..|acts| - 1]);
      if Enabled(s, a) && Touched(s, a) <= s.table.recs.Keys { EffectCallsLogged(s, a); }
    }
  }

  // ---- what a drain leaves ----

  /** Since log position `from` a start inserted a recording of the drained call. */
  ghost predicate LateInsert(log: seq<Event>, from: nat, which: Option<string>, r: RecId)
    requires from <= |log|
  {
    Insert(r) in log[from..] && exists u :: Alloc(r, u) in log && Matched(which, u)
  }

  /** When a drain returns and no start of its call passed its insert since the last scan, nothing of the call is in the
    * hash. Conversely, what such a start inserted since is still in the hash unless somebody took it out. */
  lemma DrainEmptiesUnlessInserted(acts: seq<Action>, t: Tid, d: Drain)
    requires PcOf(Exec(acts), t) == Draining(d) && d.pending == [] && d.lastScan && d.scanAt <= |Exec(acts).log|
    ensures NoDangling(Exec(acts).table)
    ensures (forall r: RecId :: !LateInsert(Exec(acts).log, d.scanAt, d.call, r)) ==>
      MatchingKeys(Exec(acts).table, d.call) == {} && (d.call.Some? ==> !HasRecording(Exec(acts).table, d.call.value))
    ensures forall r: RecId :: LateInsert(Exec(acts).log, d.scanAt, d.call, r) && Unhash(r) !in Exec(acts).log ==>
      r in Exec(acts).table.recs && Exec(acts).table.recs[r].key in MatchingKeys(Exec(acts).table, d.call)
  {
    var s := Exec(acts);
    var m := DrainReturnsComplete(acts, t, d);
    RunsAreGood(acts);
    RunsCallsLogged(acts);
    HashKeys(s);
    forall k | k in s.table.hash && Matches(s.table.recs[s.table.hash[k]], d.call)
      ensures LateInsert(s.log, d.scanAt, d.call, s.table.hash[k])
    {
      var r := s.table.hash[k];
      assert CallLogged(s, r);
    }
    forall r: RecId | LateInsert(s.log, d.scanAt, d.call, r) && Unhash(r) !in s.log
      ensures r in s.table.recs && s.table.recs[r].key in MatchingKeys(s.table, d.call)
    {
      LateStays(s, d, r);
    }
  }

  lemma LateStays(s: State, d: Drain, r: RecId)
    requires Good(s) && CallsLogged(s) && NoDangling(s.table) && d.scanAt <= |s.log|
    requires LateInsert(s.log, d.scanAt, d.call, r) && Unhash(r) !in s.log
    ensures r in s.table.recs && s.table.recs[r].key in MatchingKeys(s.table, d.call)
  {
    assert Insert(r) in s.log;
    StillInHash(s, r);
    assert CallLogged(s, r) && Consistent(ViewOf(s, r), Monitor(s.log, r));
    var u :| Alloc(r, u) in s.log && Matched(d.call, u);
    AllocatedOnce(s.log, r, u, s.table.recs[r].uuid);
  }

  // ---- unload, when no start is about ----

  /** No start of the call stands between its allocation and its insert. */
  ghost predicate NoneWaits(s: State, which: Option<string>) {
    forall t: Tid :: PcOf(s, t).Allocated? && PcOf(s, t).r in s.table.recs ==>
      !Matched(which, s.table.recs[PcOf(s, t).r].uuid)
  }

  /** None begins. */
  ghost predicate NoneBegins(a: Action, which: Option<string>) { a.BeginStart? ==> !Matched(which, a.uuid) }

  /** Of the call nothing was inserted since `from`, and nothing is about to be. */
  ghost predicate CallStill(s: State, from: nat, which: Option<string>) {
    from <= |s.log| && NoneWaits(s, which) && forall r: RecId :: !LateInsert(s.log, from, which, r)
  }

  lemma StepInserts(s: State, t: Tid, c: Choice, r: RecId)
    requires TouchedBy(s, PcOf(s, t)) <= s.table.recs.Keys && PcOf(s, t) != Idle && s.log <= Step(s, t, c).log
    requires Insert(r) in Step(s, t, c).log[|s.log|..]
    ensures PcOf(s, t) == Allocated(r)
  {
    var log := Step(s, t, c).log;
    StepShaped(s, t, c);
    var i :| |s.log| <= i < |log| && log[i] == Insert(r);
    assert Logs(s, t, PcOf(s, t), c, log[i]);
  }

  /** Who logs an insert. */
  lemma InsertIsStarts(s: State, a: Action, r: RecId)
    requires Enabled(s, a) && Touched(s, a) <= s.table.recs.Keys && s.log <= Effect(s, a).log
    requires Insert(r) in Effect(s, a).log[|s.log|..]
    ensures a.Run? && PcOf(s, a.t) == Allocated(r)
  {
    if a.Run? { StepInserts(s, a.t, a.c, r); }
  }

  lemma StillNext(s: State, a: Action, from: nat, which: Option<string>)
    requires Good(s) && CallsLogged(s) && CallStill(s, from, which) && NoneBegins(a, which)
    requires Enabled(s, a) && Touched(s, a) <= s.table.recs.Keys
    ensures CallStill(Effect(s, a), from, which)
  {
    var s' := Effect(s, a);
    EffectGrows(s, a);
    WaitsNext(s, a, which);
    forall r: RecId ensures !LateInsert(s'.log, from, which, r) {
      assert !LateInsert(s.log, from, which, r);
      if LateInsert(s'.log, from, which, r) { NoNewInsert(s, a, from, which, r); }
    }
  }

  lemma NoNewInsert(s: State, a: Action, from: nat, which: Option<string>, r: RecId)
    requires Good(s) && CallsLogged(s) && CallStill(s, from, which) && NoneBegins(a, which)
    requires Enabled(s, a) && Touched(s, a) <= s.table.recs.Keys && s.log <= Effect(s, a).log
    ensures !LateInsert(Effect(s, a).log, from, which, r)
  {
    var s' := Effect(s, a);
    assert !LateInsert(s.log, from, which, r);
    assert s'.log[from..] == s.log[from..] + s'.log[|s.log|..];
    if Insert(r) in s'.log[|s.log|..] {
      InsertIsStarts(s, a, r);
      InsertKnowsCall(s, a, which, r);
    } else if Insert(r) in s.log[from..] {
      InsertedKnown(s, a, from, which, r);
    }
  }

  /** The call of a recording that is being inserted is the one it was allocated for. */
  lemma InsertKnowsCall(s: State, a: Action, which: Option<string>, r: RecId)
    requires Good(s) && CallsLogged(s) && NoneWaits(s, which) && Enabled(s, a) && Touched(s, a) <= s.table.recs.Keys
    requires a.Run? && PcOf(s, a.t) == Allocated(r)
    ensures forall u :: Alloc(r, u) in Effect(s, a).log ==> !Matched(which, u)
  {
    var s' := Effect(s, a);
    OwnedIsIdle(s, a.t, r);
    assert CallLogged(s, r);
    ApplyGood(s, a);
    EffectGrows(s, a);
    assert Consistent(ViewOf(s', r), Monitor(s'.log, r));
    forall u | Alloc(r, u) in s'.log ensures !Matched(which, u) { AllocatedOnce(s'.log, r, u, s.table.recs[r].uuid); }
  }

  /** A recording inserted earlier had its call logged earlier. */
  lemma InsertedKnown(s: State, a: Action, from: nat, which: Option<string>, r: RecId)
    requires Good(s) && Enabled(s, a) && Touched(s, a) <= s.table.recs.Keys && s.log <= Effect(s, a).log
    requires from <= |s.log| && Insert(r) in s.log[from..] && !LateInsert(s.log, from, which, r)
    ensures forall u :: Alloc(r, u) in Effect(s, a).log ==> !Matched(which, u)
  {
    var s' := Effect(s, a);
    ApplyGood(s, a);
    assert Consistent(ViewOf(s, r), Monitor(s.log, r)) && Consistent(ViewOf(s', r), Monitor(s'.log, r));
    var v := InsertedWasAllocated(s.log, r);
    forall u | Alloc(r, u) in s'.log ensures !Matched(which, u) { AllocatedOnce(s'.log, r, u, v); }
  }

  lemma {:induction false} InsertedWasAllocated(log: seq<Event>, r: RecId) returns (u: string)
    requires Monitor(log, r).Mon? && Insert(r) in log
    ensures Alloc(r, u) in log
  {
    var i :| 0 <= i < |log| && log[i] == Insert(r);
    InsertedRank(log, r, i);
    u := BornWasAllocated(log, r);
  }

  lemma {:induction false} BornWasAllocated(log: seq<Event>, r: RecId) returns (u: string)
    requires Monitor(log, r).Mon? && Rank(Monitor(log, r).phase) >= 1
    ensures Alloc(r, u) in log
  {
    var init, e := log[..|log| - 1], log[|log| - 1];
    assert log == init + [e];
    if e.Alloc? && e.r == r { u := e.call; } else { u := BornWasAllocated(init, r); }
  }

  lemma WaitsNext(s: State, a: Action, which: Option<string>)
    requires Good(s) && NoneWaits(s, which) && NoneBegins(a, which) && Enabled(s, a) && Touched(s, a) <= s.table.recs.Keys
    ensures NoneWaits(Effect(s, a), which)
  {
    var s' := Effect(s, a);
    EntriesLive(s, a);
    forall t: Tid | PcOf(s', t).Allocated? && PcOf(s', t).r in s'.table.recs
      ensures !Matched(which, s'.table.recs[PcOf(s', t).r].uuid)
    {
      if a.Run? && a.t == t { NobodyAllocatesInAStep(s, t, a.c); }
      else if (a.BeginStart? || a.BeginDirection? || a.BeginStop? || a.BeginDrain? || a.BeginLegEnd?) && a.t == t { }
      else { OthersStand(s, a, t); OwnedIsIdle(s, t, PcOf(s, t).r); }
    }
  }

  lemma NobodyAllocatesInAStep(s: State, t: Tid, c: Choice)
    requires TouchedBy(s, PcOf(s, t)) <= s.table.recs.Keys && PcOf(s, t) != Idle
    ensures !PcOf(Step(s, t, c), t).Allocated?
  {
    var pc := PcOf(s, t);
    if InStart(pc) { StartAllocatesNone(s, t, pc, c); }
    else if InDirection(pc) { DirectionAllocatesNone(s, t, pc, c); }
    else if !pc.Tearing? { StopAllocatesNone(s, t, pc, c); }
  }

  lemma StartAllocatesNone(s: State, t: Tid, pc: PC, c: Choice)
    requires InStart(pc) && TouchedBy(s, pc) <= s.table.recs.Keys
    ensures !PcOf(StepStart(s, t, pc, c), t).Allocated?
  {
  }

  lemma DirectionAllocatesNone(s: State, t: Tid, pc: PC, c: Choice)
    requires InDirection(pc) && TouchedBy(s, pc) <= s.table.recs.Keys
    ensures !PcOf(StepDirection(s, t, pc, c), t).Allocated?
  {
  }

  lemma StopAllocatesNone(s: State, t: Tid, pc: PC, c: Choice)
    requires !InStart(pc) && !InDirection(pc) && !pc.Tearing? && pc != Idle && TouchedBy(s, pc) <= s.table.recs.Keys
    ensures !PcOf(StepStop(s, t, pc, c), t).Allocated?
  {
  }

  lemma {:induction false} StillOn(acts: seq<Action>, m: nat, which: Option<string>)
    requires m <= |acts| && NoneWaits(Exec(acts[..m]), which)
    requires forall i :: m <= i < |acts| ==> NoneBegins(acts[i], which)
    ensures CallStill(Exec(acts), |Exec(acts[..m]).log|, which)
  {
    if m == |acts| { assert acts[..m] == acts; assert Exec(acts).log[|Exec(acts).log|..] == []; }
    else {
      var init, a := acts[..|acts| - 1], acts[|acts| - 1];
      assert init[..m] == acts[..m];
      StillOn(init, m, which);
      RunsAreGood(init);
      RunsCallsLogged(init);
      assert NoneBegins(acts[|acts| - 1], which);
      if Enabled(Exec(init), a) && Touched(Exec(init), a) <= Exec(init).table.recs.Keys {
        StillNext(Exec(init), a, |Exec(acts[..m]).log|, which);
      }
    }
  }

  /** A drain leaves nothing of its call hashed if, at its last scan, no start of the call stood between its allocation
    * and its insert, and none began since. For an unload: the hash is empty, as siprec_teardown_all_recordings says. */
  lemma DrainEmptiesWithoutStarts(acts: seq<Action>, m: nat, t: Tid, d: Drain)
    requires PcOf(Exec(acts), t) == Draining(d) && d.pending == [] && d.lastScan
    requires m <= |acts| && d.scanAt == |Exec(acts[..m]).log| && NoneWaits(Exec(acts[..m]), d.call)
    requires forall i :: m <= i < |acts| ==> NoneBegins(acts[i], d.call)
    ensures NoDangling(Exec(acts).table) && MatchingKeys(Exec(acts).table, d.call) == {}
    ensures d.call == None ==> Exec(acts).table.hash == map[]
    ensures d.call.Some? ==> !HasRecording(Exec(acts).table, d.call.value)
  {
    StillOn(acts, m, d.call);
    DrainEmptiesUnlessInserted(acts, t, d);
    var tb := Exec(acts).table;
    assert d.call == None ==> forall k :: k in tb.hash ==> k in MatchingKeys(tb, d.call);
  }
}
