/** A drain into whose call nobody inserts ends: each of its own steps brings it closer, nobody else's takes it back, and
  * it is never stuck. */
module ProtocolDrainProgress {
  import opened Common
  import opened RecordingTable
  import opened RecordingProtocol
  import opened ProtocolOwnership
  import opened ProtocolRuns
  import opened ProtocolOutcomes
  import opened ProtocolDrain
  import opened ProtocolHandlers
  import opened ProtocolHandlerRuns
  import opened ProtocolHandlerTheorems

  // ---- the work that is left ----

  ghost predicate KeyMatches(s: State, which: Option<string>, k: string) {
    k in s.table.hash && s.table.hash[k] in s.table.recs && Matches(s.table.recs[s.table.hash[k]], which)
  }

  /** The keys of the drained call that hold recordings. */
  ghost function Left(s: State, which: Option<string>): set<string> { set k | k in s.table.hash && KeyMatches(s, which, k) }

  ghost function PendingKeys(d: Drain): set<string> { set i | 0 <= i < |d.pending| :: d.pending[i].0 }

  /** Of those, the ones that the current batch does not hold. */
  ghost function Outside(s: State, d: Drain): set<string> { Left(s, d.call) - PendingKeys(d) }

  ghost function BatchWork(s: State, d: Drain): nat {
    6 * |d.pending| + if d.lastScan then 1 else 10 + 8 * |Outside(s, d)|
  }

  function TearWork(step: TearStep): nat { match step case DoDetach => 3 case DoBye => 2 case DoFree => 1 }

  /** How many more steps of its own a drain at `pc` takes at most. */
  ghost function Work(s: State, pc: PC): nat {
    match pc
    case Scanning(d) => 8 * |Left(s, d.call)| + 8
    case Draining(d) => BatchWork(s, d)
    case DrainUnbinding(d, _) => BatchWork(s, d) + 1
    case Tearing(_, step, ToDrain(d)) => BatchWork(s, d) + TearWork(step)
    case Tearing(_, step, ToDrainUnbind(d, _)) => BatchWork(s, d) + 1 + TearWork(step)
    case _ => 0
  }

  lemma Fewer(a: set<string>, b: set<string>)
    requires a <= b
    ensures |a| <= |b|
  {
    assert b == a + (b - a);
  }

  /** When fewer keys are left, no less work is. */
  lemma LessLeftLessWork(s: State, s': State, pc: PC)
    requires DrainAt(pc).Some? && Left(s', DrainAt(pc).value.call) <= Left(s, DrainAt(pc).value.call)
    ensures Work(s', pc) <= Work(s, pc)
  {
    Fewer(Left(s', DrainAt(pc).value.call), Left(s, DrainAt(pc).value.call));
    LessOutside(s, s', DrainAt(pc).value);
  }

  lemma LessOutside(s: State, s': State, d: Drain)
    requires Left(s', d.call) <= Left(s, d.call)
    ensures BatchWork(s', d) <= BatchWork(s, d)
  {
    Fewer(Outside(s', d), Outside(s, d));
  }

  // ---- nobody adds to it ----

  /** Some start inserts into the drained call. */
  ghost predicate InsertsInto(s: State, a: Action, which: Option<string>) {
    exists call :: Matched(which, call) && Inserts(s, a, call)
  }

  lemma LeftShrinks(s: State, a: Action, which: Option<string>)
    requires Good(s) && Enabled(s, a) && Touched(s, a) <= s.table.recs.Keys && !InsertsInto(s, a, which)
    ensures Left(Effect(s, a), which) <= Left(s, which)
  {
    var s' := Effect(s, a);
    forall k | KeyMatches(s', which, k) ensures KeyMatches(s, which, k) {
      var call := s'.table.recs[s'.table.hash[k]].uuid;
      assert HashedFor(s'.table, k, call) && Matched(which, call);
      if !HashedFor(s.table, k, call) { NewEntryIsInsert(s, a, k, call); }
    }
  }

  // ---- each of its steps takes from it ----

  lemma {:induction false} DistinctCount(batch: seq<string>)
    requires forall i, j :: 0 <= i < j < |batch| ==> batch[i] != batch[j]
    ensures |set k | k in batch| == |batch|
  {
    if batch != [] {
      var init, x := batch[..|batch| - 1], batch[|batch| - 1];
      DistinctCount(init);
      assert batch == init + [x];
      assert (set k | k in batch) == (set k | k in init) + {x};
    }
  }

  lemma ScanWork(s: State, t: Tid, d: Drain, batch: seq<string>)
    requires s.table.hash.Values <= s.table.recs.Keys && NoDangling(s.table) && ValidBatch(s.table, d.call, batch)
    ensures var s' := StepScan(s, t, d, batch); PcOf(s', t).Draining? && Work(s', PcOf(s', t)) < Work(s, Scanning(d))
  {
    ScanLeads(s, t, d, batch);
    var s' := StepScan(s, t, d, batch);
    BatchKeys(PcOf(s', t).d, batch);
    BatchIsLeft(s, d.call, batch);
    SameLeft(s, s', d.call);
  }

  lemma ScanLeads(s: State, t: Tid, d: Drain, batch: seq<string>)
    requires s.table.hash.Values <= s.table.recs.Keys
    ensures var s' := StepScan(s, t, d, batch);
      && s'.table == s.table && PcOf(s', t).Draining?
      && var d' := PcOf(s', t).d;
         && d'.call == d.call && (d'.lastScan <==> |batch| < DRAIN_BATCH)
         && |d'.pending| == |batch| && forall i :: 0 <= i < |batch| ==> d'.pending[i].0 == batch[i]
  {
  }

  lemma SameLeft(s: State, s': State, which: Option<string>)
    requires s'.table == s.table
    ensures Left(s', which) == Left(s, which)
  {
  }

  /** A batch takes as many keys as it is long, and leaves the rest outside. */
  lemma BatchIsLeft(s: State, which: Option<string>, batch: seq<string>)
    requires NoDangling(s.table) && ValidBatch(s.table, which, batch)
    ensures |Left(s, which)| == |batch| + |Left(s, which) - set k | k in batch|
  {
    var keys := set k | k in batch;
    assert Left(s, which) == MatchingKeys(s.table, which);
    DistinctCount(batch);
    assert Left(s, which) == keys + (Left(s, which) - keys);
  }

  lemma BatchKeys(d: Drain, batch: seq<string>)
    requires |d.pending| == |batch| && forall i :: 0 <= i < |batch| ==> d.pending[i].0 == batch[i]
    ensures PendingKeys(d) == set k | k in batch
  {
    forall k | k in batch ensures k in PendingKeys(d) {
      var i :| 0 <= i < |batch| && batch[i] == k;
      assert d.pending[i].0 == k;
    }
  }

  lemma ClaimWork(s: State, t: Tid, d: Drain)
    requires d.pending != [] && AtKey(s, d.pending[0].0) <= s.table.recs.Keys && NamesKept(s, StepDrain(s, t, d))
    requires forall k :: k in s.table.hash ==> s.table.hash[k] in s.table.recs
    ensures var s' := StepDrain(s, t, d); DrainAt(PcOf(s', t)).Some? && Work(s', PcOf(s', t)) < Work(s, Draining(d))
  {
    DrainHandlers(s, t, d);
    ClaimLeads(s, t, d);
    ClaimTakes(s, StepDrain(s, t, d), PcOf(StepDrain(s, t, d), t), d);
  }

  lemma ClaimTakes(s: State, s': State, pc: PC, d: Drain)
    requires d.pending != [] && s'.table.hash == s.table.hash - {d.pending[0].0} && NamesKept(s, s')
    requires forall k :: k in s.table.hash ==> s.table.hash[k] in s.table.recs
    requires LeadsBack(pc, d.(pending := d.pending[1..]))
    ensures DrainAt(pc).Some? && Work(s', pc) < Work(s, Draining(d))
  {
    OutsideShrinks(s, s', d);
    LessBatchWork(s, s', d);
    LeadsToWork(s', pc, d.(pending := d.pending[1..]));
  }

  lemma LessBatchWork(s: State, s': State, d: Drain)
    requires d.pending != [] && Outside(s', d.(pending := d.pending[1..])) <= Outside(s, d)
    ensures BatchWork(s', d.(pending := d.pending[1..])) + 6 <= BatchWork(s, d)
  {
    Fewer(Outside(s', d.(pending := d.pending[1..])), Outside(s, d));
  }

  lemma OutsideShrinks(s: State, s': State, d: Drain)
    requires d.pending != [] && s'.table.hash == s.table.hash - {d.pending[0].0} && NamesKept(s, s')
    requires forall k :: k in s.table.hash ==> s.table.hash[k] in s.table.recs
    ensures Outside(s', d.(pending := d.pending[1..])) <= Outside(s, d)
  {
    var d' := d.(pending := d.pending[1..]);
    forall k | k in Outside(s', d') ensures k in Outside(s, d) {
      if k in PendingKeys(d) {
        var i :| 0 <= i < |d.pending| && d.pending[i].0 == k;
        assert i > 0 && d'.pending[i - 1].0 == k;
      }
    }
  }

  lemma ClaimLeads(s: State, t: Tid, d: Drain)
    requires d.pending != [] && AtKey(s, d.pending[0].0) <= s.table.recs.Keys
    ensures LeadsBack(PcOf(StepDrain(s, t, d), t), d.(pending := d.pending[1..]))
  {
  }

  predicate BackTo(next: After, d: Drain) { next == ToDrain(d) || (next.ToDrainUnbind? && next.d == d) }

  /** A drain's way on after a claim: its next key, after an unbind or a teardown of its own. */
  predicate LeadsBack(pc: PC, d: Drain) {
    pc == Draining(d) || (pc.DrainUnbinding? && pc.d == d) || (pc.Tearing? && BackTo(pc.next, d))
  }

  lemma LeadsToWork(s: State, pc: PC, d: Drain)
    requires LeadsBack(pc, d)
    ensures DrainAt(pc) == Some(d) && Work(s, pc) <= BatchWork(s, d) + 4
  {
  }

  lemma PassEnds(s: State, t: Tid, d: Drain)
    requires d.pending == []
    ensures var s' := StepDrain(s, t, d);
      if d.lastScan then s'.log == s.log + [Drained(t)]
      else PcOf(s', t) == Scanning(d) && Work(s', Scanning(d)) < Work(s, Draining(d))
  {
    if !d.lastScan { assert Outside(s, d) == Left(s, d.call) == Left(StepDrain(s, t, d), d.call); }
  }

  lemma SameTableSameWork(s: State, s': State, pc: PC)
    requires s'.table == s.table && DrainAt(pc).Some?
    ensures Work(s', pc) == Work(s, pc)
  {
    SameLeft(s, s', DrainAt(pc).value.call);
  }

  lemma UnbindWork(s: State, t: Tid, d: Drain, call: string)
    ensures Work(Go(s.(bound := s.bound - {call}), t, Draining(d)), Draining(d)) < Work(s, DrainUnbinding(d, call))
  {
    SameTableSameWork(s, Go(s.(bound := s.bound - {call}), t, Draining(d)), Draining(d));
  }

  lemma TearStepWork(s: State, t: Tid, pc: PC, c: Choice)
    requires pc.Tearing? && pc.victim in s.table.recs && DrainAt(pc).Some?
    requires Left(StepTear(s, t, pc.victim, pc.step, pc.next, c), DrainAt(pc).value.call) <= Left(s, DrainAt(pc).value.call)
    ensures var s' := StepTear(s, t, pc.victim, pc.step, pc.next, c);
      DrainAt(PcOf(s', t)).Some? && Work(s', PcOf(s', t)) < Work(s, pc)
  {
    var s' := StepTear(s, t, pc.victim, pc.step, pc.next, c);
    TearNext(s, t, pc, c);
    LessLeftLessWork(s, s', PcOf(s', t));
  }

  lemma TearNext(s: State, t: Tid, pc: PC, c: Choice)
    requires pc.Tearing? && pc.victim in s.table.recs && DrainAt(pc).Some?
    ensures var pc' := PcOf(StepTear(s, t, pc.victim, pc.step, pc.next, c), t);
      DrainAt(pc') == DrainAt(pc) && Work(s, pc') < Work(s, pc)
  {
  }

  /** A drain's own step returns, or leaves less to do. */
  lemma OwnStepWorks(s: State, t: Tid, c: Choice)
    requires Good(s) && Enabled(s, Run(t, c)) && TouchedBy(s, PcOf(s, t)) <= s.table.recs.Keys && DrainAt(PcOf(s, t)).Some?
    ensures var s' := Step(s, t, c);
      s'.log == s.log + [Drained(t)] || (DrainAt(PcOf(s', t)).Some? && Work(s', PcOf(s', t)) < Work(s, PcOf(s, t)))
  {
    if PcOf(s, t).Tearing? { OwnTearWorks(s, t, c); } else { OwnHoldWorks(s, t, c); }
  }

  lemma OwnHoldWorks(s: State, t: Tid, c: Choice)
    requires Good(s) && Enabled(s, Run(t, c)) && TouchedBy(s, PcOf(s, t)) <= s.table.recs.Keys
    requires DrainAt(PcOf(s, t)).Some? && !PcOf(s, t).Tearing?
    ensures var s' := Step(s, t, c);
      s'.log == s.log + [Drained(t)] || (DrainAt(PcOf(s', t)).Some? && Work(s', PcOf(s', t)) < Work(s, PcOf(s, t)))
  {
    var pc := PcOf(s, t);
    HashKeys(s);
    EntriesLive(s, Run(t, c));
    if pc.Scanning? { ScanWork(s, t, pc.d, c.batch); }
    else if pc.Draining? { if pc.d.pending == [] { PassEnds(s, t, pc.d); } else { ClaimWork(s, t, pc.d); } }
    else { UnbindWork(s, t, pc.d, pc.call); }
  }

  lemma OwnTearWorks(s: State, t: Tid, c: Choice)
    requires Good(s) && Enabled(s, Run(t, c)) && TouchedBy(s, PcOf(s, t)) <= s.table.recs.Keys
    requires DrainAt(PcOf(s, t)).Some? && PcOf(s, t).Tearing?
    ensures var s' := Step(s, t, c); DrainAt(PcOf(s', t)).Some? && Work(s', PcOf(s', t)) < Work(s, PcOf(s, t))
  {
    var pc := PcOf(s, t);
    NoInsertHere(s, t, c, DrainAt(pc).value.call);
    LeftShrinks(s, Run(t, c), DrainAt(pc).value.call);
    TearStepWork(s, t, pc, c);
  }

  lemma NoInsertHere(s: State, t: Tid, c: Choice, which: Option<string>)
    requires !PcOf(s, t).Allocated?
    ensures !InsertsInto(s, Run(t, c), which)
  {
  }

  // ---- over a run ----

  /** How many steps thread `t` has taken from action `m` on. */
  ghost function OwnSteps(acts: seq<Action>, m: nat, t: Tid): nat {
    if |acts| <= m then 0
    else
      var init, a := acts[..|acts| - 1], acts[|acts| - 1];
      OwnSteps(init, m, t) + if a.Run? && a.t == t && Enabled(Exec(init), a) then 1 else 0
  }

  ghost predicate Undisturbed(acts: seq<Action>, m: nat, which: Option<string>) {
    forall i :: m <= i < |acts| ==> !InsertsInto(Exec(acts[..i]), acts[i], which)
  }

  /** Since action `m` the drain has returned, or its steps so far fit what it had to do. */
  ghost predicate OnTrack(acts: seq<Action>, m: nat, t: Tid, work: nat, from: nat, which: Option<string>) {
    var s := Exec(acts);
    from <= |s.log|
    && (Drained(t) in s.log[from..]
        || (DrainAt(PcOf(s, t)).Some? && DrainAt(PcOf(s, t)).value.call == which
            && Work(s, PcOf(s, t)) + OwnSteps(acts, m, t) <= work))
  }

  lemma TrackOn(acts: seq<Action>, a: Action, m: nat, t: Tid, work: nat, from: nat, which: Option<string>)
    requires m <= |acts| && OnTrack(acts, m, t, work, from, which) && !InsertsInto(Exec(acts), a, which)
    ensures OnTrack(acts + [a], m, t, work, from, which)
  {
    ExecSnoc(acts, a);
    RunsAreGood(acts);
    OneOwnStep(acts, a, m, t);
    LogFrom(Exec(acts), a, from);
    if Drained(t) !in Exec(acts).log[from..] && Enabled(Exec(acts), a) {
      TouchesLive(Exec(acts), a);
      TrackStep(Exec(acts), a, t);
    }
  }

  lemma OneOwnStep(acts: seq<Action>, a: Action, m: nat, t: Tid)
    requires m <= |acts|
    ensures OwnSteps(acts + [a], m, t) == OwnSteps(acts, m, t) + if a.Run? && a.t == t && Enabled(Exec(acts), a) then 1 else 0
  {
    assert (acts + [a])[..|acts|] == acts;
  }

  lemma LogFrom(s: State, a: Action, from: nat)
    requires from <= |s.log|
    ensures s.log <= Apply(s, a).log
    ensures Apply(s, a).log[from..] == s.log[from..] + Apply(s, a).log[|s.log|..]
  {
    LogOnlyGrows(s, a);
    RestGrows(s.log, Apply(s, a).log, from);
  }

  lemma RestGrows(log: seq<Event>, more: seq<Event>, from: nat)
    requires from <= |log| && log <= more
    ensures more[from..] == log[from..] + more[|log|..]
  {
  }

  lemma TrackStep(s: State, a: Action, t: Tid)
    requires Good(s) && Enabled(s, a) && Touched(s, a) <= s.table.recs.Keys && DrainAt(PcOf(s, t)).Some?
    requires !InsertsInto(s, a, DrainAt(PcOf(s, t)).value.call)
    ensures var s' := Effect(s, a);
      || (|s'.log| == |s.log| + 1 && s'.log[|s.log|] == Drained(t))
      || (&& DrainAt(PcOf(s', t)).Some? && DrainAt(PcOf(s', t)).value.call == DrainAt(PcOf(s, t)).value.call
          && Work(s', PcOf(s', t)) + (if a.Run? && a.t == t then 1 else 0) <= Work(s, PcOf(s, t)))
  {
    if a.Run? && a.t == t {
      OwnStepWorks(s, t, a.c);
      if DrainAt(PcOf(Effect(s, a), t)).Some? { DrainKin(s, t, a.c); }
    } else {
      StandsBeside(s, a, t);
      LeftShrinks(s, a, DrainAt(PcOf(s, t)).value.call);
      LessLeftLessWork(s, Effect(s, a), PcOf(s, t));
    }
  }

  lemma StandsBeside(s: State, a: Action, t: Tid)
    requires Enabled(s, a) && Touched(s, a) <= s.table.recs.Keys && PcOf(s, t) != Idle && !(a.Run? && a.t == t)
    ensures PcOf(Effect(s, a), t) == PcOf(s, t)
  {
    OthersStand(s, a, t);
  }

  lemma UndisturbedInit(acts: seq<Action>, m: nat, which: Option<string>)
    requires m < |acts| && Undisturbed(acts, m, which)
    ensures var init := acts[..|acts| - 1]; Undisturbed(init, m, which) && !InsertsInto(Exec(init), acts[|init|], which)
  {
    var init := acts[..|acts| - 1];
    forall i | m <= i < |init| ensures !InsertsInto(Exec(init[..i]), init[i], which) { assert init[..i] == acts[..i]; }
  }

  lemma {:induction false} StaysOnTrack(acts: seq<Action>, m: nat, t: Tid, which: Option<string>)
    requires m <= |acts| && DrainAt(PcOf(Exec(acts[..m]), t)).Some? && DrainAt(PcOf(Exec(acts[..m]), t)).value.call == which
    requires Undisturbed(acts, m, which)
    ensures OnTrack(acts, m, t, Work(Exec(acts[..m]), PcOf(Exec(acts[..m]), t)), |Exec(acts[..m]).log|, which)
  {
    if |acts| == m { assert acts[..m] == acts; }
    else {
      var init, a := acts[..|acts| - 1], acts[|acts| - 1];
      assert init[..m] == acts[..m] && acts == init + [a];
      UndisturbedInit(acts, m, which);
      StaysOnTrack(init, m, t, which);
      TrackOn(init, a, m, t, Work(Exec(acts[..m]), PcOf(Exec(acts[..m]), t)), |Exec(acts[..m]).log|, which);
    }
  }

  /** A drain into whose call no start inserts returns before it has taken more steps of its own than its work, whatever
    * the other threads do in between. */
  lemma DrainEnds(acts: seq<Action>, m: nat, t: Tid)
    requires m <= |acts| && DrainAt(PcOf(Exec(acts[..m]), t)).Some?
    requires Undisturbed(acts, m, DrainAt(PcOf(Exec(acts[..m]), t)).value.call)
    requires OwnSteps(acts, m, t) > Work(Exec(acts[..m]), PcOf(Exec(acts[..m]), t))
    ensures |Exec(acts[..m]).log| <= |Exec(acts).log| && Drained(t) in Exec(acts).log[|Exec(acts[..m]).log|..]
  {
    StaysOnTrack(acts, m, t, DrainAt(PcOf(Exec(acts[..m]), t)).value.call);
  }

  // ---- and it can always take a step ----

  lemma {:induction false} BatchExists(keys: set<string>, n: nat) returns (batch: seq<string>)
    ensures |batch| <= n && (forall k :: k in batch ==> k in keys) && (|batch| < n ==> forall k :: k in keys ==> k in batch)
    ensures forall i, j :: 0 <= i < j < |batch| ==> batch[i] != batch[j]
  {
    if n == 0 || keys == {} { batch := []; }
    else {
      var k :| k in keys;
      var rest := BatchExists(keys - {k}, n - 1);
      batch := [k] + rest;
    }
  }

  /** A drain is never stuck: its thread can step, or it waits to detach a fork whose media tick can end. */
  lemma DrainIsNeverStuck(acts: seq<Action>, t: Tid)
    requires DrainAt(PcOf(Exec(acts), t)).Some?
    ensures var s := Exec(acts); var pc := PcOf(s, t);
      || (exists c :: Enabled(s, Run(t, c)))
      || (pc.Tearing? && pc.step == DoDetach && Enabled(s, TickDone(pc.victim))
          && forall c :: Enabled(Apply(s, TickDone(pc.victim)), Run(t, c)))
  {
    var s := Exec(acts);
    var pc := PcOf(s, t);
    RunsAreGood(acts);
    HashKeys(s);
    if pc.Scanning? {
      var batch := BatchExists(MatchingKeys(s.table, pc.d.call), DRAIN_BATCH);
      assert Enabled(s, Run(t, Choice(true, true, "", batch)));
    } else if pc.Tearing? && pc.step == DoDetach && pc.victim in s.bugs && s.bugs[pc.victim].ticking {
      OwnedIsIdle(s, t, pc.victim);
      TickEnds(s, t, pc.victim);
    } else {
      assert Enabled(s, Run(t, Choice(true, true, "", [])));
    }
  }

  lemma TickEnds(s: State, t: Tid, v: RecId)
    requires v in s.bugs && s.bugs[v].ticking && v in s.table.recs && PcOf(s, t).Tearing? && PcOf(s, t).victim == v
    ensures forall c :: Enabled(Apply(s, TickDone(v)), Run(t, c))
  {
    var s' := Apply(s, TickDone(v));
    assert PcOf(s', t) == PcOf(s, t) && v in s'.bugs && !s'.bugs[v].ticking;
  }
}
