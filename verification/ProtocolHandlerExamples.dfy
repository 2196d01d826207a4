/** Two runs in which a call's handler and its hashed recordings part company. */
module ProtocolHandlerExamples {
  import opened Common
  import opened RecordingKey
  import opened RecordingTable
  import opened RecordingProtocol
  import opened ProtocolOutcomes
  import opened ProtocolHandlerRuns
  import opened ProtocolHandlerTheorems

  /** What steps depend on: a state without its history. */
  datatype Core = Core(threads: map<Tid, PC>, hash: map<string, RecId>, recs: map<RecId, Rec>, bound: set<string>,
                       bugs: map<RecId, Bug>, legs: map<string, RecId>)

  ghost function CoreOf(s: State): Core { Core(s.threads, s.table.hash, s.table.recs, s.bound, s.bugs, s.legs) }

  const YES := Choice(true, true, "leg", [])

  function Fresh(uses: int, doomed: bool): Rec { Rec("h-u", "u", uses, doomed, false, NoContext, Unattached) }

  lemma KeyOfExample()
    ensures Key("h", "u") == "h-u"
  {
    assert "h" + "-" + "u" == "h-u";
  }

  // ---- a start binds late ----

  lemma Allocates(s: State, t: Tid, r: RecId)
    requires PcOf(s, t) == Idle && r !in s.phase
    ensures CoreOf(Apply(s, BeginStart(t, r, "h", "u")))
         == CoreOf(s).(threads := s.threads[t := Allocated(r)], recs := s.table.recs[r := Fresh(0, false)])
    ensures Apply(s, BeginStart(t, r, "h", "u")).phase.Keys == s.phase.Keys + {r}
  {
    KeyOfExample();
  }

  lemma InsertsFresh(s: State, t: Tid, r: RecId)
    requires PcOf(s, t) == Allocated(r) && r in s.table.recs && s.table.recs[r] == Fresh(0, false) && s.table.hash == map[]
    ensures CoreOf(Apply(s, Run(t, YES)))
         == CoreOf(s).(threads := s.threads[t := Binding(r)], hash := map["h-u" := r], recs := s.table.recs[r := Fresh(1, false)])
    ensures Apply(s, Run(t, YES)).phase.Keys == s.phase.Keys + {r}
  {
    assert Step(s, t, YES) == StepInsert(s, t, r);
  }

  lemma BindsFresh(s: State, t: Tid, r: RecId)
    requires PcOf(s, t) == Binding(r) && r in s.table.recs && s.table.recs[r].uuid == "u"
    ensures CoreOf(Apply(s, Run(t, YES))) == CoreOf(s).(threads := s.threads[t := Preparing(r)], bound := s.bound + {"u"})
    ensures Apply(s, Run(t, YES)).phase == s.phase
  {
  }

  lemma Allocated7() returns (acts: seq<Action>)
    ensures |acts| == 1 && Exec(acts).phase.Keys == {7}
    ensures CoreOf(Exec(acts)) == Core(map[1 := Allocated(7)], map[], map[7 := Fresh(0, false)], {}, map[], map[])
  {
    Allocates(INIT, 1, 7);
    ExecSnoc([], BeginStart(1, 7, "h", "u"));
    acts := [] + [BeginStart(1, 7, "h", "u")];
  }

  lemma Inserted() returns (acts: seq<Action>)
    ensures |acts| == 2 && Exec(acts).phase.Keys == {7}
    ensures CoreOf(Exec(acts)) == Core(map[1 := Binding(7)], map["h-u" := 7], map[7 := Fresh(1, false)], {}, map[], map[])
  {
    acts := Allocated7();
    InsertsFresh(Exec(acts), 1, 7);
    ExecSnoc(acts, Run(1, YES));
    acts := acts + [Run(1, YES)];
  }

  lemma StopBegun() returns (acts: seq<Action>)
    ensures |acts| == 3
    ensures CoreOf(Exec(acts))
         == Core(map[1 := Binding(7), 0 := Claiming("h-u", "u")], map["h-u" := 7], map[7 := Fresh(1, false)], {}, map[], map[])
  {
    acts := Inserted();
    BeginsStop(Exec(acts));
    ExecSnoc(acts, BeginStop(0, "h", "u"));
    acts := acts + [BeginStop(0, "h", "u")];
  }

  lemma BeginsStop(s: State)
    requires PcOf(s, 0) == Idle
    ensures CoreOf(Apply(s, BeginStop(0, "h", "u"))) == CoreOf(s).(threads := s.threads[0 := Claiming("h-u", "u")])
  {
    KeyOfExample();
  }

  lemma StopClaimed() returns (acts: seq<Action>)
    ensures |acts| == 4
    ensures CoreOf(Exec(acts))
         == Core(map[1 := Binding(7), 0 := HandlerScan("u", None)], map[], map[7 := Fresh(1, true)], {}, map[], map[])
  {
    acts := StopBegun();
    ClaimsPinned(Exec(acts));
    ExecSnoc(acts, Run(0, YES));
    acts := acts + [Run(0, YES)];
  }

  lemma StopScanned() returns (acts: seq<Action>)
    ensures |acts| == 5
    ensures CoreOf(Exec(acts))
         == Core(map[1 := Binding(7), 0 := HandlerUnbind("u", None)], map[], map[7 := Fresh(1, true)], {}, map[], map[])
  {
    acts := StopClaimed();
    FindsNone(Exec(acts));
    ExecSnoc(acts, Run(0, YES));
    acts := acts + [Run(0, YES)];
  }

  /** Thread 1 inserted recording 7 and is about to bind; thread 0 claimed it, found nothing hashed and is done. */
  lemma StoppedBeforeBind() returns (acts: seq<Action>)
    ensures |acts| == 6
    ensures CoreOf(Exec(acts)) == Core(map[0 := Idle, 1 := Binding(7)], map[], map[7 := Fresh(1, true)], {}, map[], map[])
  {
    acts := StopScanned();
    UnbindsNone(Exec(acts));
    ExecSnoc(acts, Run(0, YES));
    acts := acts + [Run(0, YES)];
  }

  lemma ClaimsPinned(s: State)
    requires CoreOf(s) == Core(map[1 := Binding(7), 0 := Claiming("h-u", "u")], map["h-u" := 7], map[7 := Fresh(1, false)], {}, map[], map[])
    ensures CoreOf(Apply(s, Run(0, YES)))
         == Core(map[1 := Binding(7), 0 := HandlerScan("u", None)], map[], map[7 := Fresh(1, true)], {}, map[], map[])
  {
    assert Step(s, 0, YES) == StepClaim(s, 0, "h-u", "u");
  }

  lemma FindsNone(s: State)
    requires CoreOf(s) == Core(map[1 := Binding(7), 0 := HandlerScan("u", None)], map[], map[7 := Fresh(1, true)], {}, map[], map[])
    ensures CoreOf(Apply(s, Run(0, YES)))
         == Core(map[1 := Binding(7), 0 := HandlerUnbind("u", None)], map[], map[7 := Fresh(1, true)], {}, map[], map[])
  {
    assert Step(s, 0, YES) == StepHandlerScan(s, 0, "u", None);
  }

  lemma UnbindsNone(s: State)
    requires CoreOf(s) == Core(map[1 := Binding(7), 0 := HandlerUnbind("u", None)], map[], map[7 := Fresh(1, true)], {}, map[], map[])
    ensures CoreOf(Apply(s, Run(0, YES)))
         == Core(map[1 := Binding(7), 0 := Idle], map[], map[7 := Fresh(1, true)], {}, map[], map[])
  {
  }

  /** From the late bind on, the start answers, attaches, finds itself doomed at its release and tears down. */
  function Wired7(uses: int, leg: Leg, media: Media): Rec { Rec("h-u", "u", uses, true, false, leg, media) }

  function Stage(k: nat): PC
    requires k <= 9
  {
    if k == 0 then Preparing(7) else if k == 1 then Inviting(7) else if k == 2 then Attaching(7)
    else if k == 3 then Wiring(7) else if k == 4 then Finishing(7)
    else if k == 5 then Tearing(7, DoDetach, ToStopped(7)) else if k == 6 then Tearing(7, DoBye, ToStopped(7))
    else if k == 7 then Tearing(7, DoFree, ToStopped(7)) else if k == 8 then Stopped(7) else Idle
  }

  function RecAt(k: nat): Rec {
    Wired7(if k <= 4 then 1 else 0,
           if k <= 1 then NoContext else if k <= 6 then OnLeg("leg") else Blank,
           if k <= 2 then Unattached else if k == 3 then Adding(true) else if k <= 5 then Wired(true) else Unwired)
  }

  function CoreAt(k: nat): Core
    requires k <= 9
  {
    Core(map[0 := Idle, 1 := Stage(k)], map[], if k <= 7 then map[7 := RecAt(k)] else map[], {"u"},
         if 3 <= k <= 5 then map[7 := Bug(false, false)] else map[], if k <= 1 then map[] else map["leg" := 7])
  }

  lemma EarlyStage(s: State, k: nat)
    requires k <= 3 && CoreOf(s) == CoreAt(k)
    ensures CoreOf(Apply(s, Run(1, YES))) == CoreAt(k + 1)
  {
  }

  lemma ReleaseStage(s: State)
    requires CoreOf(s) == CoreAt(4)
    ensures CoreOf(Apply(s, Run(1, YES))) == CoreAt(5)
  {
    assert Step(s, 1, YES) == StepFinish(s, 1, 7);
  }

  lemma TearStage(s: State, k: nat)
    requires 5 <= k <= 7 && CoreOf(s) == CoreAt(k)
    ensures CoreOf(Apply(s, Run(1, YES))) == CoreAt(k + 1)
  {
    if k == 5 { DetachStage(s); } else if k == 6 { ByeStage(s); } else { FreeStage(s); }
  }

  lemma DetachStage(s: State)
    requires CoreOf(s) == CoreAt(5)
    ensures CoreOf(Apply(s, Run(1, YES))) == CoreAt(6)
  {
    assert Step(s, 1, YES) == Go(Detaches(s, 7), 1, Tearing(7, DoBye, ToStopped(7)));
  }

  lemma ByeStage(s: State)
    requires CoreOf(s) == CoreAt(6)
    ensures CoreOf(Apply(s, Run(1, YES))) == CoreAt(7)
  {
    assert Step(s, 1, YES) == Go(Byes(s, 7, true), 1, Tearing(7, DoFree, ToStopped(7)));
  }

  lemma FreeStage(s: State)
    requires CoreOf(s) == CoreAt(7)
    ensures CoreOf(Apply(s, Run(1, YES))) == CoreAt(8)
  {
    assert Step(s, 1, YES) == Go(Frees(s, 7), 1, Stopped(7));
  }

  lemma LastStage(s: State)
    requires CoreOf(s) == CoreAt(8)
    ensures CoreOf(Apply(s, Run(1, YES))) == CoreAt(9) && Outcome(1, 7, Failed) in Apply(s, Run(1, YES)).log
  {
  }

  /** The start's run from its late bind to its return. */
  lemma {:induction false} Carried(acts: seq<Action>, k: nat) returns (more: seq<Action>)
    requires k <= 9 && |acts| == 7 && CoreOf(Exec(acts)) == CoreAt(0)
    ensures acts <= more && CoreOf(Exec(more)) == CoreAt(k) && (k == 9 ==> Outcome(1, 7, Failed) in Exec(more).log)
  {
    if k == 0 { more := acts; }
    else {
      more := Carried(acts, k - 1);
      var s := Exec(more);
      if k <= 4 { EarlyStage(s, k - 1); } else if k == 5 { ReleaseStage(s); } else if k <= 8 { TearStage(s, k - 1); } else { LastStage(s); }
      ExecSnoc(more, Run(1, YES));
      more := more + [Run(1, YES)];
    }
  }

  /** A run that strands a handler: the start's recording is claimed between its insert and its bind, the start binds,
    * answers, attaches, and reports FALSE. Everybody is idle, nothing is hashed, no recording exists, and the call still
    * holds a handler of this module, which an unload will not look for. */
  lemma StrandedHandler() returns (acts: seq<Action>)
    ensures |acts| > 6 && BindsLate(Exec(acts[..6]), acts[6], "u")
    ensures PcOf(Exec(acts), 0) == Idle && PcOf(Exec(acts), 1) == Idle && Outcome(1, 7, Failed) in Exec(acts).log
    ensures Exec(acts).table == Table(map[], map[]) && Exec(acts).bound == {"u"}
  {
    var first := StoppedBeforeBind();
    BindsFresh(Exec(first), 1, 7);
    ExecSnoc(first, Run(1, YES));
    var bound := first + [Run(1, YES)];
    acts := Carried(bound, 9);
    assert acts[..6] == first && acts[6] == Run(1, YES);
  }

  // ---- an unload unbinds late ----

  function Unload(pending: seq<(string, string)>, scanAt: nat): Drain { Drain(None, true, false, true, {7}, scanAt, pending) }

  lemma ScansOne(s: State)
    requires s.threads == map[1 := Preparing(7), 0 := Scanning(Drain(None, true, false, false, {}, 0, []))]
    requires s.table == Table(map["h-u" := 7], map[7 := Fresh(1, false)])
    ensures CoreOf(Apply(s, Run(0, ONE_KEY))) == CoreOf(s).(threads := s.threads[0 := Draining(Unload([("h-u", "u")], |s.log|))])
    ensures Apply(s, Run(0, ONE_KEY)).phase == s.phase
  {
    var d := Drain(None, true, false, false, {}, 0, []);
    assert MatchingKeys(s.table, None) == {"h-u"};
    OneKeyScan(s, d);
    assert Step(s, 0, ONE_KEY) == StepScan(s, 0, d, ["h-u"]);
  }

  lemma OneKeyScan(s: State, d: Drain)
    requires s.table == Table(map["h-u" := 7], map[7 := Fresh(1, false)])
    requires d == Drain(None, true, false, false, {}, 0, [])
    ensures StepScan(s, 0, d, ["h-u"]) == Go(s, 0, Draining(Unload([("h-u", "u")], |s.log|)))
  {
    var d' := PcOf(StepScan(s, 0, d, ["h-u"]), 0).d;
    assert "h-u" in ["h-u"];
    assert 7 in d'.seen && forall r :: r in d'.seen ==> r == 7;
    assert d'.seen == {7};
    assert d'.pending == [("h-u", "u")];
  }

  lemma ClaimsForUnload(s: State, at: nat)
    requires s.threads == map[1 := Preparing(7), 0 := Draining(Unload([("h-u", "u")], at))]
    requires s.table == Table(map["h-u" := 7], map[7 := Fresh(1, false)])
    ensures CoreOf(Apply(s, Run(0, YES)))
         == CoreOf(s).(threads := s.threads[0 := DrainUnbinding(Unload([], at), "u")], hash := map[], recs := map[7 := Fresh(1, true)])
    ensures Apply(s, Run(0, YES)).phase.Keys == s.phase.Keys + {7}
  {
    ClaimsOnly(s, at);
    assert Step(s, 0, YES) == StepDrain(s, 0, Unload([("h-u", "u")], at));
  }

  lemma ClaimsOnly(s: State, at: nat)
    requires s.table == Table(map["h-u" := 7], map[7 := Fresh(1, false)])
    ensures var s' := StepDrain(s, 0, Unload([("h-u", "u")], at));
      && CoreOf(s') == CoreOf(s).(threads := s.threads[0 := DrainUnbinding(Unload([], at), "u")], hash := map[],
                                  recs := map[7 := Fresh(1, true)])
      && s'.phase.Keys == s.phase.Keys + {7}
  {
    assert [("h-u", "u")][1..] == [];
  }

  /** An unload has begun beside a start that has bound. */
  lemma UnloadBegun() returns (acts: seq<Action>)
    ensures |acts| == 4 && Exec(acts).phase.Keys == {7}
    ensures CoreOf(Exec(acts))
         == Core(map[1 := Preparing(7), 0 := Scanning(Drain(None, true, false, false, {}, 0, []))],
                 map["h-u" := 7], map[7 := Fresh(1, false)], {"u"}, map[], map[])
  {
    acts := Inserted();
    BindsFresh(Exec(acts), 1, 7);
    ExecSnoc(acts, Run(1, YES));
    acts := acts + [Run(1, YES)];
    BeginsUnload(Exec(acts));
    ExecSnoc(acts, BeginDrain(0, None, true, false));
    acts := acts + [BeginDrain(0, None, true, false)];
  }

  lemma BeginsUnload(s: State)
    requires PcOf(s, 0) == Idle
    ensures CoreOf(Apply(s, BeginDrain(0, None, true, false)))
         == CoreOf(s).(threads := s.threads[0 := Scanning(Drain(None, true, false, false, {}, 0, []))])
    ensures Apply(s, BeginDrain(0, None, true, false)).phase == s.phase
  {
  }

  const ONE_KEY := Choice(true, true, "leg", ["h-u"])

  lemma UnloadScanned() returns (acts: seq<Action>, at: nat)
    ensures |acts| == 5 && Exec(acts).phase.Keys == {7}
    ensures CoreOf(Exec(acts))
         == Core(map[1 := Preparing(7), 0 := Draining(Unload([("h-u", "u")], at))], map["h-u" := 7], map[7 := Fresh(1, false)],
                 {"u"}, map[], map[])
  {
    acts := UnloadBegun();
    ScansOne(Exec(acts));
    at := |Exec(acts).log|;
    ExecSnoc(acts, Run(0, ONE_KEY));
    acts := acts + [Run(0, ONE_KEY)];
  }

  /** An unload claimed recording 7 and is about to unbind its call's handler. */
  lemma UnloadAboutToUnbind() returns (acts: seq<Action>, at: nat)
    ensures |acts| == 6 && Exec(acts).phase.Keys == {7}
    ensures CoreOf(Exec(acts))
         == Core(map[1 := Preparing(7), 0 := DrainUnbinding(Unload([], at), "u")], map[], map[7 := Fresh(1, true)], {"u"}, map[], map[])
  {
    acts, at := UnloadScanned();
    ClaimsForUnload(Exec(acts), at);
    ExecSnoc(acts, Run(0, YES));
    acts := acts + [Run(0, YES)];
  }

  /** A second start has begun meanwhile, */
  lemma SecondBegun() returns (acts: seq<Action>, at: nat)
    ensures |acts| == 7 && PcOf(Exec(acts), 0) == DrainUnbinding(Unload([], at), "u") && PcOf(Exec(acts), 2) == Allocated(8)
    ensures Exec(acts).table == Table(map[], map[7 := Fresh(1, true), 8 := Fresh(0, false)])
  {
    acts, at := UnloadAboutToUnbind();
    Allocates(Exec(acts), 2, 8);
    ExecSnoc(acts, BeginStart(2, 8, "h", "u"));
    acts := acts + [BeginStart(2, 8, "h", "u")];
  }

  /** ... inserted */
  lemma SecondInserted() returns (acts: seq<Action>, at: nat)
    ensures |acts| == 8 && PcOf(Exec(acts), 0) == DrainUnbinding(Unload([], at), "u") && PcOf(Exec(acts), 2) == Binding(8)
    ensures Exec(acts).table == Table(map["h-u" := 8], map[7 := Fresh(1, true), 8 := Fresh(1, false)])
  {
    acts, at := SecondBegun();
    InsertsFresh(Exec(acts), 2, 8);
    ExecSnoc(acts, Run(2, YES));
    acts := acts + [Run(2, YES)];
  }

  /** ... and bound. */
  lemma SecondHasBound() returns (acts: seq<Action>, at: nat)
    ensures |acts| == 9 && PcOf(Exec(acts), 0) == DrainUnbinding(Unload([], at), "u")
    ensures Exec(acts).table == Table(map["h-u" := 8], map[7 := Fresh(1, true), 8 := Fresh(1, false)])
  {
    acts, at := SecondInserted();
    BindsFresh(Exec(acts), 2, 8);
    ExecSnoc(acts, Run(2, YES));
    acts := acts + [Run(2, YES)];
  }

  /** A run that leaves a recording without its handler: an unload claims the call's first recording, a second start
    * inserts and binds, and only then the unload unbinds. */
  lemma HandlerlessRecording() returns (acts: seq<Action>)
    ensures |acts| == 10 && UnboundUnder(acts, 9, "u", 8)
    ensures HashedFor(Exec(acts).table, "h-u", "u") && "u" !in Exec(acts).bound
  {
    var nine, at := SecondHasBound();
    UnbindsUnder(Exec(nine), at);
    ExecSnoc(nine, Run(0, YES));
    acts := nine + [Run(0, YES)];
    UnboundNow(nine, Run(0, YES), "u", 8);
  }

  lemma UnbindsUnder(s: State, at: nat)
    requires PcOf(s, 0) == DrainUnbinding(Unload([], at), "u")
    ensures Apply(s, Run(0, YES)).bound == s.bound - {"u"} && Apply(s, Run(0, YES)).table == s.table
  {
  }
}
