/** What an unload leaves behind: the hash, and the hangup handlers that would call into the unloaded module. */
module ProtocolUnload {
  import opened Common
  import opened RecordingProtocol
  import opened ProtocolRuns
  import opened ProtocolOutcomes
  import opened ProtocolHandlers
  import opened ProtocolHandlerRuns
  import opened ProtocolHandlerTheorems
  import opened ProtocolHandlerSerial
  import opened ProtocolDrainEnds

  /** Thread `t`'s unload is about to return: its last scan came back short when the run was at action `m`, no start stood
    * between its allocation and its insert then, and none has begun since. */
  ghost predicate UnloadReturns(acts: seq<Action>, m: nat, t: Tid, d: Drain) {
    && PcOf(Exec(acts), t) == Draining(d) && d.call == None && d.pending == [] && d.lastScan
    && m <= |acts| && d.scanAt == |Exec(acts[..m]).log| && NoneWaits(Exec(acts[..m]), None)
    && forall i :: m <= i < |acts| ==> NoneBegins(acts[i], None)
  }

  /** Then nothing is hashed, and of the calls that have not hung up and that no release still works for, one holds a
    * handler exactly when some start bound it late, with nothing of the call inserted or unbound since: none does when each
    * call's starts ran beside no other start, stop or unload of it. */
  lemma UnloadLeavesNoHandler(acts: seq<Action>, us: set<string>, m: nat, t: Tid, d: Drain, c: Choice)
    requires UnloadReturns(acts, m, t, d) && NamedRun(acts + [Run(t, c)], us)
    ensures var after := acts + [Run(t, c)];
      && Drained(t) in Exec(after).log && PcOf(Exec(after), t) == Idle && Exec(after).table.hash == map[]
      && (forall call :: NotHungUp(after, call) && !SomePending(Exec(after), call) ==>
            (call in Exec(after).bound <==> exists k: nat :: StrandedBy(after, k, call)))
      && forall call :: NotHungUp(after, call) && ExclusiveRun(after, call) && Settled(Exec(after), call) ==>
           call !in Exec(after).bound
  {
    var after := acts + [Run(t, c)];
    UnloadEmpties(acts, m, t, d, c);
    forall call | NotHungUp(after, call) && !SomePending(Exec(after), call)
      ensures call in Exec(after).bound <==> exists k: nat :: StrandedBy(after, k, call)
    {
      BoundInVainIff(after, us, call);
    }
    forall call | NotHungUp(after, call) && ExclusiveRun(after, call) && Settled(Exec(after), call)
      ensures call !in Exec(after).bound
    {
      HandlersFollowRecordings(after, us, call);
    }
  }

  lemma UnloadEmpties(acts: seq<Action>, m: nat, t: Tid, d: Drain, c: Choice)
    requires UnloadReturns(acts, m, t, d)
    ensures var s := Exec(acts + [Run(t, c)]);
      Drained(t) in s.log && PcOf(s, t) == Idle && s.table.hash == map[]
  {
    RunsAreGood(acts);
    ExecSnoc(acts, Run(t, c));
    DrainEmptiesWithoutStarts(acts, m, t, d);
    TouchesLive(Exec(acts), Run(t, c));
  }
}
