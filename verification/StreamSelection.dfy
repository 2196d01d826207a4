/** From the answer to the fork: the endpoints siprec_invite_send settles and siprec_media_attach uses. */
module StreamSelection {
  import opened Common
  import opened SdpAnswer

  const MAX_STREAMS := 2

  datatype AddressKind = NoAddress | IPv4 | IPv6

  /** remote_media_ip and remote_media_port of the recording leg; `port` is `None` when it is not a number. */
  datatype LegEndpoint = LegEndpoint(ip: string, port: Option<int>)

  predicate Usable(pt: nat) { pt == 0 || pt == 8 }

  function FirstFew(es: seq<Negotiated>): seq<Negotiated> { if |es| <= MAX_STREAMS then es else es[..MAX_STREAMS] }

  function Fallback(leg: LegEndpoint): seq<Negotiated> {
    if leg.ip != "" && leg.port.Some? && 0 < leg.port.value <= 65535
    then [Negotiated(Cut(leg.ip), leg.port.value, PT_UNSET, 0)] else []
  }

  function WithLegCodec(e: Negotiated, legPt: nat): Negotiated {
    if !Usable(e.pt) && Usable(legPt) then e.(pt := legPt) else e
  }

  /** The streams the invite settles on: the answer's, or the leg's single endpoint; a stream without a usable payload
    * type takes the leg's codec. */
  function Settled(answer: seq<Negotiated>, leg: LegEndpoint, legPt: nat): (s: seq<Negotiated>)
    ensures |s| == |if answer != [] then answer else Fallback(leg)|
  {
    var streams := if answer != [] then answer else Fallback(leg);
    seq(|streams|, i requires 0 <= i < |streams| => WithLegCodec(streams[i], legPt))
  }

  /** The negotiated[] part of siprec_invite_send. */
  method Negotiate(sdp: string, leg: LegEndpoint, legPt: nat, negotiated: array<Negotiated>) returns (count: nat)
    requires negotiated.Length == MAX_STREAMS
    modifies negotiated
    ensures count <= MAX_STREAMS && negotiated[..count] == Settled(FirstFew(Entries(sdp)), leg, legPt)
  {
    count := ParseRemoteStreams(sdp, negotiated);
    ghost var answer := FirstFew(Entries(sdp));
    assert negotiated[..count] == answer;
    if count == 0 && leg.ip != "" && leg.port.Some? && 0 < leg.port.value <= 65535 {
      negotiated[0] := Negotiated(Cut(leg.ip), leg.port.value, PT_UNSET, 0);
      count := 1;
    }
    ghost var streams := negotiated[..count];
    assert streams == if answer != [] then answer else Fallback(leg);
    for s := 0 to count
      invariant forall i :: s <= i < count ==> negotiated[i] == streams[i]
      invariant forall i :: 0 <= i < s ==> negotiated[i] == WithLegCodec(streams[i], legPt)
    {
      if negotiated[s].pt != 0 && negotiated[s].pt != 8 && Usable(legPt) {
        negotiated[s] := negotiated[s].(pt := legPt);
      }
    }
  }

  datatype Target = Target(ip: string, port: nat, pt: nat)

  datatype Plan = Plan(separate: bool, targets: seq<Target>)

  predicate BothAccepted(streams: seq<Negotiated>) { |streams| >= 2 && streams[0].mline == 0 && streams[1].mline == 1 }

  function TargetOf(e: Negotiated, callPt: nat): Target {
    Target(Cut(e.ip), e.port, if Usable(e.pt) then e.pt else callPt)
  }

  /** The fork that attaching to these streams makes, if every address is one. */
  function PlanOf(requested: bool, multichannel: bool, streams: seq<Negotiated>, callPt: nat): Plan
    requires streams != []
  {
    if requested && BothAccepted(streams) && !multichannel
    then Plan(true, [TargetOf(streams[0], callPt), TargetOf(streams[1], callPt)])
    else Plan(false, [TargetOf(streams[0], callPt)])
  }

  /** The process's descriptors. The kernel hands out one that is not open; closing one that is not is an error. */
  class Descriptors {
    var open: set<int>

    /** socket(): a fresh descriptor or -1. */
    method Socket(answer: int) returns (fd: int)
      requires answer !in open
      modifies this
      ensures fd == answer && open == old(open) + if answer >= 0 then {answer} else {}
    {
      fd := answer;
      if fd >= 0 { open := open + {fd}; }
    }

    method Close(fd: int)
      requires fd in open
      modifies this
      ensures open == old(open) - {fd}
    {
      open := open - {fd};
    }
  }

  /** The descriptors among some streams' `fd` fields; -1 says that there is none. */
  ghost function Opened(fds: seq<int>): set<int> { set fd | fd in fds && fd >= 0 }

  /** They are this fork's own: open, and no two alike. */
  ghost predicate Owns(open: set<int>, fds: seq<int>) {
    Opened(fds) <= open && forall i, j :: 0 <= i < j < |fds| && fds[i] >= 0 ==> fds[i] != fds[j]
  }

  /** The loop of a failure half way: the streams before the one that failed are closed. */
  method CloseFirst(fds: array<int>, n: nat, sys: Descriptors)
    requires n <= fds.Length && Owns(sys.open, fds[..n])
    modifies sys
    ensures sys.open == old(sys.open) - Opened(fds[..n])
  {
    for j := 0 to n
      invariant sys.open == old(sys.open) - Opened(fds[..j])
    {
      assert fds[..j + 1] == fds[..j] + [fds[j]];
      if fds[j] >= 0 {
        assert fds[j] in Opened(fds[..n]) && fds[j] !in Opened(fds[..j]) by { OwnsNext(sys.open, fds[..n], j); }
        sys.Close(fds[j]);
      }
    }
  }

  /** A descriptor of its own is not among those before it. */
  lemma OwnsNext(open: set<int>, fds: seq<int>, j: nat)
    requires j < |fds| && fds[j] >= 0 && forall i, k :: 0 <= i < k < |fds| && fds[i] >= 0 ==> fds[i] != fds[k]
    ensures fds[j] in Opened(fds) && fds[j] !in Opened(fds[..j])
  {
  }

  /** The loop at a detach, and at an attach whose bug could not be added: every stream is closed, and says so. */
  method CloseStreams(fds: array<int>, n: nat, sys: Descriptors)
    requires n <= fds.Length && Owns(sys.open, fds[..n])
    modifies sys, fds
    ensures sys.open == old(sys.open) - Opened(old(fds[..n]))
    ensures forall i :: 0 <= i < fds.Length ==> fds[i] == if i < n && old(fds[i]) >= 0 then -1 else old(fds[i])
  {
    ghost var was := fds[..n];
    for j := 0 to n
      invariant sys.open == old(sys.open) - Opened(was[..j])
      invariant forall i :: j <= i < fds.Length ==> fds[i] == old(fds[i])
      invariant forall i :: 0 <= i < j ==> fds[i] == if was[i] < 0 then was[i] else -1
    {
      assert was[..j + 1] == was[..j] + [was[j]];
      if fds[j] >= 0 {
        assert fds[j] in Opened(was) && fds[j] !in Opened(was[..j]) by { OwnsNext(sys.open, was, j); }
        sys.Close(fds[j]);
        fds[j] := -1;
      }
    }
    assert was[..n] == was;
  }

  /** What the kernel and the core answer: what socket() returns for each stream, and whether the bug was added. */
  datatype System = System(sockets: seq<int>, bugAdded: bool)

  /** No answer of the kernel is a descriptor in use. */
  ghost predicate Distinct(sys: System, open: set<int>) {
    && |sys.sockets| == MAX_STREAMS && (forall i :: 0 <= i < MAX_STREAMS ==> sys.sockets[i] >= -1 && sys.sockets[i] !in open)
    && (sys.sockets[0] >= 0 ==> sys.sockets[0] != sys.sockets[1])
  }

  /** Each of the first `n` streams has an address and gets a socket. */
  ghost predicate AllOpen(n: nat, streams: seq<Negotiated>, kind: string -> AddressKind, answers: System) {
    && n <= |streams| && n <= |answers.sockets|
    && forall i :: 0 <= i < n ==> kind(streams[i].ip) != NoAddress && answers.sockets[i] >= 0
  }

  /** siprec_media_attach: the plan when every step worked, with a descriptor of its own for each stream; whatever fails,
    * the process has the descriptors open that it had before. */
  method Attach(requested: bool, multichannel: bool, streams: seq<Negotiated>, kind: string -> AddressKind, callPt: nat,
                answers: System, sys: Descriptors)
    returns (plan: Option<Plan>, fds: array<int>)
    requires Distinct(answers, sys.open)
    modifies sys
    ensures fresh(fds) && fds.Length == MAX_STREAMS
    ensures plan.Some? ==> streams != [] && plan.value == PlanOf(requested, multichannel, streams, callPt)
    ensures plan.Some? ==> var n := |plan.value.targets|;
      && n <= MAX_STREAMS && (forall i :: 0 <= i < n ==> fds[i] >= 0 && fds[i] !in old(sys.open))
      && Owns(sys.open, fds[..n]) && sys.open == old(sys.open) + Opened(fds[..n])
    ensures plan.None? ==> sys.open == old(sys.open)
    ensures plan.Some? <==>
      streams != [] && answers.bugAdded
      && AllOpen(|PlanOf(requested, multichannel, streams, callPt).targets|, streams, kind, answers)
  {
    fds := new int[MAX_STREAMS](_ => -1);
    if streams == [] { return None, fds; }
    var separate := false;
    if requested {
      if |streams| < 2 || streams[0].mline != 0 || streams[1].mline != 1 {
      } else if multichannel {
      } else {
        separate := true;
      }
    }
    var targets := OpenStreams(if separate then 2 else 1, streams, kind, callPt, answers, fds, sys);
    ghost var whole := PlanOf(requested, multichannel, streams, callPt);
    PlanByStream(requested, multichannel, streams, callPt, separate);
    if targets.None? { return None, fds; }
    GrantedAreOwn(answers, old(sys.open), fds[..if separate then 2 else 1]);
    var added := AddBug(fds, if separate then 2 else 1, answers, sys);
    if !added { return None, fds; }
    plan := Some(Plan(separate, targets.value));
  }

  /** The end of an attach: without the bug the streams are closed again. */
  method AddBug(fds: array<int>, n: nat, answers: System, sys: Descriptors) returns (ok: bool)
    requires n <= fds.Length && Owns(sys.open, fds[..n])
    modifies sys, fds
    ensures ok == answers.bugAdded
    ensures if ok then sys.open == old(sys.open) && fds[..] == old(fds[..]) else sys.open == old(sys.open) - Opened(old(fds[..n]))
  {
    ok := answers.bugAdded;
    if !ok { CloseStreams(fds, n, sys); }
  }

  /** What the kernel granted is the fork's own and was not open before. */
  lemma GrantedAreOwn(answers: System, open: set<int>, fds: seq<int>)
    requires Distinct(answers, open) && fds <= answers.sockets && forall i :: 0 <= i < |fds| ==> fds[i] >= 0
    ensures Owns(open + Opened(fds), fds) && forall i :: 0 <= i < |fds| ==> fds[i] !in open
  {
  }

  /** The plan's targets are those of its first stream or of its first two. */
  lemma PlanByStream(requested: bool, multichannel: bool, streams: seq<Negotiated>, callPt: nat, separate: bool)
    requires streams != [] && (separate <==> requested && BothAccepted(streams) && !multichannel)
    ensures var n := if separate then 2 else 1;
      n <= |streams| && PlanOf(requested, multichannel, streams, callPt)
                        == Plan(separate, seq(n, i requires 0 <= i < n => TargetOf(streams[i], callPt)))
  {
  }

  /** The loop over the streams: address, socket, payload type. */
  method OpenStreams(count: nat, streams: seq<Negotiated>, kind: string -> AddressKind, callPt: nat, answers: System,
                     fds: array<int>, sys: Descriptors)
    returns (targets: Option<seq<Target>>)
    requires 1 <= count <= MAX_STREAMS && count <= |streams| && fds.Length == MAX_STREAMS && Distinct(answers, sys.open)
    modifies sys, fds
    ensures targets.Some? <==> AllOpen(count, streams, kind, answers)
    ensures targets.Some? ==>
      targets.value == seq(count, i requires 0 <= i < count => TargetOf(streams[i], callPt))
      && fds[..count] == answers.sockets[..count] && sys.open == old(sys.open) + Opened(fds[..count])
    ensures targets.None? ==> sys.open == old(sys.open)
  {
    var built: seq<Target> := [];
    for i := 0 to count
      invariant built == seq(i, j requires 0 <= j < i => TargetOf(streams[j], callPt))
      invariant fds[..i] == answers.sockets[..i] && sys.open == old(sys.open) + Opened(fds[..i])
      invariant forall j :: 0 <= j < i ==> kind(streams[j].ip) != NoAddress && answers.sockets[j] >= 0
    {
      if kind(streams[i].ip) == NoAddress {
        CloseFirst(fds, i, sys);
        return None;
      }
      assert answers.sockets[i] !in sys.open;
      fds[i] := sys.Socket(answers.sockets[i]);
      assert fds[..i] == answers.sockets[..i];
      if fds[i] < 0 {
        CloseFirst(fds, i, sys);
        return None;
      }
      assert fds[..i + 1] == fds[..i] + [fds[i]] == answers.sockets[..i + 1];
      built := built + [Target(Cut(streams[i].ip), streams[i].port,
                               if streams[i].pt == 0 || streams[i].pt == 8 then streams[i].pt else callPt)];
    }
    targets := Some(built);
  }

  // ---- the answer decides ----

  /** The payload type a stream is sent with: the answer's if it is G.711, else the recording leg's, else the call's. */
  function Chosen(answerPt: nat, legPt: nat, callPt: nat): nat {
    if Usable(answerPt) then answerPt else if Usable(legPt) then legPt else callPt
  }

  function EndpointOf(session: string, b: Block, index: nat, legPt: nat, callPt: nat): Target
    requires Accepted(b)
  {
    var e := EntryOf(session, b, index);
    Target(Cut(e.ip), e.port, Chosen(e.pt, legPt, callPt))
  }

  /** The first two entries are m= lines 0 and 1 exactly when those two blocks were accepted. */
  lemma FirstTwo(session: string, blocks: seq<Block>)
    ensures BothAccepted(EntriesOf(session, blocks, 0)) <==> |blocks| >= 2 && Accepted(blocks[0]) && Accepted(blocks[1])
    ensures BothAccepted(EntriesOf(session, blocks, 0)) ==>
      var es := EntriesOf(session, blocks, 0); es[0] == EntryOf(session, blocks[0], 0) && es[1] == EntryOf(session, blocks[1], 1)
  {
    var es := EntriesOf(session, blocks, 0);
    if BothAccepted(es) { EveryEntryFits(session, blocks, 0, es[0]); EveryEntryFits(session, blocks, 0, es[1]); }
    if |blocks| >= 2 && Accepted(blocks[0]) && Accepted(blocks[1]) {
      assert es == [EntryOf(session, blocks[0], 0)] + ([EntryOf(session, blocks[1], 1)] + EntriesOf(session, blocks[1..][1..], 2));
    }
  }

  ghost predicate FirstAccepted(blocks: seq<Block>, k: nat) {
    k < |blocks| && Accepted(blocks[k]) && forall j :: 0 <= j < k ==> !Accepted(blocks[j])
  }

  lemma FirstIsFirst(session: string, blocks: seq<Block>) returns (k: nat)
    requires EntriesOf(session, blocks, 0) != []
    ensures FirstAccepted(blocks, k) && EntriesOf(session, blocks, 0)[0] == EntryOf(session, blocks[k], k)
  {
    var es := EntriesOf(session, blocks, 0);
    EveryEntryFits(session, blocks, 0, es[0]);
    k := es[0].mline;
    forall j | 0 <= j < k ensures !Accepted(blocks[j]) {
      if Accepted(blocks[j]) { NothingBeforeFirst(session, blocks, j); }
    }
  }

  lemma NothingBeforeFirst(session: string, blocks: seq<Block>, j: nat)
    requires j < |blocks| && Accepted(blocks[j])
    ensures EntriesOf(session, blocks, 0) != [] && EntriesOf(session, blocks, 0)[0].mline <= j
  {
    var es := EntriesOf(session, blocks, 0);
    EveryBlockHasEntry(session, blocks, 0, j);
    var i :| 0 <= i < |es| && es[i] == EntryOf(session, blocks[j], j);
    if i > 0 { MediaLinesIncrease(session, blocks, 0, 0, i); }
  }

  /** Settling keeps every stream in its place; only an unusable payload type changes. */
  lemma SettledInPlace(es: seq<Negotiated>, leg: LegEndpoint, legPt: nat, callPt: nat)
    ensures var s := Settled(FirstFew(es), leg, legPt);
      && (BothAccepted(s) <==> BothAccepted(es))
      && (es != [] ==> s != [] && forall i :: 0 <= i < |s| ==> i < |es| && s[i] == WithLegCodec(es[i], legPt))
    ensures forall e: Negotiated {:trigger WithLegCodec(e, legPt)} ::
      TargetOf(WithLegCodec(e, legPt), callPt) == Target(Cut(e.ip), e.port, Chosen(e.pt, legPt, callPt))
  {
    var s := Settled(FirstFew(es), leg, legPt);
    assert FirstFew(es) == [] <==> es == [];
    if es != [] { assert forall i :: 0 <= i < |s| ==> s[i] == WithLegCodec(FirstFew(es)[i], legPt); }
    else { assert |s| <= 1; }
  }

  /** What a stream of the answer is sent to and as: its own address and port, and of the answer's payload type, the recording
    * leg's and the call's the first that is PCMU (0) or PCMA (8), or else the call's. */
  lemma TargetIs(es: seq<Negotiated>, leg: LegEndpoint, legPt: nat, callPt: nat, i: nat)
    requires i < |es| && i < 2 && |es[i].ip| <= 63
    ensures var s := Settled(FirstFew(es), leg, legPt);
      && i < |s| && s[i].mline == es[i].mline
      && TargetOf(s[i], callPt)
         == Target(es[i].ip, es[i].port, if es[i].pt in {0, 8} then es[i].pt else if legPt in {0, 8} then legPt else callPt)
  {
    var s := Settled(FirstFew(es), leg, legPt);
    assert FirstFew(es)[i] == es[i];
    assert s[i] == WithLegCodec(es[i], legPt);
  }

  /** Without an entry in the answer it is the leg's own endpoint, if it has an address and a port of 1 to 65535. */
  lemma LegIsTarget(leg: LegEndpoint, legPt: nat, callPt: nat)
    ensures var s := Settled([], leg, legPt);
      if leg.ip == "" || leg.port.None? || leg.port.value < 1 || leg.port.value > 65535 then s == []
      else |s| == 1 && s[0].mline == 0
           && TargetOf(s[0], callPt)
              == Target(if |leg.ip| > 63 then leg.ip[..63] else leg.ip, leg.port.value, if legPt in {0, 8} then legPt else callPt)
  {
    var s := Settled([], leg, legPt);
    if s != [] { assert s[0] == WithLegCodec(Negotiated(Cut(leg.ip), leg.port.value, PT_UNSET, 0), legPt); }
  }

  /** The plan for an answer. */
  function AnswerPlan(a: Answer, requested: bool, multichannel: bool, leg: LegEndpoint, legPt: nat, callPt: nat): Plan
    requires Settled(FirstFew(EntriesIn(a)), leg, legPt) != []
  {
    PlanOf(requested, multichannel, Settled(FirstFew(EntriesIn(a)), leg, legPt), callPt)
  }

  /** The fork is separate only if m= lines 0 and 1 of the answer were both accepted audio (and it was asked for, on a
    * mono leg); then stream i goes to m= line i's endpoint with m= line i's payload type. */
  lemma SeparateMeansBothLines(a: Answer, requested: bool, multichannel: bool, leg: LegEndpoint, legPt: nat, callPt: nat)
    requires Settled(FirstFew(EntriesIn(a)), leg, legPt) != []
    ensures var plan := AnswerPlan(a, requested, multichannel, leg, legPt, callPt);
      && (plan.separate <==>
            requested && !multichannel && |a.blocks| >= 2 && Accepted(a.blocks[0]) && Accepted(a.blocks[1]))
      && (plan.separate ==>
            plan.targets == [EndpointOf(SessionIp(a), a.blocks[0], 0, legPt, callPt),
                             EndpointOf(SessionIp(a), a.blocks[1], 1, legPt, callPt)])
  {
    FirstTwo(SessionIp(a), a.blocks);
    SettledInPlace(EntriesIn(a), leg, legPt, callPt);
  }

  /** Any other answer with accepted audio gives one mixed stream to the first accepted block's endpoint. */
  lemma OtherwiseFirstAccepted(a: Answer, requested: bool, multichannel: bool, leg: LegEndpoint, legPt: nat, callPt: nat)
    returns (k: nat)
    requires EntriesIn(a) != [] && !AnswerPlan(a, requested, multichannel, leg, legPt, callPt).separate
    ensures FirstAccepted(a.blocks, k)
    ensures AnswerPlan(a, requested, multichannel, leg, legPt, callPt).targets
         == [EndpointOf(SessionIp(a), a.blocks[k], k, legPt, callPt)]
  {
    k := FirstIsFirst(SessionIp(a), a.blocks);
    SettledInPlace(EntriesIn(a), leg, legPt, callPt);
  }
}
