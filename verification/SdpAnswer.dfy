/** The SRS's SDP answer: the cursor loop of siprec_sdp_parse_remote_streams, and the blocks it stands for
  * (section 5.7 of RFC 4566, section 6 of RFC 3264). */
module SdpAnswer {
  import opened SdpScan

  const IP_MAX := 63
  const PT_UNSET := 0xFF

  datatype Negotiated = Negotiated(ip: string, port: nat, pt: nat, mline: int)

  // ---- lines ----

  /** strpbrk(p, "\r\n"), or the end of the text. */
  function Eol(t: string): (n: nat)
    ensures n <= |t| && (n < |t| ==> LineEnd(t[n])) && forall i :: 0 <= i < n ==> !LineEnd(t[i])
  {
    if t == "" || LineEnd(t[0]) then 0 else 1 + Eol(t[1..])
  }

  function LineOf(t: string): string { t[..Eol(t)] }

  /** The text after the first line and its CR, LF or CRLF. */
  function After(t: string): (r: string)
    requires t != ""
    ensures |r| < |t|
  {
    var n := Eol(t);
    if n == |t| then "" else if t[n] == '\r' && n + 1 < |t| && t[n + 1] == '\n' then t[n + 2..] else t[n + 1..]
  }

  predicate IsConnection(t: string) {
    var line := LineOf(t);
    |line| > 9 && (line[..9] == "c=IN IP4 " || line[..9] == "c=IN IP6 ")
  }

  function Cut(s: string): string { if |s| > IP_MAX then s[..IP_MAX] else s }

  function Address(t: string): string
    requires IsConnection(t)
  {
    Cut(LineOf(t)[9..])
  }

  predicate IsMedia(t: string) { |LineOf(t)| >= 2 && LineOf(t)[..2] == "m=" }

  predicate IsAudio(t: string) { |LineOf(t)| > 8 && LineOf(t)[..8] == "m=audio " }

  /** What the line at the head of a text is to the parser. The scan of an audio line reads on into what follows. */
  datatype Line = Connection(ip: string) | Audio(scan: Scan) | OtherMedia | Other

  function Classify(t: string): Line {
    if IsConnection(t) then Connection(Address(t))
    else if IsMedia(t) then (if IsAudio(t) then Audio(ScanFields(t[8..])) else OtherMedia)
    else Other
  }

  function Lines(t: string): seq<Line>
    decreases |t|
  {
    if t == "" then [] else [Classify(t)] + Lines(After(t))
  }

  // ---- blocks ----

  predicate Opens(l: Line) { l.Audio? || l.OtherMedia? }

  /** An m= line and the lines up to the next one. */
  datatype Block = Block(head: Line, lines: seq<Line>)

  /** The lines before the first m= line, and the blocks. */
  datatype Answer = Answer(session: seq<Line>, blocks: seq<Block>)

  function Sections(lines: seq<Line>): Answer {
    if lines == [] then Answer([], [])
    else
      var rest := Sections(lines[1..]);
      if Opens(lines[0]) then Answer([], [Block(lines[0], rest.session)] + rest.blocks)
      else Answer([lines[0]] + rest.session, rest.blocks)
  }

  /** The last c= line of some lines decides; without one, what was there before. */
  function LastAddress(lines: seq<Line>, before: string): string {
    if lines == [] then before
    else LastAddress(lines[1..], if lines[0].Connection? then lines[0].ip else before)
  }

  /** An audio block whose scan yields a port in range is accepted; port 0 declines it. */
  predicate Accepted(b: Block) { b.head.Audio? && b.head.scan.got >= 1 && 0 < b.head.scan.port <= 65535 }

  function PayloadType(s: Scan): nat { if s.got == 2 && s.pt <= 0x7F then s.pt else PT_UNSET }

  /** The entry of the `index`-th block. */
  function EntryOf(session: string, b: Block, index: nat): Negotiated
    requires Accepted(b)
  {
    Negotiated(LastAddress(b.lines, session), b.head.scan.port, PayloadType(b.head.scan), index)
  }

  /** One entry per accepted block, in order; `index` numbers the first. */
  function EntriesOf(session: string, blocks: seq<Block>, index: nat): seq<Negotiated> {
    if blocks == [] then []
    else (if Accepted(blocks[0]) then [EntryOf(session, blocks[0], index)] else [])
         + EntriesOf(session, blocks[1..], index + 1)
  }

  function SessionIp(a: Answer): string { LastAddress(a.session, "") }

  function EntriesIn(a: Answer): seq<Negotiated> { EntriesOf(SessionIp(a), a.blocks, 0) }

  function Entries(sdp: string): seq<Negotiated> { EntriesIn(Sections(Lines(sdp))) }

  // ---- the parser ----

  /** The loop's variables: `done` is what the array holds so far, `current` says its last entry belongs to the
    * block being read, `room` that it can take one more. */
  datatype Loop = Loop(sessionIp: string, seenM: bool, mIndex: int, done: seq<Negotiated>, current: bool, room: bool)

  /** What the rest of the text, in sections, still makes of them. */
  ghost predicate Refines(all: seq<Negotiated>, v: Loop, a: Answer) {
    Sane(v)
    && var session := if v.seenM then v.sessionIp else LastAddress(a.session, v.sessionIp);
       var rest := EntriesOf(session, a.blocks, v.mIndex + 1);
       if v.current then all == WithLast(v.done, LastAddress(a.session, v.done[|v.done| - 1].ip)) + rest
       else if v.room then all == v.done + rest
       else v.done <= all
  }

  ghost predicate Sane(v: Loop) {
    v.mIndex >= -1 && (v.seenM <==> v.mIndex >= 0) && (v.current ==> v.seenM && v.done != []) && (!v.seenM ==> v.done == [])
  }

  ghost function WithLast(done: seq<Negotiated>, ip: string): seq<Negotiated>
    requires done != []
  {
    done[..|done| - 1] + [done[|done| - 1].(ip := ip)]
  }

  lemma LastAddressSplits(l: Line, lines: seq<Line>, before: string)
    ensures LastAddress([l] + lines, before) == LastAddress(lines, if l.Connection? then l.ip else before)
  {
    assert ([l] + lines)[1..] == lines;
  }

  /** A line that is neither c= nor m= changes nothing. */
  lemma PassesLine(all: seq<Negotiated>, v: Loop, a: Answer)
    requires Refines(all, v, a.(session := [Other] + a.session))
    ensures Refines(all, v, a)
  {
    LastAddressSplits(Other, a.session, v.sessionIp);
    if v.done != [] { LastAddressSplits(Other, a.session, v.done[|v.done| - 1].ip); }
  }

  /** A c= line before any m= line is the session's. */
  lemma SessionTakesAddress(all: seq<Negotiated>, v: Loop, ip: string, a: Answer)
    requires Refines(all, v, a.(session := [Connection(ip)] + a.session)) && !v.seenM
    ensures Refines(all, v.(sessionIp := ip), a)
  {
    LastAddressSplits(Connection(ip), a.session, v.sessionIp);
  }

  /** A c= line of a block that has an entry is that entry's. */
  lemma EntryTakesAddress(all: seq<Negotiated>, v: Loop, ip: string, a: Answer)
    requires Refines(all, v, a.(session := [Connection(ip)] + a.session)) && v.current
    ensures Refines(all, v.(done := WithLast(v.done, ip)), a)
  {
    LastAddressSplits(Connection(ip), a.session, v.done[|v.done| - 1].ip);
    var last := LastAddress(a.session, ip);
    assert WithLast(WithLast(v.done, ip), last) == WithLast(v.done, last);
  }

  /** A c= line of a block without an entry is nobody's. */
  lemma AddressIsDropped(all: seq<Negotiated>, v: Loop, ip: string, a: Answer)
    requires Refines(all, v, a.(session := [Connection(ip)] + a.session)) && v.seenM && !v.current
    ensures Refines(all, v, a)
  {
  }

  /** An m= line closes the block before it. */
  lemma ClosesBlock(all: seq<Negotiated>, v: Loop, b: Block, blocks: seq<Block>)
    requires Refines(all, v, Answer([], [b] + blocks))
    ensures v.room ==> all == v.done + EntriesOf(v.sessionIp, [b] + blocks, v.mIndex + 1)
    ensures v.done <= all
  {
    if v.current { assert WithLast(v.done, v.done[|v.done| - 1].ip) == v.done; }
  }

  lemma EntriesSplit(session: string, b: Block, more: seq<Block>, index: nat)
    ensures EntriesOf(session, [b] + more, index)
         == (if Accepted(b) then [EntryOf(session, b, index)] else []) + EntriesOf(session, more, index + 1)
  {
    assert ([b] + more)[1..] == more;
  }

  lemma OpensRefused(all: seq<Negotiated>, v: Loop, b: Block, blocks: seq<Block>)
    requires Refines(all, v, Answer([], [b] + blocks)) && (!Accepted(b) || !v.room)
    ensures Refines(all, Loop(v.sessionIp, true, v.mIndex + 1, v.done, false, v.room), Answer(b.lines, blocks))
  {
    ClosesBlock(all, v, b, blocks);
    EntriesSplit(v.sessionIp, b, blocks, v.mIndex + 1);
  }

  lemma OpensAccepted(all: seq<Negotiated>, v: Loop, b: Block, e: Negotiated, room: bool, blocks: seq<Block>)
    requires Refines(all, v, Answer([], [b] + blocks)) && Accepted(b) && v.room
    requires e == EntryOf(v.sessionIp, b, v.mIndex + 1).(ip := v.sessionIp)
    ensures Refines(all, Loop(v.sessionIp, true, v.mIndex + 1, v.done + [e], true, room), Answer(b.lines, blocks))
  {
    ClosesBlock(all, v, b, blocks);
    EntriesSplit(v.sessionIp, b, blocks, v.mIndex + 1);
    LastGets(v.done, e, EntryOf(v.sessionIp, b, v.mIndex + 1).ip);
  }

  lemma LastGets(done: seq<Negotiated>, e: Negotiated, ip: string)
    ensures WithLast(done + [e], ip) == done + [e.(ip := ip)]
  {
  }

  /** At the end of the text the array holds the entries, or as many as it can. */
  lemma AtTheEnd(all: seq<Negotiated>, v: Loop)
    requires Refines(all, v, Answer([], []))
    ensures v.done <= all && (v.current || v.room ==> v.done == all)
  {
    if v.current { LastGets(v.done[..|v.done| - 1], v.done[|v.done| - 1], v.done[|v.done| - 1].ip); }
  }

  /** The line at the cursor, and the cursor past its line end. */
  method ReadLine(p: string) returns (line: Line, next: string)
    requires p != ""
    ensures Lines(p) == [line] + Lines(next) && |next| < |p|
  {
    if IsConnection(p) { line := Connection(Address(p)); }
    else if IsMedia(p) {
      if IsAudio(p) { line := Audio(ScanFields(p[8..])); } else { line := OtherMedia; }
    } else { line := Other; }
    next := After(p);
  }

  /** The entry a block commits. */
  method Commit(out: array<Negotiated>, n: nat, e: Negotiated)
    requires n < out.Length
    modifies out
    ensures out[..n + 1] == old(out[..n]) + [e]
    ensures forall j :: n < j < out.Length ==> out[j] == old(out[j])
  {
    out[n] := e;
  }

  /** A block's own c= line over the address its entry has. */
  method Overwrite(out: array<Negotiated>, i: nat, ip: string)
    requires i < out.Length
    modifies out
    ensures out[..i + 1] == WithLast(old(out[..i + 1]), ip)
    ensures forall j :: i < j < out.Length ==> out[j] == old(out[j])
  {
    out[i] := out[i].(ip := ip);
  }

  /** A c= line is the session's before the first m= line, then the current entry's, if there is one. */
  function NextAddress(v: Loop, ip: string): Loop {
    if !v.seenM then v.(sessionIp := ip)
    else if v.current && v.done != [] then v.(done := v.done[..|v.done| - 1] + [v.done[|v.done| - 1].(ip := ip)])
    else v
  }

  predicate Commits(head: Line, n: nat, max: nat) {
    head.Audio? && head.scan.got >= 1 && 0 < head.scan.port <= 65535 && n < max
  }

  function NextEntry(v: Loop, head: Line): Negotiated
    requires head.Audio?
  {
    Negotiated(v.sessionIp, head.scan.port, PayloadType(head.scan), v.mIndex + 1)
  }

  /** An m= line opens a block, and commits its entry when it is accepted and fits. */
  function NextMedia(v: Loop, head: Line, max: nat): Loop {
    if Commits(head, |v.done|, max) then
      Loop(v.sessionIp, true, v.mIndex + 1, v.done + [NextEntry(v, head)], true, |v.done| + 1 < max)
    else Loop(v.sessionIp, true, v.mIndex + 1, v.done, false, v.room)
  }

  /** What one line does to the loop's variables, in an array of `max` entries. */
  function Next(v: Loop, line: Line, max: nat): Loop {
    match line
    case Connection(ip) => NextAddress(v, ip)
    case Other => v
    case OtherMedia => NextMedia(v, line, max)
    case Audio(_) => NextMedia(v, line, max)
  }

  function AllNext(v: Loop, lines: seq<Line>, max: nat): Loop
    decreases |lines|
  {
    if lines == [] then v else AllNext(Next(v, lines[0], max), lines[1..], max)
  }

  lemma NextRefines(all: seq<Negotiated>, v: Loop, line: Line, a: Answer, max: nat)
    requires !Opens(line) && Refines(all, v, a.(session := [line] + a.session))
    ensures Refines(all, Next(v, line, max), a)
  {
    match line
    case Connection(ip) =>
      if !v.seenM { SessionTakesAddress(all, v, ip, a); }
      else if v.current { EntryTakesAddress(all, v, ip, a); }
      else { AddressIsDropped(all, v, ip, a); }
    case Other => PassesLine(all, v, a);
  }

  lemma NextOpens(all: seq<Negotiated>, v: Loop, b: Block, blocks: seq<Block>, max: nat)
    requires Refines(all, v, Answer([], [b] + blocks)) && Opens(b.head) && (v.room <==> |v.done| < max)
    ensures Refines(all, NextMedia(v, b.head, max), Answer(b.lines, blocks))
  {
    assert Commits(b.head, |v.done|, max) <==> Accepted(b) && v.room;
    if Commits(b.head, |v.done|, max) {
      OpensAccepted(all, v, b, NextEntry(v, b.head), |v.done| + 1 < max, blocks);
    } else {
      OpensRefused(all, v, b, blocks);
    }
  }

  lemma {:induction false} AllNextRefines(all: seq<Negotiated>, v: Loop, lines: seq<Line>, max: nat)
    requires Refines(all, v, Sections(lines)) && |v.done| <= max && (v.room <==> |v.done| < max)
    ensures var done := AllNext(v, lines, max).done;
      && |done| == (if |all| <= max then |all| else max) && done == all[..|done|]
    decreases |lines|
  {
    if lines == [] { AtTheEnd(all, v); }
    else {
      var a := Sections(lines[1..]);
      if Opens(lines[0]) { NextOpens(all, v, Block(lines[0], a.session), a.blocks, max); }
      else { NextRefines(all, v, lines[0], a, max); }
      AllNextRefines(all, Next(v, lines[0], max), lines[1..], max);
    }
  }

  const BEGIN := Loop("", false, -1, [], false, true)

  /** The loop, from its first line to its last, leaves the first entries of the answer's blocks. */
  lemma LoopFindsEntries(lines: seq<Line>, max: nat)
    requires max > 0
    ensures var all, done := EntriesIn(Sections(lines)), AllNext(BEGIN, lines, max).done;
      && |done| == (if |all| <= max then |all| else max) && done == all[..|done|]
  {
    AllNextRefines(EntriesIn(Sections(lines)), BEGIN, lines, max);
  }

  /** siprec_sdp_parse_remote_streams: the entries of the answer's blocks, up to what the array holds. */
  method ParseRemoteStreams(sdp: string, out: array<Negotiated>) returns (n: nat)
    modifies out
    ensures n == if |Entries(sdp)| <= out.Length then |Entries(sdp)| else out.Length
    ensures out[..n] == Entries(sdp)[..n]
    ensures forall j :: n <= j < out.Length ==> out[j] == old(out[j])
  {
    if out.Length == 0 { return 0; }
    n := RunCursor(sdp, out);
    LoopFindsEntries(Lines(sdp), out.Length);
  }

  /** A c= line at the cursor. */
  method TakeAddress(ip: string, sessionIp: string, seenM: bool, out: array<Negotiated>, curIdx: int, ghost v: Loop)
    returns (sessionIp': string)
    requires -1 <= curIdx < out.Length && (curIdx >= 0 ==> seenM)
    requires |v.done| <= out.Length && v == Loop(sessionIp, seenM, v.mIndex, out[..|v.done|], curIdx >= 0, v.room)
    requires curIdx >= 0 ==> curIdx == |v.done| - 1
    modifies out
    ensures NextAddress(v, ip) == Loop(sessionIp', seenM, v.mIndex, out[..|v.done|], curIdx >= 0, v.room)
    ensures forall j :: |v.done| <= j < out.Length ==> out[j] == old(out[j])
  {
    sessionIp' := sessionIp;
    if !seenM { sessionIp' := ip; }
    else if curIdx >= 0 { Overwrite(out, curIdx, ip); }
  }

  /** An m= line at the cursor. */
  method OpenMedia(head: Line, sessionIp: string, mIndex: int, out: array<Negotiated>, n: nat, ghost v: Loop)
    returns (n': nat)
    requires n <= out.Length && Opens(head) && mIndex >= -1
    requires v == Loop(sessionIp, v.seenM, mIndex, out[..n], v.current, n < out.Length)
    modifies out
    ensures n <= n' <= out.Length
    ensures NextMedia(v, head, out.Length) == Loop(sessionIp, true, mIndex + 1, out[..n'], n' > n, n' < out.Length)
    ensures forall j :: n' <= j < out.Length ==> out[j] == old(out[j])
  {
    n' := n;
    if Commits(head, n, out.Length) {
      Commit(out, n, Negotiated(sessionIp, head.scan.port, PayloadType(head.scan), mIndex + 1));
      n' := n + 1;
    }
  }

  /** The variables of the loop are those of `v`. */
  ghost predicate Tracks(v: Loop, sessionIp: string, seenM: bool, mIndex: int, done: seq<Negotiated>, curIdx: int, max: nat) {
    && |done| <= max && -1 <= curIdx < |done| && (curIdx >= 0 ==> curIdx == |done| - 1 && seenM) && mIndex >= -1
    && v == Loop(sessionIp, seenM, mIndex, done, curIdx >= 0, |done| < max)
  }

  /** One pass of the loop. */
  method TakeLine(line: Line, sessionIp: string, seenM: bool, mIndex: int, out: array<Negotiated>, n: nat, curIdx: int,
                  ghost v: Loop)
    returns (sessionIp': string, seenM': bool, mIndex': int, n': nat, curIdx': int)
    requires n <= out.Length && Tracks(v, sessionIp, seenM, mIndex, out[..n], curIdx, out.Length)
    modifies out
    ensures n <= n' <= out.Length
    ensures Tracks(Next(v, line, out.Length), sessionIp', seenM', mIndex', out[..n'], curIdx', out.Length)
    ensures forall j :: n' <= j < out.Length ==> out[j] == old(out[j])
  {
    sessionIp', seenM', mIndex', n', curIdx' := sessionIp, seenM, mIndex, n, curIdx;
    match line
    case Connection(ip) => sessionIp' := TakeAddress(ip, sessionIp, seenM, out, curIdx, v);
    case Other =>
    case _ =>
      n' := OpenMedia(line, sessionIp, mIndex, out, n, v);
      seenM', mIndex', curIdx' := true, mIndex + 1, if n' > n then n else -1;
  }

  /** The cursor loop. */
  method RunCursor(sdp: string, out: array<Negotiated>) returns (n: nat)
    requires out.Length > 0
    modifies out
    ensures n <= out.Length && out[..n] == AllNext(BEGIN, Lines(sdp), out.Length).done
    ensures forall j :: n <= j < out.Length ==> out[j] == old(out[j])
  {
    var sessionIp, seenM, mIndex, curIdx := "", false, -1, -1;
    n := 0;
    var p := sdp;
    ghost var v := BEGIN;
    while p != ""
      invariant n <= out.Length && Tracks(v, sessionIp, seenM, mIndex, out[..n], curIdx, out.Length)
      invariant AllNext(BEGIN, Lines(sdp), out.Length) == AllNext(v, Lines(p), out.Length)
      invariant forall j :: n <= j < out.Length ==> out[j] == old(out[j])
      decreases |p|
    {
      ghost var here := Lines(p);
      var line;
      line, p := ReadLine(p);
      AllNextStep(v, here, line, Lines(p), out.Length);
      sessionIp, seenM, mIndex, n, curIdx := TakeLine(line, sessionIp, seenM, mIndex, out, n, curIdx, v);
      v := Next(v, line, out.Length);
    }
  }

  lemma AllNextStep(v: Loop, lines: seq<Line>, line: Line, rest: seq<Line>, max: nat)
    requires lines == [line] + rest
    ensures AllNext(v, lines, max) == AllNext(Next(v, line, max), rest, max)
  {
    assert lines[1..] == rest;
  }

  // ---- what the entries say about the answer ----

  /** The entry is that of the accepted audio block its m= line names. */
  ghost predicate Fits(session: string, blocks: seq<Block>, index: nat, e: Negotiated) {
    index <= e.mline < index + |blocks| && Accepted(blocks[e.mline - index])
    && e == EntryOf(session, blocks[e.mline - index], e.mline)
  }

  lemma {:induction false} EveryEntryFits(session: string, blocks: seq<Block>, index: nat, e: Negotiated)
    requires e in EntriesOf(session, blocks, index)
    ensures Fits(session, blocks, index, e)
  {
    if e in EntriesOf(session, blocks[1..], index + 1) { EveryEntryFits(session, blocks[1..], index + 1, e); }
  }

  lemma {:induction false} EveryBlockHasEntry(session: string, blocks: seq<Block>, index: nat, k: nat)
    requires k < |blocks| && Accepted(blocks[k])
    ensures EntryOf(session, blocks[k], index + k) in EntriesOf(session, blocks, index)
  {
    if k > 0 { EveryBlockHasEntry(session, blocks[1..], index + 1, k - 1); }
  }

  lemma {:induction false} MediaLinesIncrease(session: string, blocks: seq<Block>, index: nat, i: nat, j: nat)
    requires i < j < |EntriesOf(session, blocks, index)|
    ensures index <= EntriesOf(session, blocks, index)[i].mline < EntriesOf(session, blocks, index)[j].mline
  {
    var es, rest := EntriesOf(session, blocks, index), EntriesOf(session, blocks[1..], index + 1);
    if Accepted(blocks[0]) {
      if i > 0 { MediaLinesIncrease(session, blocks[1..], index + 1, i - 1, j - 1); }
      else { assert es[j] == rest[j - 1]; EveryEntryFits(session, blocks[1..], index + 1, es[j]); }
    } else {
      MediaLinesIncrease(session, blocks[1..], index + 1, i, j);
    }
  }

  /** Entry by entry: the m= line it names is an accepted audio block, and the rest is that block's; every accepted
    * block has its entry; and m= lines strictly increase. */
  lemma EntriesMatchBlocks(session: string, blocks: seq<Block>, index: nat)
    ensures forall e :: e in EntriesOf(session, blocks, index) ==> Fits(session, blocks, index, e)
    ensures forall k :: 0 <= k < |blocks| && Accepted(blocks[k]) ==>
      EntryOf(session, blocks[k], index + k) in EntriesOf(session, blocks, index)
    ensures var es := EntriesOf(session, blocks, index); forall i, j :: 0 <= i < j < |es| ==> es[i].mline < es[j].mline
  {
    var es := EntriesOf(session, blocks, index);
    forall e | e in es ensures Fits(session, blocks, index, e) { EveryEntryFits(session, blocks, index, e); }
    forall k | 0 <= k < |blocks| && Accepted(blocks[k]) ensures EntryOf(session, blocks[k], index + k) in es {
      EveryBlockHasEntry(session, blocks, index, k);
    }
    forall i, j | 0 <= i < j < |es| ensures es[i].mline < es[j].mline { MediaLinesIncrease(session, blocks, index, i, j); }
  }

  /** Whatever lines block `k` holds, c= lines included, they reach no entry but its own, and there only the address. */
  lemma {:induction false} BlocksAreSeparate(session: string, blocks: seq<Block>, k: nat, lines: seq<Line>, index: nat)
    requires k < |blocks|
    ensures var es := EntriesOf(session, blocks, index);
      var es' := EntriesOf(session, blocks[k := blocks[k].(lines := lines)], index);
      && |es'| == |es|
      && forall i :: 0 <= i < |es| ==> if es[i].mline == index + k then es'[i] == es[i].(ip := es'[i].ip) else es'[i] == es[i]
  {
    var changed := blocks[k := blocks[k].(lines := lines)];
    if k == 0 {
      assert changed[1..] == blocks[1..];
      EntriesMatchBlocks(session, blocks[1..], index + 1);
      var rest := EntriesOf(session, blocks[1..], index + 1);
      forall i | 0 <= i < |rest| ensures rest[i].mline != index { assert rest[i] in rest; }
    } else {
      assert changed[1..] == blocks[1..][k - 1 := blocks[k].(lines := lines)];
      BlocksAreSeparate(session, blocks[1..], k - 1, lines, index + 1);
    }
  }

  /** The "port/count" form of an m= line: the transport's place is taken by the count, so a transport that is no
    * number leaves the payload type unset. */
  lemma PortCountUnsetsPayloadType(t: string)
    requires ReadUint(t).Some? && ReadUint(t).value.1 != "" && !Blank(ReadUint(t).value.1[0])
    requires ReadUint(SkipWord(ReadUint(t).value.1)).None?
    ensures PayloadType(ScanFields(t)) == PT_UNSET && ScanFields(t).got == 1
  {
  }
}
