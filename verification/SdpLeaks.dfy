/** The failing side: which m= lines let text after them into their entry, wherever in an answer they stand. */
module SdpLeaks {
  import opened Common
  import opened SdpScan
  import opened SdpAnswer
  import opened SdpText

  // ---- a text before the line ----

  /** A text after which a line begins. */
  predicate AtBoundary(pre: string) { pre == "" || LineEnd(pre[|pre| - 1]) }

  lemma {:induction false} EolInside(pre: string, t: string)
    requires Eol(pre) < |pre|
    ensures Eol(pre + t) == Eol(pre)
  {
    assert (pre + t)[0] == pre[0];
    if !LineEnd(pre[0]) { assert (pre + t)[1..] == pre[1..] + t; EolInside(pre[1..], t); }
  }

  lemma FirstOfPre(pre: string, t: string)
    requires pre != "" && AtBoundary(pre) && t != "" && t[0] != '\n'
    ensures LineOf(pre + t) == LineOf(pre) && After(pre + t) == After(pre) + t && AtBoundary(After(pre))
  {
    assert Eol(pre) < |pre|;
    EolInside(pre, t);
    var n := Eol(pre);
    assert (pre + t)[n + 1..] == pre[n + 1..] + t;
    if n + 1 < |pre| { assert (pre + t)[n + 2..] == pre[n + 2..] + t; }
  }

  /** The lines of `pre` as the parser sees them when `t` follows. */
  function PreLines(pre: string, t: string): seq<Line>
    decreases |pre|
  {
    if pre == "" then [] else [Classify(pre + t)] + PreLines(After(pre), t)
  }

  lemma {:induction false} LinesJoin(pre: string, t: string)
    requires AtBoundary(pre) && t != "" && t[0] != '\n'
    ensures Lines(pre + t) == PreLines(pre, t) + Lines(t)
    decreases |pre|
  {
    if pre == "" { assert pre + t == t; }
    else {
      FirstOfPre(pre, t);
      LinesJoin(After(pre), t);
      LinesStep(pre + t, After(pre) + t);
      Reassociate(Classify(pre + t), PreLines(After(pre), t), Lines(t));
    }
  }

  lemma LinesStep(t: string, next: string)
    requires t != "" && After(t) == next
    ensures Lines(t) == [Classify(t)] + Lines(next)
  {
  }

  lemma Reassociate(l: Line, p: seq<Line>, q: seq<Line>)
    ensures [l] + (p + q) == ([l] + p) + q
  {
  }

  /** Alike but for the scans of audio lines. */
  ghost predicate SameKinds(p: seq<Line>, q: seq<Line>) {
    |p| == |q| && forall i :: 0 <= i < |p| ==> SameKind(p[i], q[i])
  }

  predicate SameKind(l: Line, m: Line) { (Opens(l) <==> Opens(m)) && (!Opens(l) ==> l == m) }

  lemma FirstKind(pre: string, t: string)
    requires pre != "" && AtBoundary(pre) && t != "" && t[0] != '\n'
    ensures SameKind(Classify(pre + t), Classify(LineOf(pre)))
  {
    var line, e := LineOf(pre), pre[Eol(pre)..] + t;
    assert pre + t == line + e && Eol(pre) < |pre|;
    LineOfLine(pre);
    LineThen(line, e);
  }

  lemma {:induction false} PreKinds(pre: string, t: string)
    requires AtBoundary(pre) && t != "" && t[0] != '\n'
    ensures SameKinds(PreLines(pre, t), Classified(RawLines(pre)))
    decreases |pre|
  {
    if pre != "" {
      FirstOfPre(pre, t);
      FirstKind(pre, t);
      PreKinds(After(pre), t);
      ClassifiedFirst(LineOf(pre), RawLines(After(pre)));
    }
  }

  lemma {:induction false} KindsSections(p: seq<Line>, q: seq<Line>)
    requires SameKinds(p, q)
    ensures Sections(p).session == Sections(q).session && |Sections(p).blocks| == |Sections(q).blocks|
  {
    if p != [] {
      assert SameKind(p[0], q[0]);
      assert forall i :: 0 <= i < |p[1..]| ==> p[1..][i] == p[i + 1] && q[1..][i] == q[i + 1];
      KindsSections(p[1..], q[1..]);
    }
  }

  /** The session's address, and how many m= lines came before. */
  function SessionOf(pre: string): string { LastAddress(Sections(Classified(RawLines(pre))).session, "") }

  function BlocksOf(pre: string): nat { MediaCount(RawLines(pre)) }

  /** An m= line begins after `pre`. */
  predicate Starts(pre: string, t: string) {
    AtBoundary(pre) && t != "" && t[0] != '\n' && Lines(t) != [] && Opens(Lines(t)[0])
  }

  lemma TextSections(pre: string, t: string)
    requires Starts(pre, t)
    ensures var a := Sections(Lines(pre + t));
      SessionIp(a) == SessionOf(pre) && |a.blocks| >= BlocksOf(pre) && a.blocks[BlocksOf(pre)..] == Sections(Lines(t)).blocks
  {
    var p := PreLines(pre, t);
    LinesJoin(pre, t);
    PreKinds(pre, t);
    KindsSections(p, Classified(RawLines(pre)));
    OneBlockPerMedia(RawLines(pre));
    SectionsJoin(p, [], Lines(t));
    ExtendedByNone(Sections(p));
    assert p + [] == p;
  }

  /** The entries of the `k`-th m= line: one or none. */
  ghost function EntriesAt(t: string, k: nat): set<Negotiated> { set e | e in Entries(t) && e.mline == k }

  lemma EntryOfNext(pre: string, t: string, b: Block)
    requires Starts(pre, t) && Sections(Lines(t)).blocks != [] && Sections(Lines(t)).blocks[0] == b
    ensures EntriesAt(pre + t, BlocksOf(pre)) == if Accepted(b) then {EntryOf(SessionOf(pre), b, BlocksOf(pre))} else {}
  {
    TextSections(pre, t);
    BlockHasEntry(SessionOf(pre), Sections(Lines(pre + t)).blocks, BlocksOf(pre), b);
  }

  lemma BlockHasEntry(session: string, blocks: seq<Block>, k: nat, b: Block)
    requires k < |blocks| && blocks[k] == b
    ensures (set e | e in EntriesOf(session, blocks, 0) && e.mline == k) == if Accepted(b) then {EntryOf(session, b, k)} else {}
  {
    var es := set e | e in EntriesOf(session, blocks, 0) && e.mline == k;
    forall e | e in es ensures Accepted(b) && e == EntryOf(session, b, k) { EntryOfBlock(session, blocks, e); }
    if Accepted(b) { EntryOfBlock(session, blocks, EntryOf(session, b, k)); }
  }

  // ---- lines that are not self-contained ----

  /** Lines that by themselves say nothing to the parser. */
  predicate Idle(e: string) { forall l :: l in RawLines(e) ==> !IsConnection(l) && !IsMedia(l) }

  function AudioText(x: string): string { "m=audio " + x }

  predicate AcceptedPort(x: string) { ReadUint(x).Some? && 0 < ReadUint(x).value.0 <= 65535 }

  /** The fields of an m=audio line let idle lines after it into an entry. */
  predicate Leaks(x: string) { x != "" && !Complete(x) && (SkipBlanks(x) == "" || AcceptedPort(x)) }

  predicate Others(lines: seq<Line>) { forall i :: 0 <= i < |lines| ==> lines[i] == Other }

  lemma {:induction false} IdleLines(e: string)
    requires Idle(e)
    ensures Others(Lines(e))
    decreases |e|
  {
    if e != "" {
      assert RawLines(e) == [LineOf(e)] + RawLines(After(e));
      IdleSplits(e, LineOf(e), RawLines(After(e)));
      FirstIsOther(e);
      IdleLines(After(e));
    }
  }

  lemma IdleSplits(e: string, line: string, rest: seq<string>)
    requires Idle(e) && RawLines(e) == [line] + rest
    ensures !IsConnection(line) && !IsMedia(line) && forall l :: l in rest ==> !IsConnection(l) && !IsMedia(l)
  {
    assert line in RawLines(e);
    assert forall l :: l in rest ==> l in RawLines(e);
  }

  lemma FirstIsOther(e: string)
    requires !IsConnection(LineOf(e)) && !IsMedia(LineOf(e))
    ensures Classify(e) == Other
  {
    LineOfLine(e);
    assert e == LineOf(e) + e[Eol(e)..];
    HeadOf(LineOf(e), e[Eol(e)..]);
  }

  lemma IdleAfter(line: string, e: string)
    requires OneLine(line) && line != "" && Follows(e) && Idle(e)
    ensures Others(Lines(After(line + e)))
  {
    EolThen(line, e);
    if e == "" { assert After(line + e) == ""; }
    else {
      assert After(line + e) == After(e);
      IdleLines(e);
      assert Lines(e)[1..] == Lines(After(e));
    }
  }

  lemma AudioTextHead(x: string, e: string)
    requires OneLine(x) && x != "" && Follows(e)
    ensures OneLine(AudioText(x)) && Classify(AudioText(x) + e) == Audio(ScanFields(x + e))
  {
    EolThen(AudioText(x), "");
    assert AudioText(x) + "" == AudioText(x);
    assert AudioText(x)[..8] == "m=audio " && AudioText(x)[8..] == x;
    LineThen(AudioText(x), e);
  }

  lemma {:induction false} OthersOnly(lines: seq<Line>, before: string)
    requires Others(lines)
    ensures Sections(lines) == Answer(lines, []) && LastAddress(lines, before) == before
  {
    if lines != [] { OthersOnly(lines[1..], before); }
  }

  /** The entries that a scan of the `k`-th m= line makes, with the session's address. */
  function EntryFrom(ip: string, k: nat, s: Scan): set<Negotiated> {
    if s.got >= 1 && 0 < s.port <= 65535 then {Negotiated(ip, s.port, PayloadType(s), k)} else {}
  }

  lemma AudioTextEntries(pre: string, x: string, e: string)
    requires AtBoundary(pre) && OneLine(x) && x != "" && Follows(e) && Idle(e)
    ensures EntriesAt(pre + (AudioText(x) + e), BlocksOf(pre)) == EntryFrom(SessionOf(pre), BlocksOf(pre), ScanFields(x + e))
  {
    var t := AudioText(x) + e;
    AudioTextHead(x, e);
    IdleAfter(AudioText(x), e);
    assert Lines(t) == [Audio(ScanFields(x + e))] + Lines(After(t));
    OneBlock(Lines(t), Audio(ScanFields(x + e)), Lines(After(t)), SessionOf(pre));
    EntryOfNext(pre, t, Block(Audio(ScanFields(x + e)), Lines(After(t))));
  }

  lemma OneBlock(lines: seq<Line>, head: Line, others: seq<Line>, before: string)
    requires lines == [head] + others && Opens(head) && Others(others)
    ensures Sections(lines).blocks == [Block(head, others)] && LastAddress(others, before) == before
  {
    assert lines[1..] == others;
    OthersOnly(others, before);
  }

  lemma PortStays(x: string, e: string)
    requires SkipBlanks(x) != "" && Follows(e)
    ensures ReadUint(x + e).Some? <==> ReadUint(x).Some?
    ensures ReadUint(x).Some? ==> ReadUint(x + e).value.0 == ReadUint(x).value.0
    ensures ReadUint(x).Some? ==> ScanFields(x + e).got >= 1 && ScanFields(x + e).port == ReadUint(x).value.0
  {
    UintThen(x, e);
  }

  lemma NoLeak(ip: string, k: nat, x: string, e: string)
    requires OneLine(x) && x != "" && Follows(e) && Idle(e) && !Leaks(x)
    ensures EntryFrom(ip, k, ScanFields(x + e)) == EntryFrom(ip, k, ScanFields(x))
  {
    if Complete(x) { CompleteIsLocal(x, e); }
    else { PortStays(x, e); PortStays(x, ""); assert x + "" == x; }
  }

  lemma IntruderIsIdle(x: string)
    requires !Complete(x)
    ensures Follows(Intruder(x)) && Idle(Intruder(x))
  {
    OneIdleLine("1 x 2");
    OneIdleLine("x 8");
    OneIdleLine("8");
    assert "\n" + "1 x 2" == "\n1 x 2" && "\n" + "x 8" == "\nx 8" && "\n" + "8" == "\n8";
  }

  lemma OneIdleLine(w: string)
    requires OneLine(w) && w != "" && w[0] != 'c' && w[0] != 'm'
    ensures Idle("\n" + w)
  {
    var e := "\n" + w;
    EolThen("", e);
    assert "" + e == e && After(e) == w;
    EolThen(w, "");
    assert RawLines(w) == [w] by { assert After(w) == "" && RawLines("") == []; }
    assert RawLines(e) == [""] + RawLines(w);
  }

  /** After any text, idle lines can change the entry of the m=audio line before them exactly when its fields are wanting,
    * its port not yet refused, and there is a field place at all. */
  lemma IdleLinesReachIff(pre: string, x: string)
    requires AtBoundary(pre) && OneLine(x)
    ensures Leaks(x) <==> exists e: string ::
      Follows(e) && Idle(e) && EntriesAt(pre + (AudioText(x) + e), BlocksOf(pre)) != EntriesAt(pre + AudioText(x), BlocksOf(pre))
  {
    assert AudioText(x) + "" == AudioText(x);
    var ip, k := SessionOf(pre), BlocksOf(pre);
    if Leaks(x) {
      IntruderIsIdle(x);
      AudioTextEntries(pre, x, Intruder(x));
      AudioTextEntries(pre, x, "");
      assert x + "" == x;
      IntruderShows(ip, k, x);
    } else {
      forall e: string | Follows(e) && Idle(e)
        ensures EntriesAt(pre + (AudioText(x) + e), k) == EntriesAt(pre + AudioText(x), k)
      {
        if x == "" { NoFields(pre, e); NoFields(pre, ""); }
        else {
          AudioTextEntries(pre, x, e);
          AudioTextEntries(pre, x, "");
          NoLeak(ip, k, x, e);
          assert x + "" == x;
        }
      }
    }
  }

  /** Without even a field place the line is no audio line. */
  lemma NoFields(pre: string, e: string)
    requires AtBoundary(pre) && Follows(e)
    ensures EntriesAt(pre + (AudioText("") + e), BlocksOf(pre)) == {}
  {
    var t := AudioText("") + e;
    BareHead(e);
    assert Lines(t) == [OtherMedia] + Lines(After(t));
    assert Lines(t)[1..] == Lines(After(t));
    EntryOfNext(pre, t, Sections(Lines(t)).blocks[0]);
  }

  lemma BareHead(e: string)
    requires Follows(e)
    ensures Classify(AudioText("") + e) == OtherMedia
  {
    var line := AudioText("");
    assert line == "m=audio ";
    EolThen(line, e);
    assert line[..2] == "m=";
    MediaIsNoConnection(line + e);
  }

  lemma IntruderShows(ip: string, k: nat, x: string)
    requires Leaks(x)
    ensures EntryFrom(ip, k, ScanFields(x + Intruder(x))) != EntryFrom(ip, k, ScanFields(x))
  {
    if SkipBlanks(x) == "" { BlankLeaks(x); }
    else {
      var port := ReadUint(x).value.0;
      if SkipBlanks(ReadUint(x).value.1) == "" { PortLeaks(x); } else { TransportLeaks(x); }
      assert Negotiated(ip, port, 8, k) in EntryFrom(ip, k, Scan(2, port, 8));
    }
  }

  // ---- the next block as the intruder ----

  /** An m=audio line with these fields, and right after it another block. */
  function NextText(h: string, b: string): string { "\n" + ("m=" + h + ("\n" + b)) }

  function NextBlock(x: string, h: string, b: string): string { AudioText(x) + NextText(h, b) }

  lemma NextLines(h: string, b: string)
    requires OneLine(h)
    ensures var p := "m=" + h + ("\n" + b); Lines(p) != [] && Opens(Lines(p)[0])
    ensures After(NextText(h, b)) == "m=" + h + ("\n" + b)
  {
    MediaLine(h, "\n" + b);
    AfterNewline("m=" + h + ("\n" + b));
  }

  lemma AfterNewline(p: string)
    ensures After("\n" + p) == p
  {
    var t := "\n" + p;
    assert t[0] == '\n' && t[1..] == p;
  }

  lemma MediaLine(h: string, e: string)
    requires OneLine(h) && Follows(e)
    ensures IsMedia("m=" + h + e) && Lines("m=" + h + e) != [] && Opens(Lines("m=" + h + e)[0])
  {
    var line := "m=" + h;
    EolThen(line, e);
    assert line[..2] == "m=";
    MediaIsNoConnection(line + e);
  }

  lemma FirstEntry(pre: string, x: string, h: string, b: string)
    requires AtBoundary(pre) && OneLine(x) && x != "" && OneLine(h)
    ensures EntriesAt(pre + NextBlock(x, h, b), BlocksOf(pre))
         == EntryFrom(SessionOf(pre), BlocksOf(pre), ScanFields(x + NextText(h, b)))
  {
    var e, p := NextText(h, b), "m=" + h + ("\n" + b);
    var t := AudioText(x) + e;
    AudioTextHead(x, e);
    EolThen(AudioText(x), e);
    NextLines(h, b);
    assert After(t) == p by { assert t[|AudioText(x)|..] == e; }
    assert Lines(t) == [Audio(ScanFields(x + e))] + Lines(p);
    assert Lines(t)[1..] == Lines(p);
    EntryOfNext(pre, t, Block(Audio(ScanFields(x + e)), []));
  }

  /** Its port is accepted and there is nothing else on the line. */
  predicate PortOnly(x: string) { AcceptedPort(x) && SkipBlanks(ReadUint(x).value.1) == "" }

  lemma NextBlanks(h: string, b: string)
    ensures SkipBlanks(NextText(h, b)) == "m=" + h + ("\n" + b)
    ensures ReadUint(NextText(h, b)) == None
  {
    assert NextText(h, b)[1..] == "m=" + h + ("\n" + b);
  }

  /** No text of a next block turns up in the scan unless the transport is missing. */
  lemma NextIsNoNumber(x: string, h: string, b: string)
    requires ReadUint(x).Some? ==> SkipBlanks(ReadUint(x).value.1) != ""
    ensures ScanFields(x + NextText(h, b)) == ScanFields(x)
  {
    var e := NextText(h, b);
    if Complete(x) { CompleteIsLocal(x, e); }
    else if SkipBlanks(x) == "" { BlanksThen(x, e); NextBlanks(h, b); NothingToRead(x); }
    else {
      UintThen(x, e);
      var word := SkipBlanks(ReadUint(x).value.1);
      BlanksThen(ReadUint(x).value.1, e);
      WordThen(word, e);
      BlanksThen(SkipWord(word), e);
      NextBlanks(h, b);
      NothingToRead(SkipWord(word));
    }
  }

  lemma SameWithoutPortOnly(ip: string, k: nat, x: string, h: string, b: string)
    requires OneLine(x) && x != "" && OneLine(h) && !PortOnly(x)
    ensures EntryFrom(ip, k, ScanFields(x + NextText(h, b))) == EntryFrom(ip, k, ScanFields(x))
  {
    if ReadUint(x).Some? && SkipBlanks(ReadUint(x).value.1) == "" {
      if SkipBlanks(x) == "" { NothingToRead(x); }
      PortStays(x, NextText(h, b));
      PortStays(x, "");
      assert x + "" == x;
    } else {
      NextIsNoNumber(x, h, b);
    }
  }

  /** The next m= line is the transport, and the line after it the payload type. */
  lemma NextIsRead(x: string, b: string)
    requires PortOnly(x) && (b == "8" || b == "a")
    ensures var port := ReadUint(x).value.0;
      ScanFields(x + NextText("x", b)) == if b == "8" then Scan(2, port, 8) else Scan(1, port, 0)
  {
    var e, e' := NextText("x", b), "\n" + b;
    if SkipBlanks(x) == "" { NothingToRead(x); }
    UintThen(x, e);
    BlanksThen(ReadUint(x).value.1, e);
    NextBlanks("x", b);
    MediaWord(e');
    TypeRead(b);
    ScannedWord(x + e, e');
  }

  lemma ScannedWord(t: string, e: string)
    requires ReadUint(t).Some? && SkipBlanks(ReadUint(t).value.1) != "" && SkipWord(SkipBlanks(ReadUint(t).value.1)) == e
    ensures var port := ReadUint(t).value.0;
      ScanFields(t) == match ReadUint(e) case None => Scan(1, port, 0) case Some((pt, _)) => Scan(2, port, pt)
  {
  }

  lemma MediaWord(e: string)
    requires Follows(e)
    ensures SkipWord("m=" + "x" + e) == e
  {
    assert "m=" + "x" + e == "m=x" + e;
    WordThen("m=x", e);
    WordSkipped(e);
  }

  lemma WordSkipped(e: string)
    ensures SkipWord("m=x") + e == e
  {
    assert "m=x"[1..] == "=x" && "=x"[1..] == "x" && "x"[1..] == "";
    assert SkipWord("m=x") == "";
  }

  lemma TypeRead(b: string)
    requires b == "8" || b == "a"
    ensures ReadUint("\n" + b) == if b == "8" then Some((8, "")) else None
  {
    assert ("\n" + b)[0] == '\n' && ("\n" + b)[1..] == b;
    assert SkipBlanks("\n" + b) == SkipBlanks(b) == b;
    if b == "8" { EightRead("\n" + b); } else { LetterIsNoNumber("\n" + b, b); }
  }

  lemma LetterIsNoNumber(t: string, u: string)
    requires SkipBlanks(t) == u && u != "" && !Digit(u[0]) && !Signed(u)
    ensures ReadUint(t) == None
  {
    assert Digits(u) == "";
  }

  /** After any text, the text of one block can change another block's entry exactly when the line before it has an accepted
    * port and nothing else. */
  lemma NextBlockReachesIff(pre: string, x: string)
    requires AtBoundary(pre) && OneLine(x)
    ensures PortOnly(x) <==> exists h: string, b: string, b': string ::
      OneLine(h) && EntriesAt(pre + NextBlock(x, h, b), BlocksOf(pre)) != EntriesAt(pre + NextBlock(x, h, b'), BlocksOf(pre))
  {
    if PortOnly(x) { NextBlockReaches(pre, x); }
    else {
      forall h: string, b: string, b': string | OneLine(h)
        ensures EntriesAt(pre + NextBlock(x, h, b), BlocksOf(pre)) == EntriesAt(pre + NextBlock(x, h, b'), BlocksOf(pre))
      {
        if x == "" { NoFields(pre, NextText(h, b)); NoFields(pre, NextText(h, b')); }
        else {
          FirstEntry(pre, x, h, b);
          FirstEntry(pre, x, h, b');
          SameWithoutPortOnly(SessionOf(pre), BlocksOf(pre), x, h, b);
          SameWithoutPortOnly(SessionOf(pre), BlocksOf(pre), x, h, b');
        }
      }
    }
  }

  lemma NextBlockReaches(pre: string, x: string)
    requires AtBoundary(pre) && OneLine(x) && PortOnly(x)
    ensures OneLine("x")
    ensures EntriesAt(pre + NextBlock(x, "x", "8"), BlocksOf(pre)) != EntriesAt(pre + NextBlock(x, "x", "a"), BlocksOf(pre))
  {
    var ip, k, port := SessionOf(pre), BlocksOf(pre), ReadUint(x).value.0;
    FirstEntry(pre, x, "x", "8");
    FirstEntry(pre, x, "x", "a");
    NextIsRead(x, "8");
    NextIsRead(x, "a");
    assert Negotiated(ip, port, 8, k) in EntryFrom(ip, k, Scan(2, port, 8));
    assert Negotiated(ip, port, 8, k) !in EntryFrom(ip, k, Scan(1, port, 0));
  }
}
