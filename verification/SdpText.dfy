/** The answer as text: when a line's meaning is its own, and what replacing the lines of one block can change. */
module SdpText {
  import opened SdpScan
  import opened SdpAnswer

  /** The lines of a text, without their ends. */
  function RawLines(t: string): seq<string>
    decreases |t|
  {
    if t == "" then [] else [LineOf(t)] + RawLines(After(t))
  }

  /** An m= line of an audio block has all the fields its scan looks for, or none. */
  predicate SelfContained(line: string) { IsAudio(line) ==> Complete(line[8..]) }

  predicate AllSelfContained(lines: seq<string>) { forall l :: l in lines ==> SelfContained(l) }

  lemma {:induction false} EolThen(line: string, e: string)
    requires OneLine(line) && Follows(e)
    ensures Eol(line + e) == |line| && LineOf(line + e) == line && LineOf(line) == line
  {
    if line == "" { assert line + e == e; }
    else {
      assert line[0] in line;
      assert (line + e)[1..] == line[1..] + e;
      EolThen(line[1..], e);
      EolThen(line[1..], "");
      assert line[1..] + "" == line[1..];
    }
  }

  /** What the tests at the head of a line look at. */
  lemma HeadOf(line: string, e: string)
    requires OneLine(line) && Follows(e)
    ensures IsConnection(line + e) == IsConnection(line) && IsMedia(line + e) == IsMedia(line)
    ensures IsAudio(line + e) == IsAudio(line)
    ensures IsConnection(line) ==> Address(line + e) == Address(line)
    ensures IsAudio(line) ==> |line| > 8 && (line + e)[8..] == line[8..] + e
  {
    EolThen(line, e);
  }

  lemma AudioIsMedia(t: string)
    requires IsAudio(t)
    ensures IsMedia(t) && !IsConnection(t)
  {
    assert LineOf(t)[..2] == LineOf(t)[..8][..2];
    MediaIsNoConnection(t);
  }

  lemma MediaIsNoConnection(t: string)
    requires IsMedia(t)
    ensures !IsConnection(t)
  {
    var line := LineOf(t);
    assert line[0] == line[..2][0];
    if |line| > 9 { assert line[..9][0] == line[0]; }
  }

  lemma LineThen(line: string, e: string)
    requires OneLine(line) && Follows(e)
    ensures IsAudio(line) ==> |line| > 8 && Classify(line) == Audio(ScanFields(line[8..]))
    ensures Classify(line + e) == if IsAudio(line) then Audio(ScanFields(line[8..] + e)) else Classify(line)
  {
    HeadOf(line, e);
    if IsAudio(line) { AudioIsMedia(line); }
  }

  /** What a line is depends on that line alone, whatever follows, exactly when it is self-contained. */
  lemma LineIsLocalIff(line: string)
    requires OneLine(line)
    ensures SelfContained(line) <==> forall e: string :: Follows(e) ==> Classify(line + e) == Classify(line)
  {
    if SelfContained(line) {
      forall e: string | Follows(e) ensures Classify(line + e) == Classify(line) { SelfContainedIsLocal(line, e); }
    } else {
      var e := Intruder(line[8..]);
      IncompleteLeaks(line[8..]);
      LineThen(line, e);
    }
  }

  lemma SelfContainedIsLocal(line: string, e: string)
    requires OneLine(line) && SelfContained(line) && Follows(e)
    ensures Classify(line + e) == Classify(line)
  {
    LineThen(line, e);
    if IsAudio(line) { CompleteIsLocal(line[8..], e); }
  }

  function Classified(lines: seq<string>): seq<Line> { seq(|lines|, i requires 0 <= i < |lines| => Classify(lines[i])) }

  lemma FirstLine(t: string)
    requires SelfContained(LineOf(t))
    ensures Classify(t) == Classify(LineOf(t))
  {
    var line, e := LineOf(t), t[Eol(t)..];
    assert t == line + e;
    LineOfLine(t);
    SelfContainedIsLocal(line, e);
  }

  lemma FirstAndRest(line: string, rest: seq<string>)
    requires AllSelfContained([line] + rest)
    ensures SelfContained(line) && AllSelfContained(rest)
  {
    assert line in [line] + rest;
  }

  lemma ClassifiedFirst(line: string, rest: seq<string>)
    ensures Classified([line] + rest) == [Classify(line)] + Classified(rest)
  {
  }

  /** Then the parser sees a text line by line. */
  lemma {:induction false} LinesAreLocal(t: string)
    requires AllSelfContained(RawLines(t))
    ensures Lines(t) == Classified(RawLines(t))
    decreases |t|
  {
    if t != "" {
      var line, rest := LineOf(t), RawLines(After(t));
      assert RawLines(t) == [line] + rest;
      assert SelfContained(line) && AllSelfContained(rest) by { FirstAndRest(line, rest); }
      FirstLine(t);
      LinesAreLocal(After(t));
      ClassifiedFirst(line, rest);
    }
  }

  // ---- replacing the lines of one block ----

  predicate NoneOpens(lines: seq<Line>) { forall l :: l in lines ==> !Opens(l) }

  /** More lines for the last block, or for the session when no block is open. */
  function Extended(a: Answer, body: seq<Line>): Answer {
    if a.blocks == [] then Answer(a.session + body, [])
    else
      var n := |a.blocks| - 1;
      a.(blocks := a.blocks[n := Block(a.blocks[n].head, a.blocks[n].lines + body)])
  }

  lemma {:induction false} BodyAlone(body: seq<Line>, post: seq<Line>)
    requires NoneOpens(body) && (post == [] || Opens(post[0]))
    ensures Sections(body + post) == Answer(body, Sections(post).blocks)
  {
    if body == [] { assert body + post == post; }
    else {
      assert body[0] in body && (body + post)[1..] == body[1..] + post;
      BodyAlone(body[1..], post);
    }
  }

  lemma {:induction false} SectionsJoin(pre: seq<Line>, body: seq<Line>, post: seq<Line>)
    requires NoneOpens(body) && (post == [] || Opens(post[0]))
    ensures var a := Extended(Sections(pre), body);
      Sections(pre + body + post) == Answer(a.session, a.blocks + Sections(post).blocks)
  {
    if pre == [] {
      assert pre + body + post == body + post;
      BodyAlone(body, post);
    } else {
      assert (pre + body + post)[1..] == pre[1..] + body + post;
      SectionsJoin(pre[1..], body, post);
      LineOver(pre[0], Sections(pre[1..]), body, Sections(post).blocks);
    }
  }

  /** The answer with one more line in front. */
  function Over(l: Line, a: Answer): Answer {
    if Opens(l) then Answer([], [Block(l, a.session)] + a.blocks) else Answer([l] + a.session, a.blocks)
  }

  lemma LineOver(l: Line, a: Answer, body: seq<Line>, more: seq<Block>)
    ensures var x, x' := Extended(a, body), Extended(Over(l, a), body);
      Over(l, Answer(x.session, x.blocks + more)) == Answer(x'.session, x'.blocks + more)
  {
    var b := Block(l, a.session);
    if a.blocks == [] {
      assert [l] + (a.session + body) == [l] + a.session + body;
      assert [b] + a.blocks == [b];
    } else {
      assert ([b] + a.blocks)[|a.blocks|] == a.blocks[|a.blocks| - 1];
    }
  }

  function MediaCount(lines: seq<string>): nat {
    if lines == [] then 0 else (if IsMedia(lines[0]) then 1 else 0) + MediaCount(lines[1..])
  }

  lemma {:induction false} OneBlockPerMedia(lines: seq<string>)
    ensures |Sections(Classified(lines)).blocks| == MediaCount(lines)
  {
    if lines != [] {
      if IsMedia(lines[0]) { MediaIsNoConnection(lines[0]); }
      assert Classified(lines)[1..] == Classified(lines[1..]);
      OneBlockPerMedia(lines[1..]);
    }
  }

  /** A text made of some lines that reach into a block, that block's further lines, and the blocks after it. */
  ghost predicate Frames(t: string, pre: seq<string>, body: seq<string>, post: seq<string>) {
    && RawLines(t) == pre + body + post
    && AllSelfContained(RawLines(t))
    && MediaCount(pre) > 0
    && (forall l :: l in body ==> !IsMedia(l))
    && (post == [] || IsMedia(post[0]))
  }

  lemma BodyOpensNone(body: seq<string>)
    requires forall l :: l in body ==> !IsMedia(l)
    ensures NoneOpens(Classified(body))
  {
    forall i | 0 <= i < |body| ensures !Opens(Classify(body[i])) { assert body[i] in body; }
  }

  lemma PostOpens(post: seq<string>)
    requires post == [] || IsMedia(post[0])
    ensures Classified(post) == [] || Opens(Classified(post)[0])
  {
    if post != [] { MediaIsNoConnection(post[0]); }
  }

  lemma ClassifiedJoin(pre: seq<string>, body: seq<string>, post: seq<string>)
    ensures Classified(pre + body + post) == Classified(pre) + Classified(body) + Classified(post)
  {
  }

  lemma FramedSections(t: string, pre: seq<string>, body: seq<string>, post: seq<string>)
    requires Frames(t, pre, body, post)
    ensures var a := Extended(Sections(Classified(pre)), Classified(body));
      Sections(Lines(t)) == Answer(a.session, a.blocks + Sections(Classified(post)).blocks)
  {
    LinesAreLocal(t);
    ClassifiedJoin(pre, body, post);
    BodyOpensNone(body);
    PostOpens(post);
    SectionsJoin(Classified(pre), Classified(body), Classified(post));
  }

  /** In texts of self-contained lines, replacing the lines of one block touches no entry but that block's, and there
    * only the address. */
  lemma BlockTextsAreSeparate(
      t: string, t': string, pre: seq<string>, body: seq<string>, body': seq<string>, post: seq<string>)
    requires Frames(t, pre, body, post) && Frames(t', pre, body', post)
    ensures var es, es', k := Entries(t), Entries(t'), MediaCount(pre) - 1;
      && |es'| == |es|
      && forall i :: 0 <= i < |es| ==> if es[i].mline == k then es'[i] == es[i].(ip := es'[i].ip) else es'[i] == es[i]
  {
    FramedSections(t, pre, body, post);
    FramedSections(t', pre, body', post);
    OneBlockPerMedia(pre);
    ghost var a, more := Sections(Classified(pre)), Sections(Classified(post)).blocks;
    ExtendedBlocks(a, Classified(body), Classified(body'), more);
    ghost var blocks := Extended(a, Classified(body)).blocks + more;
    BlocksAreSeparate(SessionIp(a), blocks, |a.blocks| - 1, Extended(a, Classified(body')).blocks[|a.blocks| - 1].lines, 0);
  }

  lemma ExtendedBlocks(a: Answer, body: seq<Line>, body': seq<Line>, more: seq<Block>)
    requires a.blocks != []
    ensures var k, x, x' := |a.blocks| - 1, Extended(a, body), Extended(a, body');
      && |x.blocks| == |x'.blocks| == k + 1 && x.session == x'.session == a.session
      && x'.blocks + more == (x.blocks + more)[k := (x.blocks + more)[k].(lines := x'.blocks[k].lines)]
  {
  }

  /** The blocks of a framed text whose frame begins its block. */
  lemma FramedBlocks(t: string, pre: seq<string>, m: string, body: seq<string>, post: seq<string>)
    requires Frames(t, pre + [m], body, post) && IsMedia(m)
    ensures var a, b := Sections(Classified(pre)), Block(Classify(m), Classified(body));
      Sections(Lines(t)) == Answer(a.session, a.blocks + [b] + Sections(Classified(post)).blocks)
  {
    FramedSections(t, pre + [m], body, post);
    MediaIsNoConnection(m);
    assert Classified(pre + [m]) == Classified(pre) + [Classify(m)];
    JoinOne(Classified(pre), Classify(m));
    BodyIsLines(Sections(Classified(pre)), Classify(m), Classified(body));
  }

  lemma JoinOne(pre: seq<Line>, m: Line)
    requires Opens(m)
    ensures Sections(pre + [m]) == Answer(Sections(pre).session, Sections(pre).blocks + [Block(m, [])])
  {
    SectionsJoin(pre, [], [m]);
    assert pre + [] + [m] == pre + [m] && [m][1..] == [];
    assert Sections([m]).blocks == [Block(m, [])];
    ExtendedByNone(Sections(pre));
  }

  lemma ExtendedByNone(a: Answer)
    ensures Extended(a, []) == a
  {
    assert a.session + [] == a.session;
    if a.blocks != [] { assert a.blocks[|a.blocks| - 1].lines + [] == a.blocks[|a.blocks| - 1].lines; }
  }

  lemma BodyIsLines(a: Answer, m: Line, body: seq<Line>)
    ensures Extended(Answer(a.session, a.blocks + [Block(m, [])]), body) == Answer(a.session, a.blocks + [Block(m, body)])
  {
    assert [] + body == body;
  }

  /** Replacing a whole block, its m= line included, leaves every other block's entry as it is. */
  lemma OtherBlocksKeepEntries(
      t: string, t': string, pre: seq<string>, m: string, m': string, body: seq<string>, body': seq<string>, post: seq<string>)
    requires Frames(t, pre + [m], body, post) && Frames(t', pre + [m'], body', post) && IsMedia(m) && IsMedia(m')
    ensures forall e: Negotiated :: e.mline != MediaCount(pre) ==> (e in Entries(t) <==> e in Entries(t'))
  {
    FramedBlocks(t, pre, m, body, post);
    FramedBlocks(t', pre, m', body', post);
    OneBlockPerMedia(pre);
    OtherBlocksSame(Sections(Classified(pre)), Block(Classify(m), Classified(body)), Block(Classify(m'), Classified(body')),
                    Sections(Classified(post)).blocks);
  }

  lemma OtherBlocksSame(a: Answer, b: Block, b': Block, q: seq<Block>)
    ensures var x, x' := Answer(a.session, a.blocks + [b] + q), Answer(a.session, a.blocks + [b'] + q);
      forall e: Negotiated :: e.mline != |a.blocks| ==> (e in EntriesIn(x) <==> e in EntriesIn(x'))
  {
    forall e: Negotiated | e.mline != |a.blocks|
      ensures e in EntriesOf(SessionIp(a), a.blocks + [b] + q, 0) <==> e in EntriesOf(SessionIp(a), a.blocks + [b'] + q, 0)
    {
      EntryOfBlock(SessionIp(a), a.blocks + [b] + q, e);
      EntryOfBlock(SessionIp(a), a.blocks + [b'] + q, e);
    }
  }

  lemma EntryOfBlock(session: string, blocks: seq<Block>, e: Negotiated)
    ensures e in EntriesOf(session, blocks, 0) <==> Fits(session, blocks, 0, e)
  {
    EntriesMatchBlocks(session, blocks, 0);
  }

  lemma LineOfLine(t: string)
    ensures OneLine(LineOf(t)) && LineOf(LineOf(t)) == LineOf(t)
  {
    EolThen(LineOf(t), "");
  }
}
