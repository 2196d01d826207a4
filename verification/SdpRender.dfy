/** Answers written out and read back: what the parser takes from a text, said of the text itself. */
module SdpRender {
  import opened Common
  import opened SdpScan
  import opened SdpAnswer
  import opened SdpText
  import opened SdpLeaks

  // ---- numbers ----

  const FIGURES := "0123456789"

  function Decimal(n: nat): (s: string)
    ensures s != ""
  {
    (if n < 10 then "" else Decimal(n / 10)) + [FIGURES[n % 10]]
  }

  lemma FigureIsDigit(k: nat)
    requires k < 10
    ensures Digit(FIGURES[k]) && FIGURES[k] as int - '0' as int == k && !Blank(FIGURES[k]) && !LineEnd(FIGURES[k])
  {
  }

  lemma {:induction false} DecimalValue(n: nat)
    ensures (forall c :: c in Decimal(n) ==> Digit(c)) && Value(Decimal(n)) == n
  {
    var init, last := if n < 10 then "" else Decimal(n / 10), FIGURES[n % 10];
    FigureIsDigit(n % 10);
    if n >= 10 { DecimalValue(n / 10); }
    assert (init + [last])[..|init|] == init;
  }

  lemma {:induction false} DigitsUpTo(d: string, rest: string)
    requires (forall c :: c in d ==> Digit(c)) && (rest == "" || !Digit(rest[0]))
    ensures Digits(d + rest) == d
  {
    if d == "" { assert d + rest == rest; }
    else {
      assert d[0] in d && forall c :: c in d[1..] ==> c in d;
      assert (d + rest)[1..] == d[1..] + rest;
      DigitsUpTo(d[1..], rest);
    }
  }

  lemma {:induction false} BlanksSkipped(blanks: string, t: string)
    requires (forall c :: c in blanks ==> Blank(c)) && (t == "" || !Blank(t[0]))
    ensures SkipBlanks(blanks + t) == t
  {
    if blanks == "" { assert blanks + t == t; }
    else {
      assert blanks[0] in blanks && forall c :: c in blanks[1..] ==> c in blanks;
      assert (blanks + t)[1..] == blanks[1..] + t;
      BlanksSkipped(blanks[1..], t);
    }
  }

  /** What %u stores: saturating at 64 bits, negated by a minus sign, the low 32 bits kept. */
  function Kept(sign: string, n: nat): Word32 {
    if n >= 0x1_0000_0000_0000_0000 then 0xFFFF_FFFF
    else (if sign == "-" then 0x1_0000_0000_0000_0000 - n else n) % 0x1_0000_0000
  }

  lemma KeptPlain(n: Word32)
    ensures Kept("", n) == n
  {
  }

  lemma KeptIsStored(sign: string, n: nat)
    ensures Stored(sign == "-", n) == Kept(sign, n)
  {
  }

  lemma DecimalRead(negative: bool, n: nat, rest: string)
    requires rest == "" || !Digit(rest[0])
    ensures ReadDigits(negative, Decimal(n) + rest) == Some((Stored(negative, n), rest))
  {
    var d := Decimal(n);
    DecimalValue(n);
    DigitsUpTo(d, rest);
    assert (d + rest)[|d|..] == rest;
  }

  lemma SignRead(sign: string, d: string)
    requires sign in {"", "+", "-"} && d != "" && Digit(d[0])
    ensures var u := sign + d; u != "" && !Blank(u[0]) && AfterSign(u) == d && (u[0] == '-' <==> sign == "-")
  {
    var u := sign + d;
    if sign == "" { assert u == d; } else { assert u[1..] == d && u[0] == sign[0]; }
  }

  /** The characters of isspace in the C locale. */
  const SPACES := " \t\n\U{0B}\U{0C}\r"

  lemma SpacesAreBlank(s: string)
    ensures (forall c :: c in s ==> c in SPACES) <==> forall c :: c in s ==> Blank(c)
  {
    forall c ensures c in SPACES <==> Blank(c) { SpaceIsBlank(c); }
  }

  lemma SpaceIsBlank(c: char)
    ensures c in SPACES <==> Blank(c)
  {
    assert SPACES[0] == ' ' && SPACES[1] == '\t' && SPACES[2] == '\n' && SPACES[5] == '\r';
    assert SPACES[3] as int == 11 && SPACES[4] as int == 12;
  }

  lemma FigureIffDigit(c: char)
    ensures c in FIGURES <==> Digit(c)
  {
    if Digit(c) { assert FIGURES[c as int - '0' as int] == c; }
  }

  /** %u reads a signed decimal, whatever space comes before and whatever but a digit after. */
  lemma NumberReads(blanks: string, sign: string, n: nat, rest: string)
    requires (forall c :: c in blanks ==> c in SPACES) && sign in {"", "+", "-"} && (rest == "" || rest[0] !in FIGURES)
    ensures ReadUint(blanks + (sign + (Decimal(n) + rest))) == Some((Kept(sign, n), rest))
  {
    SpacesAreBlank(blanks);
    if rest != "" { FigureIffDigit(rest[0]); }
    var t := Decimal(n) + rest;
    DecimalValue(n);
    assert t[0] == Decimal(n)[0] && Digit(t[0]) by { assert Decimal(n)[0] in Decimal(n); }
    SignRead(sign, t);
    BlanksSkipped(blanks, sign + t);
    DecimalRead(sign == "-", n, rest);
    KeptIsStored(sign, n);
  }

  /** %u reads nothing where space and an optional sign are not followed by a digit. */
  lemma NothingReads(blanks: string, sign: string, rest: string)
    requires (forall c :: c in blanks ==> c in SPACES) && sign in {"", "+", "-"}
    requires rest == "" || (rest[0] !in FIGURES && (sign == "" ==> rest[0] !in SPACES && rest[0] !in "+-"))
    ensures ReadUint(blanks + (sign + rest)) == None
  {
    SpacesAreBlank(blanks);
    var u := sign + rest;
    if rest != "" {
      FigureIffDigit(rest[0]);
      SpaceIsBlank(rest[0]);
      assert "+-"[0] == '+' && "+-"[1] == '-';
    }
    if sign == "" { assert u == rest; } else { assert u[0] == sign[0] && u[1..] == rest; }
    BlanksSkipped(blanks, u);
  }

  /** A plain decimal of 32 bits. */
  lemma PlainReads(blanks: string, n: Word32, rest: string)
    requires (forall c :: c in blanks ==> Blank(c)) && (rest == "" || !Digit(rest[0]))
    ensures ReadUint(blanks + (Decimal(n) + rest)) == Some((n, rest))
  {
    SpacesAreBlank(blanks);
    if rest != "" { FigureIffDigit(rest[0]); }
    NumberReads(blanks, "", n, rest);
    Unsigned(Decimal(n) + rest);
    KeptPlain(n);
  }

  lemma Unsigned(t: string)
    ensures "" + t == t
  {
  }

  lemma {:induction false} DecimalOneLine(n: nat)
    ensures OneLine(Decimal(n))
  {
    FigureIsDigit(n % 10);
    if n >= 10 { DecimalOneLine(n / 10); }
  }

  // ---- lines ----

  function Prefix(v6: bool): string { if v6 then "c=IN IP6 " else "c=IN IP4 " }

  /** What fits an entry. */
  function First63(a: string): string { if |a| > 63 then a[..63] else a }

  /** A c= line gives its address: all that follows the prefix on the line, up to 63 characters, whatever comes next. One
    * without an address is a line like any other. */
  lemma ConnectionReads(v6: bool, a: string, e: string)
    requires OneLine(a) && Follows(e)
    ensures Lines(Prefix(v6) + a + e) != []
    ensures Lines(Prefix(v6) + a + e)[0] == if a == "" then Other else Connection(First63(a))
  {
    if a == "" { NoAddress(v6, e); } else { ConnectionHead(v6, a, e); }
  }

  lemma NoAddress(v6: bool, e: string)
    requires Follows(e)
    ensures OneLine(Prefix(v6)) && Classify(Prefix(v6) + "" + e) == Other
  {
    EolThen(Prefix(v6), e);
    assert Prefix(v6) + "" == Prefix(v6) && Prefix(v6)[..2] == "c=";
  }

  lemma ConnectionHead(v6: bool, a: string, e: string)
    requires OneLine(a) && a != "" && Follows(e)
    ensures OneLine(Prefix(v6) + a) && Classify(Prefix(v6) + a + e) == Connection(First63(a))
  {
    var line := Prefix(v6) + a;
    EolThen(line, e);
    assert line[..9] == Prefix(v6) && line[9..] == a;
  }

  /** A text that opens no block and is no c= line. */
  predicate Plain(s: string) { OneLine(s) && (|s| >= 2 ==> s[..2] != "c=" && s[..2] != "m=") }

  lemma PlainHead(s: string, e: string)
    requires Plain(s) && Follows(e)
    ensures Classify(s + e) == Other
  {
    EolThen(s, e);
    if |s| > 9 {
      assert s[..9][..2] == s[..2];
      assert "c=IN IP4 "[..2] == "c=" && "c=IN IP6 "[..2] == "c=";
    }
  }

  /** An m= line of another kind. */
  predicate OtherKind(s: string) { OneLine(s) && (|s| >= 6 ==> s[..6] != "audio ") }

  lemma OtherHead(s: string, e: string)
    requires OtherKind(s) && Follows(e)
    ensures OneLine("m=" + s) && Classify("m=" + s + e) == OtherMedia
  {
    var line := "m=" + s;
    EolThen(line, e);
    assert line[..2] == "m=";
    MediaIsNoConnection(line + e);
    if |line| > 8 {
      assert line[..8][2..] == s[..6];
      assert "m=audio "[2..] == "audio ";
    }
  }

  /** The fields of an m=audio line: port, transport, payload types. */
  function Fields(port: nat, transport: string, pt: nat, more: string): string {
    Decimal(port) + (" " + (transport + (" " + (Decimal(pt) + more))))
  }

  predicate Token(s: string) { s != "" && forall c :: c in s ==> !Blank(c) }

  predicate Tail(more: string) { OneLine(more) && (more != "" ==> Blank(more[0])) }

  lemma {:induction false} TokenSkipped(s: string, rest: string)
    requires (forall c :: c in s ==> !Blank(c)) && (rest == "" || Blank(rest[0]))
    ensures SkipWord(s + rest) == rest
  {
    if s == "" { assert s + rest == rest; }
    else {
      assert s[0] in s && forall c :: c in s[1..] ==> c in s;
      assert (s + rest)[1..] == s[1..] + rest;
      TokenSkipped(s[1..], rest);
    }
  }

  lemma FieldsRead(port: Word32, transport: string, pt: Word32, more: string, e: string)
    requires Token(transport) && Tail(more) && Follows(e)
    ensures ScanFields(Fields(port, transport, pt, more) + e) == Scan(2, port, pt)
  {
    var end := more + e;
    var last := " " + (Decimal(pt) + end);
    var mid := transport + last;
    assert Fields(port, transport, pt, more) + e == "" + (Decimal(port) + (" " + mid)) by { FieldsJoin(port, transport, pt, more, e); }
    PlainReads("", port, " " + mid);
    assert transport[0] in transport;
    BlanksSkipped(" ", mid);
    TokenSkipped(transport, last);
    assert end == "" || !Digit(end[0]) by { if more == "" { assert end == e; } else { assert end[0] == more[0]; } }
    PlainReads(" ", pt, end);
  }

  /** The port/count form: the count stands where the scan looks for the transport, and the transport is no number. */
  function CountedFields(port: nat, count: nat, more: string): string { Decimal(port) + ("/" + Decimal(count) + (" " + more)) }

  predicate NoNumber(more: string) {
    OneLine(more) && more != "" && more[0] !in FIGURES && more[0] !in SPACES && more[0] !in "+-"
  }

  lemma CountedRead(port: Word32, count: nat, more: string, e: string)
    requires NoNumber(more)
    ensures ScanFields(CountedFields(port, count, more) + e) == Scan(1, port, 0)
  {
    var word, last := "/" + Decimal(count), " " + (more + e);
    CountedJoin(port, count, more, e);
    PlainReads("", port, word + last);
    DecimalValue(count);
    forall c | c in word ensures !Blank(c) { if c != '/' { assert c in Decimal(count) && Digit(c); } }
    TokenSkipped(word, last);
    Unsigned(more + e);
    assert (more + e)[0] == more[0];
    NothingReads(" ", "", more + e);
  }

  lemma CountedJoin(port: nat, count: nat, more: string, e: string)
    ensures CountedFields(port, count, more) + e == "" + (Decimal(port) + (("/" + Decimal(count)) + (" " + (more + e))))
  {
    var word := "/" + Decimal(count);
    assert (" " + more) + e == " " + (more + e);
    assert (word + (" " + more)) + e == word + (" " + (more + e));
  }

  lemma CountedHead(port: Word32, count: nat, more: string, e: string)
    requires NoNumber(more) && Follows(e)
    ensures OneLine(AudioText(CountedFields(port, count, more)))
    ensures Classify(AudioText(CountedFields(port, count, more)) + e) == Audio(Scan(1, port, 0))
  {
    DecimalOneLine(port);
    DecimalOneLine(count);
    AudioTextHead(CountedFields(port, count, more), e);
    CountedRead(port, count, more, e);
  }

  lemma FieldsJoin(port: nat, transport: string, pt: nat, more: string, e: string)
    ensures Fields(port, transport, pt, more) + e
         == "" + (Decimal(port) + (" " + (transport + (" " + (Decimal(pt) + (more + e))))))
  {
    var a, b := Decimal(port), Decimal(pt);
    assert (b + more) + e == b + (more + e);
    assert (" " + (b + more)) + e == " " + (b + (more + e));
    assert (transport + (" " + (b + more))) + e == transport + (" " + (b + (more + e)));
    assert (" " + (transport + (" " + (b + more)))) + e == " " + (transport + (" " + (b + (more + e))));
  }

  lemma FieldsOneLine(port: nat, transport: string, pt: nat, more: string)
    requires Token(transport) && Tail(more)
    ensures OneLine(Fields(port, transport, pt, more))
  {
    DecimalOneLine(port);
    DecimalOneLine(pt);
  }

  lemma AudioHead(port: Word32, transport: string, pt: Word32, more: string, e: string)
    requires Token(transport) && Tail(more) && Follows(e)
    ensures OneLine(AudioText(Fields(port, transport, pt, more)))
    ensures Classify(AudioText(Fields(port, transport, pt, more)) + e) == Audio(Scan(2, port, pt))
  {
    FieldsOneLine(port, transport, pt, more);
    AudioTextHead(Fields(port, transport, pt, more), e);
    FieldsRead(port, transport, pt, more, e);
  }

  // ---- whole answers ----

  /** A line of the session or of a block. */
  datatype Attribute = Conn(v6: bool, address: string) | Note(text: string)

  /** A block with its m= line. */
  datatype Stream =
    | AudioStream(port: Word32, transport: string, pt: Word32, more: string, attributes: seq<Attribute>)
    | CountedStream(port: Word32, count: nat, more: string, attributes: seq<Attribute>)
    | OtherStream(kind: string, attributes: seq<Attribute>)

  datatype Reply = Reply(session: seq<Attribute>, streams: seq<Stream>)

  predicate GoodAttribute(a: Attribute) {
    match a
    case Conn(_, address) => OneLine(address) && address != ""
    case Note(text) => Plain(text)
  }

  predicate GoodAttributes(attributes: seq<Attribute>) { forall i :: 0 <= i < |attributes| ==> GoodAttribute(attributes[i]) }

  predicate GoodStream(s: Stream) {
    && GoodAttributes(s.attributes)
    && match s
       case AudioStream(_, transport, _, more, _) => Token(transport) && Tail(more)
       case CountedStream(_, _, more, _) => NoNumber(more)
       case OtherStream(kind, _) => OtherKind(kind)
  }

  predicate GoodStreams(streams: seq<Stream>) { forall i :: 0 <= i < |streams| ==> GoodStream(streams[i]) }

  predicate Good(r: Reply) { GoodAttributes(r.session) && GoodStreams(r.streams) }

  function AttributeText(a: Attribute): string {
    match a case Conn(v6, address) => Prefix(v6) + address case Note(text) => text
  }

  function HeadText(s: Stream): string {
    match s
    case AudioStream(port, transport, pt, more, _) => AudioText(Fields(port, transport, pt, more))
    case CountedStream(port, count, more, _) => AudioText(CountedFields(port, count, more))
    case OtherStream(kind, _) => "m=" + kind
  }

  function AttributesText(attributes: seq<Attribute>, eol: string): string {
    if attributes == [] then "" else AttributeText(attributes[0]) + (eol + AttributesText(attributes[1..], eol))
  }

  function StreamsText(streams: seq<Stream>, eol: string): string {
    if streams == [] then ""
    else HeadText(streams[0]) + (eol + (AttributesText(streams[0].attributes, eol) + StreamsText(streams[1..], eol)))
  }

  /** The reply as text, every line ended by `eol`. */
  function Render(r: Reply, eol: string): string { AttributesText(r.session, eol) + StreamsText(r.streams, eol) }

  predicate LineEnding(eol: string) { eol == "\r\n" || eol == "\n" || eol == "\r" }

  // ---- what it says ----

  /** The last c= line's address; without one, `before`. */
  function LastConn(attributes: seq<Attribute>, before: string): string {
    if attributes == [] then before
    else
      var last := attributes[|attributes| - 1];
      if last.Conn? then First63(last.address) else LastConn(attributes[..|attributes| - 1], before)
  }

  /** One entry per audio stream with a port of 1 to 65535, numbered by m= line; a port/count stream names no payload type. */
  function Meant(session: string, streams: seq<Stream>, index: nat): seq<Negotiated> {
    if streams == [] then []
    else
      var s := streams[0];
      (if !s.OtherStream? && 1 <= s.port <= 65535
       then [Negotiated(LastConn(s.attributes, session), s.port, if s.AudioStream? && s.pt <= 127 then s.pt else 255, index)]
       else [])
      + Meant(session, streams[1..], index + 1)
  }

  // ---- reading it ----

  function AttributeLine(a: Attribute): Line {
    match a case Conn(_, address) => Connection(First63(address)) case Note(_) => Other
  }

  function AttributeLines(attributes: seq<Attribute>): seq<Line> {
    if attributes == [] then [] else [AttributeLine(attributes[0])] + AttributeLines(attributes[1..])
  }

  function HeadLine(s: Stream): Line {
    match s
    case AudioStream(port, _, pt, _, _) => Audio(Scan(2, port, pt))
    case CountedStream(port, _, _, _) => Audio(Scan(1, port, 0))
    case OtherStream(_, _) => OtherMedia
  }

  function StreamLines(streams: seq<Stream>): seq<Line> {
    if streams == [] then [] else [HeadLine(streams[0])] + (AttributeLines(streams[0].attributes) + StreamLines(streams[1..]))
  }

  /** What may come after a line ended by `eol`. */
  predicate MayFollow(eol: string, rest: string) { eol == "\r" ==> rest == "" || rest[0] != '\n' }

  lemma LineReads(line: string, eol: string, rest: string, l: Line)
    requires OneLine(line) && LineEnding(eol) && MayFollow(eol, rest) && Classify(line + (eol + rest)) == l
    ensures Lines(line + (eol + rest)) == [l] + Lines(rest)
  {
    var t, n := line + (eol + rest), |line|;
    assert Follows(eol + rest);
    EolThen(line, eol + rest);
    assert t[n] == eol[0] && t[n..] == eol + rest;
    if eol == "\r\n" { assert t[n + 1] == '\n' && t[n + 2..] == rest; }
    else {
      assert t[n + 1..] == rest;
      if eol == "\r" && n + 1 < |t| { assert t[n + 1] == rest[0]; }
    }
    assert After(t) == rest;
  }

  lemma BeginsWell(line: string, eol: string, rest: string)
    requires OneLine(line) && LineEnding(eol)
    ensures MayFollow(eol, line + (eol + rest))
  {
    if line != "" { assert line[0] in line; }
  }

  lemma AttributeHead(a: Attribute, e: string)
    requires GoodAttribute(a) && Follows(e)
    ensures OneLine(AttributeText(a)) && Classify(AttributeText(a) + e) == AttributeLine(a)
  {
    match a
    case Conn(v6, address) => ConnectionHead(v6, address, e);
    case Note(text) => PlainHead(text, e);
  }

  lemma {:induction false} AttributesRead(attributes: seq<Attribute>, eol: string, rest: string)
    requires GoodAttributes(attributes) && LineEnding(eol) && MayFollow(eol, rest)
    ensures Lines(AttributesText(attributes, eol) + rest) == AttributeLines(attributes) + Lines(rest)
    ensures MayFollow(eol, AttributesText(attributes, eol) + rest)
  {
    if attributes == [] { assert "" + rest == rest; }
    else {
      var a, more := attributes[0], AttributesText(attributes[1..], eol);
      AttributesRead(attributes[1..], eol, rest);
      AttributeHead(a, eol + (more + rest));
      LineReads(AttributeText(a), eol, more + rest, AttributeLine(a));
      BeginsWell(AttributeText(a), eol, more + rest);
      ThreeParts(AttributeText(a), eol, more, rest);
      FirstOfLines(AttributeLine(a), AttributeLines(attributes[1..]), Lines(rest));
    }
  }

  lemma ThreeParts(a: string, b: string, c: string, rest: string)
    ensures (a + (b + c)) + rest == a + (b + (c + rest))
  {
  }

  lemma FirstOfLines(l: Line, p: seq<Line>, q: seq<Line>)
    ensures [l] + (p + q) == ([l] + p) + q
  {
  }

  lemma HeadReads(s: Stream, e: string)
    requires GoodStream(s) && Follows(e)
    ensures OneLine(HeadText(s)) && Classify(HeadText(s) + e) == HeadLine(s) && Opens(HeadLine(s))
  {
    match s
    case AudioStream(port, transport, pt, more, _) => AudioHead(port, transport, pt, more, e);
    case CountedStream(port, count, more, _) => CountedHead(port, count, more, e);
    case OtherStream(kind, _) => OtherHead(kind, e);
  }

  lemma {:induction false} StreamsRead(streams: seq<Stream>, eol: string)
    requires GoodStreams(streams) && LineEnding(eol)
    ensures Lines(StreamsText(streams, eol)) == StreamLines(streams) && MayFollow(eol, StreamsText(streams, eol))
  {
    if streams != [] {
      var s, more := streams[0], StreamsText(streams[1..], eol);
      StreamsRead(streams[1..], eol);
      assert GoodStream(s);
      AttributesRead(s.attributes, eol, more);
      var rest := AttributesText(s.attributes, eol) + more;
      HeadReads(s, eol + rest);
      LineReads(HeadText(s), eol, rest, HeadLine(s));
      BeginsWell(HeadText(s), eol, rest);
    }
  }

  function Blocks(streams: seq<Stream>): seq<Block> {
    if streams == [] then [] else [Block(HeadLine(streams[0]), AttributeLines(streams[0].attributes))] + Blocks(streams[1..])
  }

  lemma {:induction false} AttributesOpenNone(attributes: seq<Attribute>)
    ensures NoneOpens(AttributeLines(attributes))
  {
    if attributes != [] { AttributesOpenNone(attributes[1..]); }
  }

  lemma {:induction false} StreamSections(streams: seq<Stream>)
    ensures Sections(StreamLines(streams)) == Answer([], Blocks(streams))
    ensures StreamLines(streams) == [] || Opens(StreamLines(streams)[0])
  {
    if streams != [] {
      var body, post := AttributeLines(streams[0].attributes), StreamLines(streams[1..]);
      StreamSections(streams[1..]);
      AttributesOpenNone(streams[0].attributes);
      BodyAlone(body, post);
      assert StreamLines(streams)[1..] == body + post;
    }
  }

  lemma {:induction false} LastAddressSnoc(lines: seq<Line>, l: Line, before: string)
    ensures LastAddress(lines + [l], before) == if l.Connection? then l.ip else LastAddress(lines, before)
  {
    if lines == [] { assert [l][1..] == []; }
    else {
      assert (lines + [l])[1..] == lines[1..] + [l];
      LastAddressSnoc(lines[1..], l, if lines[0].Connection? then lines[0].ip else before);
    }
  }

  lemma {:induction false} AttributeLinesSnoc(attributes: seq<Attribute>, a: Attribute)
    ensures AttributeLines(attributes + [a]) == AttributeLines(attributes) + [AttributeLine(a)]
  {
    if attributes == [] { assert [a][1..] == []; }
    else {
      assert (attributes + [a])[1..] == attributes[1..] + [a];
      AttributeLinesSnoc(attributes[1..], a);
    }
  }

  lemma {:induction false} LastConnIs(attributes: seq<Attribute>, before: string)
    ensures LastAddress(AttributeLines(attributes), before) == LastConn(attributes, before)
  {
    if attributes != [] {
      var init, a := attributes[..|attributes| - 1], attributes[|attributes| - 1];
      assert attributes == init + [a];
      LastConnIs(init, before);
      AttributeLinesSnoc(init, a);
      LastAddressSnoc(AttributeLines(init), AttributeLine(a), before);
    }
  }

  lemma {:induction false} MeantEntries(session: string, streams: seq<Stream>, index: nat)
    ensures EntriesOf(session, Blocks(streams), index) == Meant(session, streams, index)
  {
    if streams != [] {
      var s := streams[0];
      LastConnIs(s.attributes, session);
      EntriesSplit(session, Block(HeadLine(s), AttributeLines(s.attributes)), Blocks(streams[1..]), index);
      MeantEntries(session, streams[1..], index + 1);
    }
  }

  /** Any answer of c=, m=audio (with or without a port count), other m= and other lines, with any of the three line ends,
    * reads back to exactly what it was written from: per audio stream with a usable port the last c= address of its block,
    * or else the session's, its port, its first payload type if that is one, and the number of its m= line. */
  lemma RenderRoundTrip(r: Reply, eol: string)
    requires Good(r) && LineEnding(eol)
    ensures Entries(Render(r, eol)) == Meant(LastConn(r.session, ""), r.streams, 0)
  {
    StreamsRead(r.streams, eol);
    AttributesRead(r.session, eol, StreamsText(r.streams, eol));
    StreamSections(r.streams);
    AttributesOpenNone(r.session);
    BodyAlone(AttributeLines(r.session), StreamLines(r.streams));
    LastConnIs(r.session, "");
    MeantEntries(LastConn(r.session, ""), r.streams, 0);
  }
}
