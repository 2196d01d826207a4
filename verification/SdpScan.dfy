/** What sscanf(text, "%u %*s %u") reads, with the C library's rules: blanks include line ends, so the scan of an
  * m= line runs on into the lines after it when its own fields give out. */
module SdpScan {
  import opened Common

  const ULONG := 0x1_0000_0000_0000_0000

  predicate Blank(c: char) { c == ' ' || '\t' <= c <= '\r' }

  predicate Digit(c: char) { '0' <= c <= '9' }

  function SkipBlanks(t: string): (r: string)
    ensures r == "" || !Blank(r[0])
    ensures |r| <= |t|
  {
    if t != "" && Blank(t[0]) then SkipBlanks(t[1..]) else t
  }

  function SkipWord(t: string): (r: string)
    ensures |r| <= |t|
  {
    if t != "" && !Blank(t[0]) then SkipWord(t[1..]) else t
  }

  /** The leading digits. */
  function Digits(t: string): (d: string)
    ensures d <= t
  {
    if t != "" && Digit(t[0]) then [t[0]] + Digits(t[1..]) else ""
  }

  function Value(digits: string): nat
    requires forall c :: c in digits ==> Digit(c)
  {
    if digits == "" then 0
    else
      assert Digit(digits[|digits| - 1]);
      10 * Value(digits[..|digits| - 1]) + (digits[|digits| - 1] as int - '0' as int)
  }

  lemma DigitsAreDigits(t: string)
    ensures forall c :: c in Digits(t) ==> Digit(c)
  {
  }

  /** strtoul saturates at 64 bits; the store into an unsigned int keeps the low 32. */
  function Stored(negative: bool, v: nat): Word32 {
    if v >= ULONG then 0xFFFF_FFFF else (if negative then ULONG - v else v) % 0x1_0000_0000
  }

  predicate Signed(t: string) { t != "" && (t[0] == '+' || t[0] == '-') }

  function AfterSign(t: string): string { if Signed(t) then t[1..] else t }

  /** The digits and what is left. */
  function ReadDigits(negative: bool, t: string): (r: Option<(Word32, string)>)
    ensures r.Some? ==> |r.value.1| < |t|
  {
    DigitsAreDigits(t);
    if Digits(t) == "" then None else Some((Stored(negative, Value(Digits(t))), t[|Digits(t)|..]))
  }

  /** %u: blanks, an optional sign, at least one digit. */
  function ReadUint(t: string): (r: Option<(Word32, string)>)
    ensures r.Some? ==> |r.value.1| < |t|
  {
    var u := SkipBlanks(t);
    ReadDigits(u != "" && u[0] == '-', AfterSign(u))
  }

  /** How many fields were stored, and the fields. */
  datatype Scan = Scan(got: nat, port: Word32, pt: Word32)

  function ScanFields(t: string): Scan {
    match ReadUint(t)
    case None => Scan(0, 0, 0)
    case Some((port, rest)) =>
      var word := SkipBlanks(rest);
      if word == "" then Scan(1, port, 0)
      else
        match ReadUint(SkipWord(word))
        case None => Scan(1, port, 0)
        case Some((pt, _)) => Scan(2, port, pt)
  }

  // ---- when a scan is confined to its line ----

  predicate LineEnd(c: char) { c == '\r' || c == '\n' }

  predicate OneLine(t: string) { forall c :: c in t ==> !LineEnd(c) }

  /** What may follow a line: the end of the text, or a line end and anything. */
  predicate Follows(e: string) { e == "" || LineEnd(e[0]) }

  /** The fields of the line settle the scan: its first field is no number, or a third field is there. */
  predicate Complete(line: string) {
    SkipBlanks(line) != ""
    && match ReadUint(line)
       case None => true
       case Some((_, rest)) => SkipBlanks(rest) != "" && SkipBlanks(SkipWord(SkipBlanks(rest))) != ""
  }

  lemma {:induction false} BlanksThen(t: string, e: string)
    ensures SkipBlanks(t) != "" ==> SkipBlanks(t + e) == SkipBlanks(t) + e
    ensures SkipBlanks(t) == "" ==> SkipBlanks(t + e) == SkipBlanks(e)
  {
    if t == "" { assert t + e == e; }
    else if Blank(t[0]) { assert (t + e)[1..] == t[1..] + e; BlanksThen(t[1..], e); }
  }

  lemma {:induction false} WordThen(t: string, e: string)
    requires Follows(e)
    ensures SkipWord(t + e) == SkipWord(t) + e
  {
    if t == "" { assert t + e == e; }
    else if !Blank(t[0]) { assert (t + e)[1..] == t[1..] + e; WordThen(t[1..], e); }
  }

  lemma {:induction false} DigitsThen(t: string, e: string)
    requires Follows(e)
    ensures Digits(t + e) == Digits(t)
  {
    if t == "" { assert t + e == e; }
    else if Digit(t[0]) { assert (t + e)[1..] == t[1..] + e; DigitsThen(t[1..], e); }
  }

  lemma UintThen(t: string, e: string)
    requires Follows(e) && SkipBlanks(t) != ""
    ensures ReadUint(t + e) == match ReadUint(t) case None => None case Some((v, rest)) => Some((v, rest + e))
  {
    BlanksThen(t, e);
    var u := SkipBlanks(t);
    assert ReadUint(t) == ReadDigits(u[0] == '-', AfterSign(u));
    AfterSignThen(u, e);
    ReadDigitsThen(u[0] == '-', AfterSign(u), e);
  }

  lemma AfterSignThen(u: string, e: string)
    requires u != ""
    ensures (u + e)[0] == u[0] && AfterSign(u + e) == AfterSign(u) + e
  {
    if Signed(u) { assert (u + e)[1..] == u[1..] + e; }
  }

  lemma ReadDigitsThen(negative: bool, d: string, e: string)
    requires Follows(e)
    ensures ReadDigits(negative, d + e)
         == match ReadDigits(negative, d) case None => None case Some((v, rest)) => Some((v, rest + e))
  {
    DigitsThen(d, e);
    assert (d + e)[|Digits(d)|..] == d[|Digits(d)|..] + e;
  }

  /** A complete line's scan reads that line only, whatever follows. */
  lemma CompleteIsLocal(line: string, e: string)
    requires Complete(line) && Follows(e)
    ensures ScanFields(line + e) == ScanFields(line)
  {
    UintThen(line, e);
    if ReadUint(line).Some? {
      var rest := ReadUint(line).value.1;
      BlanksThen(rest, e);
      var word := SkipBlanks(rest);
      WordThen(word, e);
      assert SkipWord(word + e) == SkipWord(word) + e;
      UintThen(SkipWord(word), e);
    }
  }

  /** What to put on the next line so that an incomplete line's scan picks it up. */
  function Intruder(line: string): string {
    if SkipBlanks(line) == "" then "\n1 x 2"
    else match ReadUint(line)
      case None => ""
      case Some((_, rest)) => if SkipBlanks(rest) == "" then "\nx 8" else "\n8"
  }

  lemma IncompleteLeaks(line: string)
    requires !Complete(line)
    ensures Follows(Intruder(line)) && ScanFields(line + Intruder(line)) != ScanFields(line)
  {
    if SkipBlanks(line) == "" { BlankLeaks(line); }
    else if SkipBlanks(ReadUint(line).value.1) == "" { PortLeaks(line); }
    else { TransportLeaks(line); }
  }

  /** No field at all: the port is found on a later line. */
  lemma BlankLeaks(line: string)
    requires SkipBlanks(line) == ""
    ensures ScanFields(line).got == 0
    ensures ScanFields(line + Intruder(line)).got >= 1 && ScanFields(line + Intruder(line)).port == 1
  {
    var e := "\n1 x 2";
    BlanksThen(line, e);
    assert SkipBlanks(e) == "1 x 2" by { assert e[1..] == "1 x 2"; }
    NothingToRead(line);
    PortOneRead(line + e);
    ScannedPort(line + e);
  }

  lemma PortOneRead(t: string)
    requires SkipBlanks(t) == "1 x 2"
    ensures ReadUint(t).Some? && ReadUint(t).value.0 == 1
  {
    OneRead(t, "1 x 2", "1", " x 2");
    assert Value("1") == 1 by { assert "1"[..0] == ""; }
  }

  lemma ScannedPort(t: string)
    requires ReadUint(t).Some?
    ensures ScanFields(t).got >= 1 && ScanFields(t).port == ReadUint(t).value.0
  {
  }

  /** A port only: the next line is the transport and more. */
  lemma PortLeaks(line: string)
    requires ReadUint(line).Some? && SkipBlanks(ReadUint(line).value.1) == ""
    ensures ScanFields(line) == Scan(1, ReadUint(line).value.0, 0)
    ensures ScanFields(line + Intruder(line)) == Scan(2, ReadUint(line).value.0, 8)
  {
    var e := "\nx 8";
    if SkipBlanks(line) == "" { NothingToRead(line); }
    UintThen(line, e);
    BlanksThen(ReadUint(line).value.1, e);
    assert SkipBlanks(e) == "x 8" by { assert e[1..] == "x 8"; }
    assert SkipWord("x 8") == " 8" by { assert "x 8"[1..] == " 8"; }
    EightRead(" 8");
  }

  /** Port and transport: the payload type is found on a later line. */
  lemma TransportLeaks(line: string)
    requires ReadUint(line).Some? && SkipBlanks(ReadUint(line).value.1) != ""
    requires SkipBlanks(SkipWord(SkipBlanks(ReadUint(line).value.1))) == ""
    ensures ScanFields(line) == Scan(1, ReadUint(line).value.0, 0)
    ensures ScanFields(line + Intruder(line)) == Scan(2, ReadUint(line).value.0, 8)
  {
    var e := "\n8";
    if SkipBlanks(line) == "" { NothingToRead(line); }
    UintThen(line, e);
    var word := SkipBlanks(ReadUint(line).value.1);
    BlanksThen(ReadUint(line).value.1, e);
    WordThen(word, e);
    BlanksThen(SkipWord(word), e);
    assert SkipBlanks(e) == "8" by { assert e[1..] == "8"; }
    NothingToRead(SkipWord(word));
    EightRead(SkipWord(word) + e);
  }

  lemma EightRead(t: string)
    requires SkipBlanks(t) == "8" || t == " 8"
    ensures ReadUint(t) == Some((8, ""))
  {
    if t == " 8" { assert t[1..] == "8"; }
    OneRead(t, "8", "8", "");
    assert Value("8") == 8 by { assert "8"[..0] == ""; }
  }

  lemma NothingToRead(t: string)
    requires SkipBlanks(t) == ""
    ensures ReadUint(t) == None
  {
  }

  lemma OneRead(t: string, u: string, d: string, rest: string)
    requires SkipBlanks(t) == u && u == d + rest && |d| == 1 && Digit(d[0]) && (rest == "" || Blank(rest[0]))
    ensures ReadUint(t).Some? && ReadUint(t).value.1 == rest
  {
    assert u[1..] == rest;
    assert Digits(rest) == "";
    assert Digits(u) == d;
  }

  /** The scan of an m= line depends on that line alone exactly when the line is complete. */
  lemma LocalIffComplete(line: string)
    ensures Complete(line) <==> forall e: string :: Follows(e) ==> ScanFields(line + e) == ScanFields(line)
  {
    if Complete(line) {
      forall e: string | Follows(e) ensures ScanFields(line + e) == ScanFields(line) { CompleteIsLocal(line, e); }
    } else {
      IncompleteLeaks(line);
    }
  }
}
