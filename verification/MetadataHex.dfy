/** The ID read back by somebody who knows hex and base64 only from their tables (section 4 of RFC 4648). */
module MetadataHex {
  import opened Common
  import opened MetadataId

  // ---- hex, from its table ----

  const LOWER := "0123456789abcdef"
  const UPPER := "0123456789ABCDEF"

  /** Two digits a byte, the high one first. */
  function Print(table: string, bytes: seq<Byte>): (s: string)
    requires |table| == 16
    ensures |s| == 2 * |bytes|
  {
    seq(2 * |bytes|, k requires 0 <= k < 2 * |bytes| => if k % 2 == 0 then table[bytes[k / 2] / 16] else table[bytes[k / 2] % 16])
  }

  /** The 32 digits as a UUID is written, and as a CallSid is. */
  function WithHyphens(d: string): string
    requires |d| == 32
  {
    d[..8] + "-" + d[8..12] + "-" + d[12..16] + "-" + d[16..20] + "-" + d[20..]
  }

  function Forms(d: string): set<string>
    requires |d| == 32
  {
    {d, WithHyphens(d), "CA" + d}
  }

  predicate HexDigit(c: char) { c in LOWER || c in UPPER }

  lemma TableNibble(n: nat)
    requires n < 16
    ensures Nibble(LOWER[n]) == Some(n) && Nibble(UPPER[n]) == Some(n)
  {
  }

  lemma NibbleTable(c: char)
    ensures Nibble(c).Some? <==> HexDigit(c)
    ensures Nibble(c).Some? ==> LOWER[Nibble(c).value] == Lower(c)
  {
    if c in LOWER { var n: nat :| n < 16 && LOWER[n] == c; TableNibble(n); }
    if c in UPPER { var n: nat :| n < 16 && UPPER[n] == c; TableNibble(n); }
    if Nibble(c).Some? {
      var n := Nibble(c).value;
      if '0' <= c <= '9' || 'a' <= c <= 'f' { assert LOWER[n] == c; } else { assert UPPER[n] == c; }
    }
  }

  /** Digit `n` of the table is read as `n`. */
  predicate IsTable(table: string) { |table| == 16 && forall n :: 0 <= n < 16 ==> Nibble(table[n]) == Some(n) }

  lemma TablesAre(table: string)
    requires table == LOWER || table == UPPER
    ensures IsTable(table)
  {
    forall n | 0 <= n < 16 ensures Nibble(table[n]) == Some(n) { TableNibble(n); }
  }

  lemma PairPrinted(table: string, b: Byte)
    requires IsTable(table)
    ensures Nibble(table[b / 16]).Some? && Nibble(table[b % 16]).Some? && Pair(table[b / 16], table[b % 16]) == b
  {
  }

  lemma PrintedAt(table: string, bytes: seq<Byte>, i: nat)
    requires |table| == 16 && i < |bytes|
    ensures Print(table, bytes)[2 * i] == table[bytes[i] / 16] && Print(table, bytes)[2 * i + 1] == table[bytes[i] % 16]
  {
    assert (2 * i) / 2 == i && (2 * i + 1) / 2 == i;
  }

  /** `d` is two digits of the table for each byte. */
  predicate IsPrint(table: string, bytes: seq<Byte>, d: string)
    requires |table| == 16
  {
    && |d| == 2 * |bytes|
    && forall i :: 0 <= i < |bytes| ==> TwoDigits(table, bytes[i], d, i)
  }

  predicate TwoDigits(table: string, b: Byte, d: string, i: nat)
    requires |table| == 16
  {
    2 * i + 1 < |d| && d[2 * i] == table[b / 16] && d[2 * i + 1] == table[b % 16]
  }

  lemma PrintedIsHex(table: string, bytes: seq<Byte>)
    requires IsTable(table)
    ensures Hex(Print(table, bytes)) && Bytes(Print(table, bytes)) == bytes
  {
    forall i | 0 <= i < |bytes| ensures TwoDigits(table, bytes[i], Print(table, bytes), i) { PrintedAt(table, bytes, i); }
    IsPrintHex(table, bytes, Print(table, bytes));
    IsPrintBytes(table, bytes, Print(table, bytes));
  }

  lemma IsPrintHex(table: string, bytes: seq<Byte>, d: string)
    requires IsTable(table) && IsPrint(table, bytes, d)
    ensures Hex(d)
  {
    forall k | 0 <= k < |d| ensures Nibble(d[k]).Some? {
      assert TwoDigits(table, bytes[k / 2], d, k / 2);
      PairPrinted(table, bytes[k / 2]);
      assert k == 2 * (k / 2) || k == 2 * (k / 2) + 1;
    }
  }

  lemma IsPrintBytes(table: string, bytes: seq<Byte>, d: string)
    requires IsTable(table) && IsPrint(table, bytes, d) && Hex(d)
    ensures Bytes(d) == bytes
  {
    forall i | 0 <= i < |bytes| ensures Bytes(d)[i] == bytes[i] {
      assert TwoDigits(table, bytes[i], d, i);
      PairPrinted(table, bytes[i]);
      ByteAt(d, i);
    }
  }

  lemma ByteAt(d: string, i: nat)
    requires Hex(d) && |d| % 2 == 0 && i < |d| / 2
    ensures Nibble(d[2 * i]).Some? && Nibble(d[2 * i + 1]).Some? && Bytes(d)[i] == Pair(d[2 * i], d[2 * i + 1])
  {
    assert d[2 * i] in d && d[2 * i + 1] in d;
  }

  lemma FormsAreRead(d: string, u: string)
    requires |d| == 32 && Hex(d) && u in Forms(d)
    ensures Digits(u) == Some(d)
  {
    if u == d { }
    else if u == "CA" + d { assert u[2..] == d; }
    else { HyphensAreRead(d); }
  }

  lemma HyphensAreRead(d: string)
    requires |d| == 32 && Hex(d)
    ensures Digits(WithHyphens(d)) == Some(d)
  {
    var u := WithHyphens(d);
    assert |u| == 36 && u[8] == '-' && u[13] == '-' && u[18] == '-' && u[23] == '-';
    assert u[..8] == d[..8] && u[9..13] == d[8..12] && u[14..18] == d[12..16] && u[19..23] == d[16..20] && u[24..] == d[20..];
    assert Unhyphenated(u) == d;
  }

  /** Sixteen bytes written in hex, in either case and in each of the three forms, are accepted, and their ID decodes to
    * exactly those bytes. */
  lemma PrintedIsIdentity(table: string, bytes: seq<Byte>, u: string)
    requires (table == LOWER || table == UPPER) && |bytes| == 16 && u in Forms(Print(table, bytes))
    ensures Digits(u).Some? && Decode64(IdOf(u)) == Some(bytes)
  {
    TablesAre(table);
    PrintedIsHex(table, bytes);
    FormsAreRead(Print(table, bytes), u);
    IdsIdentify(u, u);
  }

  /** A text without its hyphens and without the CallSid's prefix. */
  function Without(s: string): string { if s == "" then "" else (if s[0] == '-' then "" else [s[0]]) + Without(s[1..]) }

  function Spelled(u: string): string { Without(if |u| == 34 then u[2..] else u) }

  function AllLower(s: string): string { seq(|s|, i requires 0 <= i < |s| => Lower(s[i])) }

  lemma {:induction false} WithoutJoin(a: string, b: string)
    ensures Without(a + b) == Without(a) + Without(b)
  {
    if a == "" { assert a + b == b; }
    else { assert (a + b)[1..] == a[1..] + b; WithoutJoin(a[1..], b); }
  }

  lemma {:induction false} WithoutHex(d: string)
    requires Hex(d)
    ensures Without(d) == d
  {
    if d != "" {
      assert Nibble(d[0]).Some? by { assert d[0] in d; }
      assert Hex(d[1..]) by { assert forall c :: c in d[1..] ==> c in d; }
      WithoutHex(d[1..]);
    }
  }

  lemma HexParts(u: string)
    requires Hyphenated(u) && Hex(Unhyphenated(u))
    ensures Without(u) == Unhyphenated(u)
  {
    PartsOf(Unhyphenated(u), u[..8], u[9..13], u[14..18], u[19..23], u[24..]);
    FivePartsWithout(u[..8], u[9..13], u[14..18], u[19..23], u[24..]);
    assert u == Hyphens(u[..8], u[9..13], u[14..18], u[19..23], u[24..]) by { FiveParts(u); }
  }

  function Hyphens(a: string, b: string, c: string, e: string, f: string): string {
    a + ("-" + (b + ("-" + (c + ("-" + (e + ("-" + f)))))))
  }

  lemma FiveParts(u: string)
    requires Hyphenated(u)
    ensures u == Hyphens(u[..8], u[9..13], u[14..18], u[19..23], u[24..])
  {
  }

  lemma PartsOf(d: string, a: string, b: string, c: string, e: string, f: string)
    requires d == a + b + c + e + f && Hex(d)
    ensures Hex(a) && Hex(b) && Hex(c) && Hex(e) && Hex(f)
  {
    assert forall x :: x in a || x in b || x in c || x in e || x in f ==> x in d;
  }

  lemma FivePartsWithout(a: string, b: string, c: string, e: string, f: string)
    requires Hex(a) && Hex(b) && Hex(c) && Hex(e) && Hex(f)
    ensures Without(Hyphens(a, b, c, e, f)) == a + b + c + e + f
  {
    var last := HyphenTo(f, "", "");
    var fourth := HyphenTo(e, last, f);
    var third := HyphenTo(c, fourth, e + f);
    var second := HyphenTo(b, third, c + (e + f));
    WithoutHex(a);
    WithoutJoin(a, second);
    assert last == "-" + f;
    Reassociate(a, b, c, e, f);
  }

  /** A hyphen and a part in front of some text. */
  lemma HyphenTo(part: string, rest: string, digits: string) returns (t: string)
    requires Hex(part) && Without(rest) == digits
    ensures t == "-" + (part + rest) && Without(t) == part + digits
  {
    t := "-" + (part + rest);
    HyphenAnd(part, rest);
    WithoutHex(part);
  }

  lemma Reassociate(a: string, b: string, c: string, e: string, f: string)
    ensures a + (b + (c + (e + f))) == a + b + c + e + f
    ensures f + "" == f
  {
  }

  lemma HyphenAnd(a: string, b: string)
    ensures Without("-" + (a + b)) == Without(a) + Without(b)
  {
    assert ("-" + (a + b))[1..] == a + b;
    WithoutJoin(a, b);
  }

  /** And back: an accepted text spells, in lower case, what its ID decodes to. */
  lemma IdentityIsPrinted(u: string)
    requires Digits(u).Some?
    ensures Decode64(IdOf(u)).Some? && |Decode64(IdOf(u)).value| == 16
    ensures Print(LOWER, Decode64(IdOf(u)).value) == AllLower(Spelled(u))
  {
    IdsIdentify(u, u);
    SpelledIsDigits(u);
    DigitsPrintLower(Digits(u).value);
  }

  lemma DigitsPrintLower(d: string)
    requires |d| == 32 && Hex(d)
    ensures Print(LOWER, Bytes(d)) == AllLower(d)
  {
    forall c: char ensures InLower(LOWER, c) { NibbleTable(c); NibbleRange(c); }
    AllPrintLower(LOWER, d);
  }

  lemma AllPrintLower(table: string, d: string)
    requires |table| == 16 && (forall c: char :: InLower(table, c)) && |d| == 32 && Hex(d)
    ensures Print(table, Bytes(d)) == AllLower(d)
  {
    forall k | 0 <= k < 32 ensures Print(table, Bytes(d))[k] == Lower(d[k]) { PrintedLower(table, d, k); }
  }

  /** The table writes the digit that `c` stands for as `c` in lower case. */
  predicate InLower(table: string, c: char) {
    Nibble(c).Some? ==> Nibble(c).value < |table| && table[Nibble(c).value] == Lower(c)
  }

  lemma PrintedLower(table: string, d: string, k: nat)
    requires |table| == 16 && (forall c: char :: InLower(table, c)) && |d| == 32 && Hex(d) && k < 32
    ensures Print(table, Bytes(d))[k] == Lower(d[k])
  {
    var i := k / 2;
    var hi, lo := d[2 * i], d[2 * i + 1];
    PrintedAt(table, Bytes(d), i);
    ByteAt(d, i);
    assert InLower(table, hi) && InLower(table, lo);
    PairSplits(hi, lo);
    assert k == 2 * i || k == 2 * i + 1;
  }

  lemma PairSplits(hi: char, lo: char)
    requires Nibble(hi).Some? && Nibble(lo).Some?
    ensures Pair(hi, lo) / 16 == Nibble(hi).value && Pair(hi, lo) % 16 == Nibble(lo).value
  {
    NibbleRange(hi);
    NibbleRange(lo);
  }

  lemma SpelledIsDigits(u: string)
    requires Digits(u).Some?
    ensures Spelled(u) == Digits(u).value
  {
    if Hyphenated(u) && Hex(Unhyphenated(u)) { HexParts(u); } else { WithoutHex(Unprefixed(u)); }
  }

  /** What is accepted: 32 hex digits in one of the three forms, and nothing else. */
  lemma AcceptedForms(u: string)
    ensures Digits(u).Some? <==> exists d: string :: |d| == 32 && (forall c :: c in d ==> HexDigit(c)) && u in Forms(d)
  {
    forall c: char ensures Nibble(c).Some? <==> HexDigit(c) { NibbleTable(c); }
    if Digits(u).Some? {
      var d := Digits(u).value;
      if |u| == 34 { assert u == "CA" + d; } else if |u| == 36 { AcceptedHyphens(u); }
      assert u in Forms(d);
    }
    if d: string :| |d| == 32 && (forall c :: c in d ==> HexDigit(c)) && u in Forms(d) { FormsAreRead(d, u); }
  }

  lemma AcceptedHyphens(u: string)
    requires |u| == 36 && Digits(u).Some?
    ensures u == WithHyphens(Digits(u).value)
  {
    var d := Digits(u).value;
    assert d[..8] == u[..8] && d[8..12] == u[9..13] && d[12..16] == u[14..18] && d[16..20] == u[19..23] && d[20..] == u[24..];
    assert u == u[..8] + "-" + u[9..13] + "-" + u[14..18] + "-" + u[19..23] + "-" + u[24..];
  }

  // ---- base64, from its table ----

  const CAPITALS := "ABCDEFGHIJKLMNOPQRSTUVWXYZ"
  const SMALL := "abcdefghijklmnopqrstuvwxyz"
  const FIGURES := "0123456789"
  const ALPHABET := CAPITALS + SMALL + FIGURES + "+/"

  lemma LetterIsTable(v: nat)
    requires v < 64
    ensures Letter(v) == ALPHABET[v]
  {
    if v < 26 { LettersFrom(CAPITALS, 'A', v); }
    else if v < 52 { LettersFrom(SMALL, 'a', v - 26); }
    else if v < 62 { LettersFrom(FIGURES, '0', v - 52); }
  }

  lemma LettersFrom(letters: string, first: char, v: nat)
    requires letters in {CAPITALS, SMALL, FIGURES}
    requires v < |letters| && first == letters[0]
    ensures first as int + v < 0x80 && letters[v] == (first as int + v) as char
  {
  }

  /** Three bytes and their four letters are one number, most significant part first. */
  lemma GroupIsNumber(a: Byte, b: Byte, c: Byte) returns (w: nat, x: nat, y: nat, z: nat)
    ensures w < 64 && x < 64 && y < 64 && z < 64
    ensures Group(a, b, c) == [ALPHABET[w], ALPHABET[x], ALPHABET[y], ALPHABET[z]]
    ensures 0x4_0000 * w + 0x1000 * x + 64 * y + z == 0x1_0000 * a + 0x100 * b + c
  {
    var v: nat := 0x1_0000 * a + 0x100 * b + c;
    w, x, y, z := v / 0x4_0000 % 64, v / 0x1000 % 64, v / 64 % 64, v % 64;
    Recombine(v);
    LetterIsTable(w);
    LetterIsTable(x);
    LetterIsTable(y);
    LetterIsTable(z);
  }

  /** One byte left over makes two letters, the second with four zero bits, and the padding. */
  lemma LastIsNumber(b: Byte) returns (w: nat, x: nat)
    ensures w < 64 && x < 64 && Encode64([b]) == [ALPHABET[w], ALPHABET[x], '=', '='] && 64 * w + x == 16 * b
  {
    w, x := b / 4, b % 4 * 16;
    LetterIsTable(w);
    LetterIsTable(x);
  }
}
