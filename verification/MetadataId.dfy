/** Metadata IDs: a textual UUID as 24 base64 characters (section 6.9 of RFC 7865, section 4 of RFC 4648). */
module MetadataId {
  import opened Common

  const ID_LEN := 24

  // ---- the accepted forms ----

  function Nibble(c: char): Option<nat> {
    if '0' <= c <= '9' then Some(c as int - '0' as int)
    else if 'a' <= c <= 'f' then Some(c as int - 'a' as int + 10)
    else if 'A' <= c <= 'F' then Some(c as int - 'A' as int + 10)
    else None
  }

  predicate Hex(s: string) { forall c :: c in s ==> Nibble(c).Some? }

  /** A CallSid is "CA" and 32 more characters. */
  function Unprefixed(u: string): string { if |u| == 34 && u[0] == 'C' && u[1] == 'A' then u[2..] else u }

  /** 8-4-4-4-12 with hyphens between. */
  predicate Hyphenated(s: string) { |s| == 36 && s[8] == '-' && s[13] == '-' && s[18] == '-' && s[23] == '-' }

  function Unhyphenated(s: string): string
    requires |s| == 36
  {
    s[..8] + s[9..13] + s[14..18] + s[19..23] + s[24..]
  }

  /** The 32 hex digits of an accepted form; `None` for anything else. */
  function Digits(u: string): (d: Option<string>)
    ensures d.Some? ==> |d.value| == 32 && Hex(d.value)
  {
    var s := Unprefixed(u);
    if |s| == 32 && Hex(s) then Some(s)
    else if Hyphenated(s) && Hex(Unhyphenated(s)) then Some(Unhyphenated(s))
    else None
  }

  function Pair(hi: char, lo: char): Byte
    requires Nibble(hi).Some? && Nibble(lo).Some?
  {
    NibbleRange(hi);
    NibbleRange(lo);
    16 * Nibble(hi).value + Nibble(lo).value
  }

  lemma NibbleRange(c: char)
    ensures Nibble(c).Some? ==> Nibble(c).value < 16
  {
  }

  /** The identity the digits spell. */
  function Bytes(d: string): (b: seq<Byte>)
    requires |d| % 2 == 0 && Hex(d)
    ensures |b| == |d| / 2
  {
    seq(|d| / 2, i requires 0 <= i < |d| / 2 => (assert d[2 * i] in d && d[2 * i + 1] in d; Pair(d[2 * i], d[2 * i + 1])))
  }

  // ---- base64 ----

  /** The b64 table: A-Z, a-z, 0-9, '+' and '/'. */
  function Letter(v: nat): char
    requires v < 64
  {
    if v < 26 then ('A' as int + v) as char
    else if v < 52 then ('a' as int + v - 26) as char
    else if v < 62 then ('0' as int + v - 52) as char
    else if v == 62 then '+'
    else '/'
  }

  function Value(c: char): Option<nat> {
    if 'A' <= c <= 'Z' then Some(c as int - 'A' as int)
    else if 'a' <= c <= 'z' then Some(c as int - 'a' as int + 26)
    else if '0' <= c <= '9' then Some(c as int - '0' as int + 52)
    else if c == '+' then Some(62)
    else if c == '/' then Some(63)
    else None
  }

  lemma LetterValue(v: nat)
    requires v < 64
    ensures Value(Letter(v)) == Some(v) && Letter(v) != '='
  {
  }

  /** The four letters of three bytes. */
  function Group(a: Byte, b: Byte, c: Byte): (g: string)
    ensures |g| == 4
  {
    var v := 0x1_0000 * a + 0x100 * b + c;
    [Letter(v / 0x4_0000 % 64), Letter(v / 0x1000 % 64), Letter(v / 64 % 64), Letter(v % 64)]
  }

  /** Standard base64 with padding, of a whole number of groups and one byte more. */
  function Encode64(bytes: seq<Byte>): (s: string)
    requires |bytes| % 3 == 1
    ensures |s| == (|bytes| / 3 + 1) * 4
  {
    if |bytes| == 1 then [Letter(bytes[0] / 4), Letter(bytes[0] % 4 * 16), '=', '=']
    else Group(bytes[0], bytes[1], bytes[2]) + Encode64(bytes[3..])
  }

  /** A decoder of padded base64 that ends in two padding characters. */
  function Decode64(s: string): Option<seq<Byte>> {
    if |s| < 4 || Value(s[0]).None? || Value(s[1]).None? then None
    else if |s| == 4 && s[2] == '=' && s[3] == '=' then
      (if Value(s[1]).value % 16 != 0 then None else Some([TopBits(s[0], s[1])]))
    else if Value(s[2]).None? || Value(s[3]).None? then None
    else
      match Decode64(s[4..])
      case None => None
      case Some(rest) => Some(Three(Value(s[0]).value, Value(s[1]).value, Value(s[2]).value, Value(s[3]).value) + rest)
  }

  lemma ValueRange(c: char)
    ensures Value(c).Some? ==> Value(c).value < 64
  {
  }

  function TopBits(x: char, y: char): Byte
    requires Value(x).Some? && Value(y).Some?
  {
    ValueRange(x);
    ValueRange(y);
    Value(x).value * 4 + Value(y).value / 16
  }

  function Three(w: nat, x: nat, y: nat, z: nat): seq<Byte> {
    var n := 0x4_0000 * w + 0x1000 * x + 64 * y + z;
    [n / 0x1_0000 % 0x100, n / 0x100 % 0x100, n % 0x100]
  }

  lemma Recombine(v: nat)
    requires v < 0x100_0000
    ensures 0x4_0000 * (v / 0x4_0000 % 64) + 0x1000 * (v / 0x1000 % 64) + 64 * (v / 64 % 64) + v % 64 == v
  {
    var t := v / 64;
    var u := t / 64;
    assert v == 64 * t + v % 64 && t == 64 * u + t % 64 && u == 64 * (u / 64) + u % 64;
    assert u == v / 0x1000 && u / 64 == v / 0x4_0000;
    assert u / 64 < 64;
  }

  lemma Bytewise(a: Byte, b: Byte, c: Byte)
    ensures var v := 0x1_0000 * a + 0x100 * b + c;
      v < 0x100_0000 && v / 0x1_0000 % 0x100 == a && v / 0x100 % 0x100 == b && v % 0x100 == c
  {
    var v := 0x1_0000 * a + 0x100 * b + c;
    assert v / 0x100 == 0x100 * a + b && v / 0x1_0000 == a;
  }

  lemma Sextets(a: Byte, b: Byte, c: Byte)
    ensures var v := 0x1_0000 * a + 0x100 * b + c;
      Three(v / 0x4_0000 % 64, v / 0x1000 % 64, v / 64 % 64, v % 64) == [a, b, c]
  {
    Bytewise(a, b, c);
    Recombine(0x1_0000 * a + 0x100 * b + c);
  }

  lemma LastByte(b: Byte)
    ensures Decode64([Letter(b / 4), Letter(b % 4 * 16), '=', '=']) == Some([b])
  {
    LetterValue(b / 4);
    LetterValue(b % 4 * 16);
    assert b % 4 * 16 / 16 == b % 4 && b % 4 * 16 % 16 == 0;
  }

  /** Decoding undoes encoding. */
  lemma {:induction false} Base64RoundTrip(bytes: seq<Byte>)
    requires |bytes| % 3 == 1
    ensures Decode64(Encode64(bytes)) == Some(bytes)
  {
    if |bytes| == 1 {
      LastByte(bytes[0]);
      assert bytes == [bytes[0]];
    } else {
      var a, b, c := bytes[0], bytes[1], bytes[2];
      Base64RoundTrip(bytes[3..]);
      GroupDecodes(a, b, c, Encode64(bytes[3..]), bytes[3..]);
      assert bytes == [a, b, c] + bytes[3..];
    }
  }

  lemma GroupDecodes(a: Byte, b: Byte, c: Byte, s: string, rest: seq<Byte>)
    requires Decode64(s) == Some(rest)
    ensures Decode64(Group(a, b, c) + s) == Some([a, b, c] + rest)
  {
    var v := 0x1_0000 * a + 0x100 * b + c;
    LetterValue(v / 0x4_0000 % 64);
    LetterValue(v / 0x1000 % 64);
    LetterValue(v / 64 % 64);
    LetterValue(v % 64);
    Sextets(a, b, c);
    assert (Group(a, b, c) + s)[4..] == s;
  }

  // ---- the ID ----

  /** The ID of an accepted form. */
  function IdOf(u: string): (id: string)
    requires Digits(u).Some?
    ensures |id| == ID_LEN
  {
    Encode64(Bytes(Digits(u).value))
  }

  function Lower(c: char): char { if 'A' <= c <= 'Z' then (c as int + 32) as char else c }

  predicate SameDigits(d: string, e: string) { |d| == |e| && forall i :: 0 <= i < |d| ==> Lower(d[i]) == Lower(e[i]) }

  lemma NibbleIgnoresCase(c: char, d: char)
    requires Nibble(c).Some? && Nibble(d).Some?
    ensures Nibble(c) == Nibble(d) <==> Lower(c) == Lower(d)
  {
  }

  lemma PairDetermines(a: char, b: char, c: char, d: char)
    requires Nibble(a).Some? && Nibble(b).Some? && Nibble(c).Some? && Nibble(d).Some?
    ensures Pair(a, b) == Pair(c, d) <==> Nibble(a) == Nibble(c) && Nibble(b) == Nibble(d)
  {
    NibbleRange(a);
    NibbleRange(b);
    NibbleRange(c);
    NibbleRange(d);
  }

  lemma BytesIgnoreCase(d: string, e: string)
    requires |d| == |e| && |d| % 2 == 0 && Hex(d) && Hex(e)
    ensures Bytes(d) == Bytes(e) <==> SameDigits(d, e)
  {
    forall i | 0 <= i < |d| / 2
      ensures Bytes(d)[i] == Bytes(e)[i] <==> Lower(d[2 * i]) == Lower(e[2 * i]) && Lower(d[2 * i + 1]) == Lower(e[2 * i + 1])
    {
      assert d[2 * i] in d && d[2 * i + 1] in d && e[2 * i] in e && e[2 * i + 1] in e;
      PairDetermines(d[2 * i], d[2 * i + 1], e[2 * i], e[2 * i + 1]);
      NibbleIgnoresCase(d[2 * i], e[2 * i]);
      NibbleIgnoresCase(d[2 * i + 1], e[2 * i + 1]);
    }
    if Bytes(d) == Bytes(e) {
      forall k | 0 <= k < |d| ensures Lower(d[k]) == Lower(e[k]) {
        assert Bytes(d)[k / 2] == Bytes(e)[k / 2];
        assert k == 2 * (k / 2) || k == 2 * (k / 2) + 1;
      }
    }
    if SameDigits(d, e) {
      assert forall i :: 0 <= i < |d| / 2 ==> Bytes(d)[i] == Bytes(e)[i];
    }
  }

  /** Two accepted strings get one ID exactly when their hex digits agree, whatever their form and case; and the ID
    * decodes to the 16 bytes they spell. */
  lemma IdsIdentify(u: string, v: string)
    requires Digits(u).Some? && Digits(v).Some?
    ensures IdOf(u) == IdOf(v) <==> SameDigits(Digits(u).value, Digits(v).value)
    ensures Decode64(IdOf(u)) == Some(Bytes(Digits(u).value)) && |Bytes(Digits(u).value)| == 16
  {
    Base64RoundTrip(Bytes(Digits(u).value));
    Base64RoundTrip(Bytes(Digits(v).value));
    BytesIgnoreCase(Digits(u).value, Digits(v).value);
  }

  // ---- the encoder ----

  predicate HyphenPlace(s: string, i: nat) { |s| == 36 && (i == 8 || i == 13 || i == 18 || i == 23) }

  /** The digit positions before `i`. */
  function DigitsBefore(s: string, i: nat): (d: string)
    requires i <= |s|
    ensures |d| == if |s| == 36 then i - Passed(i) else i
  {
    if i == 0 then "" else DigitsBefore(s, i - 1) + if HyphenPlace(s, i - 1) then "" else [s[i - 1]]
  }

  /** How many hyphen places lie before `i`. */
  function Passed(i: nat): nat {
    (if i > 8 then 1 else 0) + (if i > 13 then 1 else 0) + (if i > 18 then 1 else 0) + if i > 23 then 1 else 0
  }

  lemma {:induction false} DigitsRun(s: string, i: nat, j: nat)
    requires i <= j <= |s| && forall k :: i <= k < j ==> !HyphenPlace(s, k)
    ensures DigitsBefore(s, j) == DigitsBefore(s, i) + s[i..j]
  {
    if i < j { DigitsRun(s, i, j - 1); assert s[i..j] == s[i..j - 1] + [s[j - 1]]; }
  }

  lemma AllDigits(s: string)
    requires |s| == 36 || |s| == 32
    ensures DigitsBefore(s, |s|) == if |s| == 36 then Unhyphenated(s) else s
  {
    if |s| == 32 { DigitsRun(s, 0, 32); assert s[0..32] == s; }
    else {
      FirstDigits(s);
      OverHyphen(s, 13, 18);
      OverHyphen(s, 18, 23);
      OverHyphen(s, 23, 36);
      assert s[24..36] == s[24..];
    }
  }

  lemma FirstDigits(s: string)
    requires |s| == 36
    ensures DigitsBefore(s, 13) == s[..8] + s[9..13]
  {
    DigitsRun(s, 0, 8);
    assert s[0..8] == s[..8] && DigitsBefore(s, 0) + s[..8] == s[..8];
    OverHyphen(s, 8, 13);
  }

  /** From one hyphen place to the next. */
  lemma OverHyphen(s: string, i: nat, j: nat)
    requires HyphenPlace(s, i) && i < j <= |s| && forall k :: i < k < j ==> !HyphenPlace(s, k)
    ensures DigitsBefore(s, j) == DigitsBefore(s, i) + s[i + 1..j]
  {
    DigitsRun(s, i + 1, j);
    assert DigitsBefore(s, i + 1) == DigitsBefore(s, i);
  }

  /** Two digit places are left wherever an even number of digits is behind. */
  lemma PairAhead(s: string, i: nat)
    requires i < |s| && (|s| == 36 || |s| == 32) && !HyphenPlace(s, i) && |DigitsBefore(s, i)| % 2 == 0
    ensures i + 1 < |s| && !HyphenPlace(s, i + 1) && |DigitsBefore(s, i)| < 32
    ensures DigitsBefore(s, i + 2) == DigitsBefore(s, i) + [s[i], s[i + 1]]
  {
    assert DigitsBefore(s, i + 1) == DigitsBefore(s, i) + [s[i]];
  }

  /** A character at a digit place that is no digit refuses the whole string. */
  lemma {:induction false} DigitPlace(s: string, i: nat)
    requires i < |s| && (|s| == 36 || |s| == 32) && !HyphenPlace(s, i)
    ensures s[i] in DigitsBefore(s, |s|)
  {
    KeepsDigit(s, i, |s|);
  }

  lemma {:induction false} KeepsDigit(s: string, i: nat, j: nat)
    requires i < j <= |s| && !HyphenPlace(s, i)
    ensures s[i] in DigitsBefore(s, j)
  {
    if i < j - 1 { KeepsDigit(s, i, j - 1); }
  }

  /** The forms in terms of digit places. */
  lemma FormIs(u: string)
    ensures var s := Unprefixed(u);
      Digits(u).Some? <==> (|s| == 36 || |s| == 32) && Hex(DigitsBefore(s, |s|)) && (|s| == 36 ==> Hyphenated(s))
    ensures Digits(u).Some? ==> Digits(u).value == DigitsBefore(Unprefixed(u), |Unprefixed(u)|)
  {
    var s := Unprefixed(u);
    if |s| == 36 || |s| == 32 { AllDigits(s); }
  }

  lemma BytesSnoc(d: string, hi: char, lo: char)
    requires |d| % 2 == 0 && Hex(d) && Nibble(hi).Some? && Nibble(lo).Some?
    ensures Hex(d + [hi, lo]) && Bytes(d + [hi, lo]) == Bytes(d) + [Pair(hi, lo)]
  {
  }

  method Put(buf: array<Byte>, n: nat, b: Byte)
    requires n < buf.Length
    modifies buf
    ensures buf[..n + 1] == old(buf[..n]) + [b]
  {
    buf[n] := b;
  }

  /** The digit loop of siprec_metadata_uuid_to_id, over the string without its CallSid prefix. */
  method ReadBytes(s: string) returns (bytes: Option<seq<Byte>>)
    requires |s| == 36 || |s| == 32
    ensures bytes.Some? <==> Hex(DigitsBefore(s, |s|)) && (|s| == 36 ==> Hyphenated(s))
    ensures bytes.Some? ==> bytes.value == Bytes(DigitsBefore(s, |s|)) && |bytes.value| == 16
  {
    var buf := new Byte[16];
    var i, n := 0, 0;
    ghost var d := "";
    while i < |s|
      invariant i <= |s| && n <= 16 && d == DigitsBefore(s, i) && Hex(d) && |d| == 2 * n
      invariant buf[..n] == Bytes(d)
      invariant forall k :: 0 <= k < i && HyphenPlace(s, k) ==> s[k] == '-'
    {
      if HyphenPlace(s, i) {
        if s[i] != '-' { return None; }
        i := i + 1;
      } else {
        PairAhead(s, i);
        var hi, lo := Nibble(s[i]), Nibble(s[i + 1]);
        if hi.None? || lo.None? {
          DigitPlace(s, i);
          DigitPlace(s, i + 1);
          return None;
        }
        BytesSnoc(d, s[i], s[i + 1]);
        d := d + [s[i], s[i + 1]];
        Put(buf, n, Pair(s[i], s[i + 1]));
        n := n + 1;
        i := i + 2;
      }
    }
    bytes := Some(buf[..]);
    assert buf[..] == buf[..n];
  }

  /** siprec_metadata_uuid_to_id: 0 and the ID, terminated, for an accepted form; otherwise -1 and an empty string. */
  method UuidToId(uuid: Option<string>, out: array<char>) returns (rc: int)
    requires out.Length == ID_LEN + 1
    modifies out
    ensures rc == if uuid.Some? && Digits(uuid.value).Some? then 0 else -1
    ensures rc == 0 ==> out[..ID_LEN] == IdOf(uuid.value) && out[ID_LEN] == '\0'
    ensures rc == -1 ==> out[0] == '\0'
  {
    out[0] := '\0';
    if uuid.None? { return -1; }
    FormIs(uuid.value);
    var s := Unprefixed(uuid.value);
    if |s| != 36 && |s| != 32 { return -1; }
    var read := ReadBytes(s);
    if read.None? { return -1; }
    WriteBase64(read.value, out);
    rc := 0;
  }

  /** One group of four letters. */
  method WriteGroup(out: array<char>, o: nat, a: Byte, b: Byte, c: Byte)
    requires o + 4 <= out.Length
    modifies out
    ensures out[..o + 4] == old(out[..o]) + Group(a, b, c)
  {
    var v: nat := 0x1_0000 * a + 0x100 * b + c;
    out[o] := Letter(v / 0x4_0000 % 64);
    out[o + 1] := Letter(v / 0x1000 % 64);
    out[o + 2] := Letter(v / 64 % 64);
    out[o + 3] := Letter(v % 64);
  }

  lemma EncodeNext(bytes: seq<Byte>, i: nat)
    requires i + 4 <= |bytes| && (|bytes| - i) % 3 == 1
    ensures Encode64(bytes[i..]) == Group(bytes[i], bytes[i + 1], bytes[i + 2]) + Encode64(bytes[i + 3..])
  {
    assert bytes[i..][3..] == bytes[i + 3..];
  }

  /** The five groups of three bytes and the trailing one. */
  method WriteBase64(bytes: seq<Byte>, out: array<char>)
    requires |bytes| == 16 && out.Length == ID_LEN + 1
    modifies out
    ensures out[..ID_LEN] == Encode64(bytes) && out[ID_LEN] == '\0'
  {
    var i, o := 0, 0;
    ghost var done := "";
    while i + 3 <= |bytes|
      invariant i % 3 == 0 && i <= 15 && o == i / 3 * 4
      invariant out[..o] == done && Continues(bytes, i, done)
    {
      NextGroup(bytes, i, done);
      WriteGroup(out, o, bytes[i], bytes[i + 1], bytes[i + 2]);
      done := done + Group(bytes[i], bytes[i + 1], bytes[i + 2]);
      i, o := i + 3, o + 4;
    }
    assert bytes[i..] == [bytes[15]];
    WriteLast(out, o, bytes[15]);
  }

  /** `done` is what the first `i` bytes encode to. */
  ghost predicate Continues(bytes: seq<Byte>, i: nat, done: string) {
    |bytes| % 3 == 1 && i % 3 == 0 && i < |bytes| && done + Encode64(bytes[i..]) == Encode64(bytes)
  }

  lemma NextGroup(bytes: seq<Byte>, i: nat, done: string)
    requires Continues(bytes, i, done) && i + 3 < |bytes|
    ensures Continues(bytes, i + 3, done + Group(bytes[i], bytes[i + 1], bytes[i + 2]))
  {
    StepsOfThree(|bytes|, i);
    EncodeNext(bytes, i);
    var group, rest := Group(bytes[i], bytes[i + 1], bytes[i + 2]), Encode64(bytes[i + 3..]);
    Onward(done, group, rest, Encode64(bytes[i..]), Encode64(bytes));
  }

  lemma StepsOfThree(n: nat, i: nat)
    requires n % 3 == 1 && i % 3 == 0 && i + 3 < n
    ensures (n - i) % 3 == 1 && (n - (i + 3)) % 3 == 1 && (i + 3) % 3 == 0
  {
  }

  lemma Onward(done: string, group: string, rest: string, here: string, whole: string)
    requires here == group + rest && done + here == whole
    ensures (done + group) + rest == whole
  {
    Regroup(done, group, rest);
  }

  /** The group of the trailing byte, and the terminator. */
  method WriteLast(out: array<char>, o: nat, b: Byte)
    requires o + 4 < out.Length
    modifies out
    ensures out[..o + 4] == old(out[..o]) + Encode64([b]) && out[o + 4] == '\0'
  {
    out[o] := Letter(b / 4);
    out[o + 1] := Letter(b % 4 * 16);
    out[o + 2] := '=';
    out[o + 3] := '=';
    out[o + 4] := '\0';
  }

  lemma Regroup(a: string, b: string, c: string)
    ensures a + b + c == a + (b + c)
  {
  }

  /** siprec_metadata_session_id: the channel's own identity whenever it can be encoded. */
  method SessionId(channel: Option<string>, fallback: Option<string>, out: array<char>) returns (rc: int)
    requires out.Length == ID_LEN + 1
    modifies out
    ensures rc == 0 <==> channel.Some? && Digits(channel.value).Some?
    ensures rc == 1 <==> rc != 0 && fallback.Some? && Digits(fallback.value).Some?
    ensures rc == 0 ==> out[..ID_LEN] == IdOf(channel.value)
    ensures rc == 1 ==> out[..ID_LEN] == IdOf(fallback.value)
    ensures rc !in {0, 1} ==> rc == -1 && out[0] == '\0'
  {
    var st := UuidToId(channel, out);
    if st == 0 { return 0; }
    st := UuidToId(fallback, out);
    if st == 0 { return 1; }
    rc := -1;
  }
}
