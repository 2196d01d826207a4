/** Escaping and the grammar of the metadata document: a printer and an independent reader, and that reading undoes
  * printing. */
module XmlText {
  import opened Common

  // ---- escaping ----

  function EscapeChar(c: char): string {
    if c == '&' then "&amp;"
    else if c == '<' then "&lt;"
    else if c == '>' then "&gt;"
    else if c == '"' then "&quot;"
    else if c == '\'' then "&apos;"
    else [c]
  }

  function Escape(s: string): string {
    if s == "" then "" else Escape(s[..|s| - 1]) + EscapeChar(s[|s| - 1])
  }

  /** The character a reference stands for. */
  function Named(entity: string): Option<char> {
    if entity == "amp" then Some('&')
    else if entity == "lt" then Some('<')
    else if entity == "gt" then Some('>')
    else if entity == "quot" then Some('"')
    else if entity == "apos" then Some('\'')
    else None
  }

  function Until(t: string, c: char): (n: nat)
    ensures n <= |t| && (n < |t| ==> t[n] == c) && forall i :: 0 <= i < n ==> t[i] != c
  {
    if t == "" || t[0] == c then 0 else 1 + Until(t[1..], c)
  }

  lemma {:induction false} UntilIs(u: string, c: char, rest: string)
    requires c !in u
    ensures Until(u + [c] + rest, c) == |u|
  {
    assert (u + [c] + rest)[|u|] == c;
    assert forall i :: 0 <= i < |u| ==> (u + [c] + rest)[i] == u[i];
  }

  function Unescape(t: string): Option<string> {
    if t == "" then Some("")
    else if t[0] == '&' then
      var n := Until(t, ';');
      if n == |t| || Named(t[1..n]).None? then None
      else
        match Unescape(t[n + 1..])
        case None => None
        case Some(s) => Some([Named(t[1..n]).value] + s)
    else
      match Unescape(t[1..])
      case None => None
      case Some(s) => Some([t[0]] + s)
  }

  lemma EscapedChar(c: char, t: string, s: string)
    requires Unescape(t) == Some(s)
    ensures Unescape(EscapeChar(c) + t) == Some([c] + s)
  {
    if c == '&' { Reference("amp", c, t, s); assert EscapeChar(c) == ['&'] + "amp" + [';']; }
    else if c == '<' { Reference("lt", c, t, s); assert EscapeChar(c) == ['&'] + "lt" + [';']; }
    else if c == '>' { Reference("gt", c, t, s); assert EscapeChar(c) == ['&'] + "gt" + [';']; }
    else if c == '"' { Reference("quot", c, t, s); assert EscapeChar(c) == ['&'] + "quot" + [';']; }
    else if c == '\'' { Reference("apos", c, t, s); assert EscapeChar(c) == ['&'] + "apos" + [';']; }
    else { assert ([c] + t)[1..] == t; }
  }

  lemma Reference(name: string, c: char, t: string, s: string)
    requires Named(name) == Some(c) && ';' !in name && Unescape(t) == Some(s)
    ensures Unescape(['&'] + name + [';'] + t) == Some([c] + s)
  {
    var u := ['&'] + name + [';'] + t;
    assert ';' !in ['&'] + name;
    UntilIs(['&'] + name, ';', t);
    assert ['&'] + name + [';'] + t == (['&'] + name) + [';'] + t;
    assert u[1..|name| + 1] == name && u[|name| + 2..] == t;
  }

  /** Every string survives escaping. */
  lemma {:induction false} EscapeRoundTrip(s: string)
    ensures Unescape(Escape(s)) == Some(s)
  {
    EscapeThen(s, "", "");
    assert Escape(s) + "" == Escape(s) && s + "" == s;
  }

  lemma {:induction false} EscapeThen(s: string, t: string, u: string)
    requires Unescape(t) == Some(u)
    ensures Unescape(Escape(s) + t) == Some(s + u)
  {
    if s == "" { assert Escape(s) + t == t && s + u == u; }
    else {
      var init, c := s[..|s| - 1], s[|s| - 1];
      EscapedChar(c, t, u);
      EscapeThen(init, EscapeChar(c) + t, [c] + u);
      Assoc(Escape(init), EscapeChar(c), t);
      Assoc(init, [c], u);
      assert s == init + [c];
    }
  }

  lemma Assoc(a: string, b: string, c: string)
    ensures a + b + c == a + (b + c)
  {
  }

  /** Nothing escaped can open a tag or close an attribute. */
  lemma {:induction false} EscapeIsInert(s: string)
    ensures '<' !in Escape(s) && '>' !in Escape(s) && '"' !in Escape(s)
  {
    if s != "" {
      EscapeIsInert(s[..|s| - 1]);
      EscapeCharIsInert(s[|s| - 1]);
    }
  }

  lemma EscapeCharIsInert(c: char)
    ensures '<' !in EscapeChar(c) && '>' !in EscapeChar(c) && '"' !in EscapeChar(c)
  {
  }

  lemma EscapeSnoc(s: string, c: char)
    ensures Escape(s + [c]) == Escape(s) + EscapeChar(c)
  {
    assert (s + [c])[..|s|] == s;
  }

  /** The five predefined entities (section 4.6 of XML 1.0) are what the five characters are written as. */
  lemma PredefinedEntities()
    ensures Escape("<") == "&lt;" && Escape(">") == "&gt;" && Escape("&") == "&amp;"
    ensures Escape("'") == "&apos;" && Escape(['"']) == "&quot;"
  {
    assert "<"[..0] == "" && ">"[..0] == "" && "&"[..0] == "" && "'"[..0] == "" && ['"'][..0] == "";
  }
}
