/** Elements as the metadata builder lays them out, and a reader that knows nothing of the builder. */
module XmlTree {
  import opened Common
  import opened XmlText

  datatype Attr = Attr(name: string, value: string)

  /** An element with text, with nothing, or with children. */
  datatype Xml =
    | Leaf(name: string, attrs: seq<Attr>, text: string)
    | Empty(name: string, attrs: seq<Attr>)
    | Node(name: string, attrs: seq<Attr>, children: seq<Xml>)

  predicate NameChar(c: char) { 'a' <= c <= 'z' || 'A' <= c <= 'Z' || '0' <= c <= '9' || c == '-' || c == '_' || c == ':' }

  predicate IsName(s: string) { s != "" && forall c :: c in s ==> NameChar(c) }

  predicate NamedWell(name: string, attrs: seq<Attr>) { IsName(name) && forall a :: a in attrs ==> IsName(a.name) }

  predicate WellFormed(x: Xml) {
    NamedWell(x.name, x.attrs)
    && (x.Node? ==> x.children != [] && forall c :: c in x.children ==> WellFormed(c))
  }

  // ---- the printer ----

  function Indent(depth: nat): string { if depth == 0 then "" else "  " + Indent(depth - 1) }

  function AttrText(a: Attr): string { [' '] + a.name + ['=', '"'] + Escape(a.value) + ['"'] }

  function Attrs(attrs: seq<Attr>): string { if attrs == [] then "" else AttrText(attrs[0]) + Attrs(attrs[1..]) }

  function Open(x: Xml): string { ['<'] + x.name + Attrs(x.attrs) }

  function CloseTag(name: string): string { ['<', '/'] + name + ['>'] }

  const CRLF := ['\r', '\n']

  /** What stands between the opening tag and the closing tag. */
  function Content(x: Xml, depth: nat): string
    requires !x.Empty?
    decreases x, 0
  {
    match x
    case Leaf(_, _, text) => Escape(text)
    case Node(_, _, children) => CRLF + Print(children, depth + 1) + Indent(depth)
  }

  function Inline(x: Xml, depth: nat): string
    decreases x, 1
  {
    if x.Empty? then Open(x) + ['/', '>'] else Open(x) + ['>'] + Content(x, depth) + CloseTag(x.name)
  }

  /** One element a line (or a block of lines), indented. */
  function Print(xs: seq<Xml>, depth: nat): string
    decreases xs, 0
  {
    if xs == [] then "" else Line(xs[0], depth) + Print(xs[1..], depth)
  }

  function Line(x: Xml, depth: nat): string
    decreases x, 2
  {
    Indent(depth) + Inline(x, depth) + CRLF
  }

  // ---- the reader ----

  function NameLen(t: string): (n: nat)
    ensures n <= |t| && (forall i :: 0 <= i < n ==> NameChar(t[i])) && (n < |t| ==> !NameChar(t[n]))
  {
    if t == "" || !NameChar(t[0]) then 0 else 1 + NameLen(t[1..])
  }

  function Expect(t: string, s: string): (r: Option<string>)
    ensures r.Some? ==> |r.value| == |t| - |s|
  {
    if |s| <= |t| && t[..|s|] == s then Some(t[|s|..]) else None
  }

  function ReadAttr(t: string): (r: Option<(Attr, string)>)
    ensures r.Some? ==> |r.value.1| < |t|
  {
    var n := NameLen(t);
    match Expect(t[n..], ['=', '"'])
    case None => None
    case Some(v) =>
      var m := Until(v, '"');
      if n == 0 || m == |v| then None
      else
        match Unescape(v[..m])
        case None => None
        case Some(value) => Some((Attr(t[..n], value), v[m + 1..]))
  }

  function ReadAttrs(t: string): (r: Option<(seq<Attr>, string)>)
    ensures r.Some? ==> |r.value.1| <= |t|
    decreases |t|
  {
    if t == "" || t[0] != ' ' then Some(([], t))
    else
      match ReadAttr(t[1..])
      case None => None
      case Some((a, rest)) =>
        match ReadAttrs(rest)
        case None => None
        case Some((more, rest')) => Some(([a] + more, rest'))
  }

  predicate Layout(c: char) { c == ' ' || c == '\r' || c == '\n' }

  function SkipLayout(t: string): (r: string)
    ensures |r| <= |t|
  {
    if t != "" && Layout(t[0]) then SkipLayout(t[1..]) else t
  }

  predicate AtClose(t: string) { |t| >= 2 && t[0] == '<' && t[1] == '/' }

  /** `t` stands at '<'. */
  function ReadElement(t: string): (r: Option<(Xml, string)>)
    ensures r.Some? ==> |r.value.1| < |t|
    decreases |t|, 0
  {
    if t == "" || t[0] != '<' then None
    else
      var n := NameLen(t[1..]);
      match ReadAttrs(t[1..][n..])
      case None => None
      case Some((attrs, rest)) => if n == 0 then None else ReadBody(t[1..][..n], attrs, rest)
  }

  /** The rest of an element, from the end of its attributes. */
  function ReadBody(name: string, attrs: seq<Attr>, t: string): (r: Option<(Xml, string)>)
    ensures r.Some? ==> |r.value.1| < |t|
    decreases |t|, 2
  {
    if Expect(t, ['/', '>']).Some? then Some((Empty(name, attrs), t[2..]))
    else if Expect(t, ['>']).None? then None
    else ReadContent(name, attrs, t[1..])
  }

  function ReadContent(name: string, attrs: seq<Attr>, t: string): (r: Option<(Xml, string)>)
    ensures r.Some? ==> |r.value.1| <= |t|
    decreases |t|, 2
  {
    var m := Until(t, '<');
    if AtClose(t[m..]) then
      match Unescape(t[..m])
      case None => None
      case Some(text) =>
        match Expect(t[m..], CloseTag(name))
        case None => None
        case Some(rest) => Some((Leaf(name, attrs, text), rest))
    else if exists i :: 0 <= i < m && !Layout(t[i]) then None
    else
      match ReadElements(t[m..])
      case None => None
      case Some((children, rest)) =>
        match Expect(rest, CloseTag(name))
        case None => None
        case Some(rest') => Some((Node(name, attrs, children), rest'))
  }

  /** Elements up to a closing tag. */
  function ReadElements(t: string): (r: Option<(seq<Xml>, string)>)
    ensures r.Some? ==> |r.value.1| <= |t|
    decreases |t|, 1
  {
    if AtClose(t) then Some(([], t))
    else
      match ReadElement(t)
      case None => None
      case Some((x, rest)) =>
        match ReadElements(SkipLayout(rest))
        case None => None
        case Some((more, rest')) => Some(([x] + more, rest'))
  }

  // ---- reading undoes printing ----

  lemma Assoc3(a: string, b: string, c: string)
    ensures a + b + c == a + (b + c)
  {
  }

  lemma {:induction false} NameThen(name: string, rest: string)
    requires IsName(name) && (rest == "" || !NameChar(rest[0]))
    ensures NameLen(name + rest) == |name| && (name + rest)[..|name|] == name && (name + rest)[|name|..] == rest
  {
    var t := name + rest;
    assert forall i :: 0 <= i < |name| ==> t[i] == name[i] && NameChar(t[i]);
    assert |rest| > 0 ==> t[|name|] == rest[0];
  }

  lemma ExpectThen(s: string, rest: string)
    ensures Expect(s + rest, s) == Some(rest)
  {
  }

  lemma AttrThen(a: Attr, rest: string)
    requires IsName(a.name)
    ensures ReadAttr(AttrText(a)[1..] + rest) == Some((a, rest))
  {
    var value := Escape(a.value);
    var v := value + ['"'] + rest;
    var t := a.name + (['=', '"'] + v);
    assert AttrText(a)[1..] + rest == t;
    NameThen(a.name, ['=', '"'] + v);
    ExpectThen(['=', '"'], v);
    EscapeIsInert(a.value);
    EscapeRoundTrip(a.value);
    UntilIs(value, '"', rest);
    assert v[..|value|] == value && v[|value| + 1..] == rest;
  }

  lemma AttrsStep(t: string, a: Attr, u: string, more: seq<Attr>, rest: string)
    requires t != "" && t[0] == ' ' && ReadAttr(t[1..]) == Some((a, u)) && ReadAttrs(u) == Some((more, rest))
    ensures ReadAttrs(t) == Some(([a] + more, rest))
  {
  }

  lemma AttrsSplit(attrs: seq<Attr>, rest: string)
    requires attrs != []
    ensures Attrs(attrs) + rest == AttrText(attrs[0]) + (Attrs(attrs[1..]) + rest)
    ensures attrs == [attrs[0]] + attrs[1..]
  {
    Assoc3(AttrText(attrs[0]), Attrs(attrs[1..]), rest);
  }

  lemma AttrTextSplits(a: Attr, u: string)
    ensures (AttrText(a) + u)[0] == ' ' && (AttrText(a) + u)[1..] == AttrText(a)[1..] + u
  {
  }

  lemma {:induction false} AttrsThen(attrs: seq<Attr>, rest: string)
    requires (forall a :: a in attrs ==> IsName(a.name)) && (rest == "" || rest[0] != ' ')
    ensures ReadAttrs(Attrs(attrs) + rest) == Some((attrs, rest))
  {
    if attrs == [] { assert Attrs(attrs) + rest == rest; }
    else {
      var a, more := attrs[0], attrs[1..];
      AttrsThen(more, rest);
      var u := Attrs(more) + rest;
      AttrThen(a, u);
      AttrsSplit(attrs, rest);
      AttrTextSplits(a, u);
      AttrsStep(AttrText(a) + u, a, u, more, rest);
    }
  }

  /** The first character of the attributes, or of what follows them, ends the element's name. */
  lemma AttrsStart(attrs: seq<Attr>, rest: string)
    requires rest != "" && !NameChar(rest[0])
    ensures Attrs(attrs) + rest != "" && !NameChar((Attrs(attrs) + rest)[0])
  {
    if attrs != [] { assert AttrText(attrs[0])[0] == ' '; }
  }

  lemma ElementStep(t: string, u: string, name: string, attrs: seq<Attr>, body: string)
    requires t != "" && t[0] == '<' && t[1..] == name + u && name != ""
    requires NameLen(name + u) == |name| && (name + u)[..|name|] == name && (name + u)[|name|..] == u
    requires ReadAttrs(u) == Some((attrs, body))
    ensures ReadElement(t) == ReadBody(name, attrs, body)
  {
  }

  lemma ElementThen(x: Xml, body: string)
    requires NamedWell(x.name, x.attrs) && body != "" && !NameChar(body[0]) && body[0] != ' '
    ensures ReadElement(Open(x) + body) == ReadBody(x.name, x.attrs, body)
  {
    var u := Attrs(x.attrs) + body;
    var t := Open(x) + body;
    OpenSplits(x, body);
    AttrsStart(x.attrs, body);
    NameThen(x.name, u);
    AttrsThen(x.attrs, body);
    ElementStep(t, u, x.name, x.attrs, body);
  }

  lemma OpenSplits(x: Xml, body: string)
    ensures (Open(x) + body)[0] == '<' && (Open(x) + body)[1..] == x.name + (Attrs(x.attrs) + body)
  {
  }

  lemma LeafThen(x: Xml, rest: string)
    requires x.Leaf?
    ensures ReadContent(x.name, x.attrs, Escape(x.text) + CloseTag(x.name) + rest) == Some((x, rest))
  {
    var e := Escape(x.text);
    var tail := CloseTag(x.name) + rest;
    var t := e + CloseTag(x.name) + rest;
    Assoc3(e, CloseTag(x.name), rest);
    assert t == e + ['<'] + tail[1..];
    EscapeIsInert(x.text);
    EscapeRoundTrip(x.text);
    UntilIs(e, '<', tail[1..]);
    assert t[..|e|] == e && t[|e|..] == tail;
    ExpectThen(CloseTag(x.name), rest);
  }

  lemma {:induction false} IndentIsLayout(depth: nat)
    ensures forall c :: c in Indent(depth) ==> Layout(c)
  {
    if depth > 0 { IndentIsLayout(depth - 1); }
  }

  lemma {:induction false} LayoutThen(space: string, rest: string)
    requires (forall c :: c in space ==> Layout(c)) && rest != "" && !Layout(rest[0])
    ensures SkipLayout(space + rest) == rest
  {
    if space == "" { assert space + rest == rest; }
    else {
      assert (space + rest)[1..] == space[1..] + rest;
      LayoutThen(space[1..], rest);
    }
  }

  /** A node's content is layout and its children; `inside` starts with the first child's tag. */
  lemma NodeThen(x: Xml, space: string, inside: string, rest: string)
    requires x.Node? && (forall c :: c in space ==> Layout(c)) && |inside| >= 2 && inside[0] == '<' && inside[1] != '/'
    requires ReadElements(inside) == Some((x.children, CloseTag(x.name) + rest))
    ensures ReadContent(x.name, x.attrs, space + inside) == Some((x, rest))
  {
    var t := space + inside;
    assert t == space + ['<'] + inside[1..];
    assert '<' !in space;
    UntilIs(space, '<', inside[1..]);
    assert t[|space|..] == inside;
    assert forall i :: 0 <= i < |space| ==> t[i] == space[i] && Layout(t[i]);
    ExpectThen(CloseTag(x.name), rest);
  }

  lemma InlineStarts(x: Xml, depth: nat, rest: string)
    requires NamedWell(x.name, x.attrs)
    ensures |Inline(x, depth) + rest| >= 2 && (Inline(x, depth) + rest)[0] == '<' && (Inline(x, depth) + rest)[1] == x.name[0]
    ensures NameChar(x.name[0])
  {
  }

  /** The children's text without its first indentation. */
  function Started(xs: seq<Xml>, depth: nat): string
    requires xs != []
  {
    Inline(xs[0], depth) + CRLF + Print(xs[1..], depth)
  }

  lemma PrintStarts(xs: seq<Xml>, depth: nat)
    requires xs != []
    ensures Print(xs, depth) == Indent(depth) + Started(xs, depth)
  {
  }

  lemma EmptyBody(name: string, attrs: seq<Attr>, rest: string)
    ensures ReadBody(name, attrs, ['/', '>'] + rest) == Some((Empty(name, attrs), rest))
  {
    ExpectThen(['/', '>'], rest);
  }

  lemma OpenBody(name: string, attrs: seq<Attr>, content: string)
    ensures ReadBody(name, attrs, ['>'] + content) == ReadContent(name, attrs, content)
  {
    ExpectThen(['>'], content);
    assert (['>'] + content)[0] == '>';
  }

  /** The text of a node's content: layout up to the first child, the children, the closing tag. */
  lemma NodeSplits(x: Xml, depth: nat, rest: string)
    requires x.Node? && x.children != []
    ensures Content(x, depth) + CloseTag(x.name) + rest
         == (CRLF + Indent(depth + 1)) + (Started(x.children, depth + 1) + (Indent(depth) + (CloseTag(x.name) + rest)))
  {
    PrintStarts(x.children, depth + 1);
  }

  lemma InlineSplits(x: Xml, depth: nat, rest: string)
    requires !x.Empty?
    ensures Inline(x, depth) + rest == Open(x) + (['>'] + (Content(x, depth) + CloseTag(x.name) + rest))
  {
  }

  lemma EmptyRoundTrip(x: Xml, depth: nat, rest: string)
    requires x.Empty? && NamedWell(x.name, x.attrs)
    ensures ReadElement(Inline(x, depth) + rest) == Some((x, rest))
  {
    Assoc3(Open(x), ['/', '>'], rest);
    ElementThen(x, ['/', '>'] + rest);
    EmptyBody(x.name, x.attrs, rest);
  }

  lemma ReadsByContent(x: Xml, depth: nat, rest: string)
    requires !x.Empty? && NamedWell(x.name, x.attrs)
    requires ReadContent(x.name, x.attrs, Content(x, depth) + CloseTag(x.name) + rest) == Some((x, rest))
    ensures ReadElement(Inline(x, depth) + rest) == Some((x, rest))
  {
    var content := Content(x, depth) + CloseTag(x.name) + rest;
    InlineSplits(x, depth, rest);
    ElementThen(x, ['>'] + content);
    OpenBody(x.name, x.attrs, content);
  }

  lemma NodeContent(x: Xml, depth: nat, rest: string)
    requires x.Node? && x.children != [] && NamedWell(x.children[0].name, x.children[0].attrs)
    requires ReadElements(Started(x.children, depth + 1) + (Indent(depth) + (CloseTag(x.name) + rest)))
          == Some((x.children, CloseTag(x.name) + rest))
    ensures ReadContent(x.name, x.attrs, Content(x, depth) + CloseTag(x.name) + rest) == Some((x, rest))
  {
    var after := Indent(depth) + (CloseTag(x.name) + rest);
    NodeSplits(x, depth, rest);
    IndentIsLayout(depth + 1);
    StartedStarts(x.children, depth + 1, after);
    NodeThen(x, CRLF + Indent(depth + 1), Started(x.children, depth + 1) + after, rest);
  }

  /** Reading the text of an element gives the element, and leaves what follows it. */
  lemma {:induction false} ElementRoundTrip(x: Xml, depth: nat, rest: string)
    requires WellFormed(x)
    ensures ReadElement(Inline(x, depth) + rest) == Some((x, rest))
    decreases x, 0
  {
    if x.Empty? { EmptyRoundTrip(x, depth, rest); }
    else {
      if x.Leaf? { LeafThen(x, rest); }
      else {
        ChildrenRoundTrip(x.children, depth + 1, depth, CloseTag(x.name) + rest);
        assert x.children[0] in x.children;
        NodeContent(x, depth, rest);
      }
      ReadsByContent(x, depth, rest);
    }
  }

  lemma StartedStarts(xs: seq<Xml>, depth: nat, after: string)
    requires xs != [] && NamedWell(xs[0].name, xs[0].attrs)
    ensures Started(xs, depth) + after == Inline(xs[0], depth) + (CRLF + Print(xs[1..], depth) + after)
    ensures var t := Started(xs, depth) + after; |t| >= 2 && t[0] == '<' && NameChar(t[1])
  {
    InlineStarts(xs[0], depth, CRLF + Print(xs[1..], depth) + after);
    Assoc3(Inline(xs[0], depth), CRLF + Print(xs[1..], depth), after);
    Assoc3(Inline(xs[0], depth), CRLF, Print(xs[1..], depth));
  }

  lemma ElementsStep(t: string, x: Xml, u: string, more: seq<Xml>, tail: string)
    requires !AtClose(t) && ReadElement(t) == Some((x, u)) && ReadElements(SkipLayout(u)) == Some((more, tail))
    ensures ReadElements(t) == Some(([x] + more, tail))
  {
  }

  lemma {:induction false} ChildrenRoundTrip(xs: seq<Xml>, depth: nat, outer: nat, tail: string)
    requires xs != [] && (forall x :: x in xs ==> WellFormed(x)) && AtClose(tail)
    ensures ReadElements(Started(xs, depth) + (Indent(outer) + tail)) == Some((xs, tail))
    decreases xs, 1
  {
    var x, more := xs[0], xs[1..];
    var after := CRLF + Print(more, depth) + (Indent(outer) + tail);
    ElementRoundTrip(x, depth, after);
    StartedStarts(xs, depth, Indent(outer) + tail);
    if more == [] { LastThen(depth, outer, tail); }
    else {
      assert more[0] in xs;
      NextThen(more, depth, Indent(outer) + tail);
      ChildrenRoundTrip(more, depth, outer, tail);
    }
    ElementsStep(Started(xs, depth) + (Indent(outer) + tail), x, after, more, tail);
    assert xs == [x] + more;
  }

  /** Between the last child and the closing tag there is layout only. */
  lemma LastThen(depth: nat, outer: nat, tail: string)
    requires AtClose(tail)
    ensures SkipLayout(CRLF + Print([], depth) + (Indent(outer) + tail)) == tail
  {
    IndentIsLayout(outer);
    LayoutThen(CRLF + Indent(outer), tail);
    assert CRLF + Print([], depth) + (Indent(outer) + tail) == (CRLF + Indent(outer)) + tail;
  }

  /** Between two children there is layout only. */
  lemma NextThen(more: seq<Xml>, depth: nat, after: string)
    requires more != [] && NamedWell(more[0].name, more[0].attrs)
    ensures SkipLayout(CRLF + Print(more, depth) + after) == Started(more, depth) + after
  {
    PrintStarts(more, depth);
    IndentIsLayout(depth);
    StartedStarts(more, depth, after);
    LayoutThen(CRLF + Indent(depth), Started(more, depth) + after);
    Assoc3(CRLF, Indent(depth), Started(more, depth));
    Assoc3(CRLF + Indent(depth), Started(more, depth), after);
  }
}
