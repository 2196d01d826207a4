/** siprec_metadata_build: the document, appended piece by piece to the string buffer. */
module MetadataBuild {
  import opened Common
  import opened StringBuffer
  import opened XmlText
  import opened XmlTree
  import opened Metadata

  // ---- pieces of text ----

  /** A line's text with its opening tag and attributes pulled apart. */
  function TagStart(depth: nat, name: string): string { Indent(depth) + (['<'] + name) }

  function ClosingLine(depth: nat, name: string): string { Indent(depth) + CloseTag(name) + CRLF }

  lemma LeafLine(depth: nat, name: string, text: string)
    ensures Line(Leaf(name, [], text), depth) == (TagStart(depth, name) + ['>']) + Escape(text) + (CloseTag(name) + CRLF)
  {
    var x := Leaf(name, [], text);
    assert Open(x) == ['<'] + name;
    assert Inline(x, depth) == (['<'] + name) + ['>'] + Escape(text) + CloseTag(name);
  }

  lemma EmptyLine(depth: nat, name: string, attrs: seq<Attr>)
    ensures Line(Empty(name, attrs), depth) == TagStart(depth, name) + Attrs(attrs) + (['/', '>'] + CRLF)
  {
  }

  lemma NodeLine(depth: nat, name: string, attrs: seq<Attr>, children: seq<Xml>)
    ensures Line(Node(name, attrs, children), depth)
         == TagStart(depth, name) + Attrs(attrs) + (['>'] + CRLF) + Print(children, depth + 1) + ClosingLine(depth, name)
  {
    NodeInline(depth, name, attrs, children);
    Regroup(Indent(depth), ['<'] + name, Attrs(attrs), ['>'], CRLF, Print(children, depth + 1), Indent(depth), CloseTag(name));
  }

  lemma Regroup(i: string, t: string, a: string, g: string, c: string, b: string, e: string, k: string)
    ensures i + t + a + (g + c) + b + (e + k + c) == i + (t + a + g + (c + b + e) + k) + c
  {
  }

  lemma NodeInline(depth: nat, name: string, attrs: seq<Attr>, children: seq<Xml>)
    ensures Inline(Node(name, attrs, children), depth)
         == Open(Node(name, attrs, children)) + ['>'] + (CRLF + Print(children, depth + 1) + Indent(depth)) + CloseTag(name)
  {
  }

  lemma {:induction false} PrintSnoc(xs: seq<Xml>, x: Xml, depth: nat)
    ensures Print(xs + [x], depth) == Print(xs, depth) + Line(x, depth)
  {
    if xs == [] { assert xs + [x] == [x]; }
    else {
      assert (xs + [x])[0] == xs[0] && (xs + [x])[1..] == xs[1..] + [x];
      PrintSnoc(xs[1..], x, depth);
      Assoc3(Line(xs[0], depth), Print(xs[1..], depth), Line(x, depth));
    }
  }

  lemma {:induction false} AttrsSnoc(attrs: seq<Attr>, a: Attr)
    ensures Attrs(attrs + [a]) == Attrs(attrs) + AttrText(a)
  {
    if attrs == [] { assert attrs + [a] == [a]; }
    else {
      assert (attrs + [a])[0] == attrs[0] && (attrs + [a])[1..] == attrs[1..] + [a];
      AttrsSnoc(attrs[1..], a);
      Assoc3(AttrText(attrs[0]), Attrs(attrs[1..]), AttrText(a));
    }
  }

  lemma Sum3(base: string, a: string, b: string, c: string)
    ensures base + a + b + c == base + (a + b + c)
  {
  }

  // ---- appending ----

  /** One character of xml_escape_into. */
  method EscapeOne(sb: Buffer, c: char)
    requires sb.Valid()
    modifies sb, sb.data, sb.alloc
    ensures sb.Wrote(EscapeChar(c))
  {
    match c
    case '&' => sb.Append("&amp;");
    case '<' => sb.Append("&lt;");
    case '>' => sb.Append("&gt;");
    case '"' => sb.Append("&quot;");
    case '\'' => sb.Append("&apos;");
    case _ => sb.Append([c]);
  }

  /** xml_escape_into: NULL adds nothing. */
  method EscapeInto(sb: Buffer, s: Option<string>)
    requires sb.Valid()
    modifies sb, sb.data, sb.alloc
    ensures sb.Wrote(Escape(Given(s)))
  {
    if s.None? { return; }
    var t := s.value;
    ghost var was := sb.sent;
    for i := 0 to |t|
      invariant sb.Wrote(Escape(t[..i]))
    {
      Assoc3(was, Escape(t[..i]), EscapeChar(t[i]));
      assert t[..i + 1] == t[..i] + [t[i]];
      EscapeSnoc(t[..i], t[i]);
      EscapeOne(sb, t[i]);
    }
    assert t[..|t|] == t;
  }

  /** `<name>text</name>` on a line of its own. */
  method WriteLeaf(sb: Buffer, depth: nat, name: string, text: Option<string>)
    requires sb.Valid()
    modifies sb, sb.data, sb.alloc
    ensures sb.Wrote(Line(Leaf(name, [], Given(text)), depth))
  {
    LeafLine(depth, name, Given(text));
    Sum3(sb.sent, TagStart(depth, name) + ['>'], Escape(Given(text)), CloseTag(name) + CRLF);
    sb.AppendFormatted(TagStart(depth, name) + ['>']);
    EscapeInto(sb, text);
    sb.AppendFormatted(CloseTag(name) + CRLF);
  }

  /** ` name="value"`. */
  method WriteAttr(sb: Buffer, name: string, value: Option<string>)
    requires sb.Valid()
    modifies sb, sb.data, sb.alloc
    ensures sb.Wrote(AttrText(Attr(name, Given(value))))
  {
    Sum3(sb.sent, [' '] + name + ['=', '"'], Escape(Given(value)), ['"']);
    sb.AppendFormatted([' '] + name + ['=', '"']);
    EscapeInto(sb, value);
    sb.AppendFormatted(['"']);
  }

  /** The end of an element whose attributes are written: closed at once, or around one leaf when there is text. */
  method WriteOptionalBody(sb: Buffer, depth: nat, name: string, child: string, text: Option<string>)
    requires sb.Valid()
    modifies sb, sb.data, sb.alloc
    ensures sb.Wrote(OptionalBody(depth, name, child, Given(text)))
  {
    if Given(text) != "" {
      Sum3(sb.sent, ['>'] + CRLF, Line(Leaf(child, [], Given(text)), depth + 1), ClosingLine(depth, name));
      sb.AppendFormatted(['>'] + CRLF);
      WriteLeaf(sb, depth + 1, child, text);
      sb.AppendFormatted(ClosingLine(depth, name));
    } else {
      sb.AppendFormatted(['/', '>'] + CRLF);
    }
  }

  function OptionalBody(depth: nat, name: string, child: string, text: string): string {
    if text != "" then (['>'] + CRLF) + Line(Leaf(child, [], text), depth + 1) + ClosingLine(depth, name)
    else ['/', '>'] + CRLF
  }

  lemma OptionalLine(depth: nat, name: string, attrs: seq<Attr>, child: string, text: string)
    ensures Line(Optional(name, attrs, child, text), depth)
         == TagStart(depth, name) + Attrs(attrs) + OptionalBody(depth, name, child, text)
  {
    if text == "" { EmptyLine(depth, name, attrs); }
    else {
      var leaf := Leaf(child, [], text);
      NodeLine(depth, name, attrs, [leaf]);
      assert Print([leaf], depth + 1) == Line(leaf, depth + 1);
      Sum3(TagStart(depth, name) + Attrs(attrs), ['>'] + CRLF, Line(leaf, depth + 1), ClosingLine(depth, name));
    }
  }

  // ---- the elements of the document ----

  lemma OneAttr(a: Attr)
    ensures Attrs([a]) == AttrText(a)
  {
    assert [a][1..] == [];
  }

  lemma TwoAttrs(a: Attr, b: Attr)
    ensures Attrs([a, b]) == AttrText(a) + AttrText(b)
  {
    assert [a, b][1..] == [b];
    OneAttr(b);
  }

  /** An element with one attribute and at most one leaf. */
  method WriteOptional1(sb: Buffer, depth: nat, name: string, attr: string, value: Option<string>, child: string, text: Option<string>)
    requires sb.Valid()
    modifies sb, sb.data, sb.alloc
    ensures sb.Wrote(Line(Optional(name, [Attr(attr, Given(value))], child, Given(text)), depth))
  {
    var a := Attr(attr, Given(value));
    OneAttr(a);
    OptionalLine(depth, name, [a], child, Given(text));
    Sum3(sb.sent, TagStart(depth, name), AttrText(a), OptionalBody(depth, name, child, Given(text)));
    sb.AppendFormatted(TagStart(depth, name));
    WriteAttr(sb, attr, value);
    WriteOptionalBody(sb, depth, name, child, text);
  }

  /** An element with two attributes and at most one leaf. */
  method WriteOptional2(sb: Buffer, depth: nat, name: string, attr: string, value: Option<string>,
                        attr2: string, value2: Option<string>, child: string, text: Option<string>)
    requires sb.Valid()
    modifies sb, sb.data, sb.alloc
    ensures sb.Wrote(Line(Optional(name, [Attr(attr, Given(value)), Attr(attr2, Given(value2))], child, Given(text)), depth))
  {
    var a, b := Attr(attr, Given(value)), Attr(attr2, Given(value2));
    TwoAttrs(a, b);
    OptionalLine(depth, name, [a, b], child, Given(text));
    Sum3(sb.sent, TagStart(depth, name), AttrText(a) + AttrText(b), OptionalBody(depth, name, child, Given(text)));
    sb.AppendFormatted(TagStart(depth, name));
    Assoc3(sb.sent, AttrText(a), AttrText(b));
    WriteAttr(sb, attr, value);
    WriteAttr(sb, attr2, value2);
    WriteOptionalBody(sb, depth, name, child, text);
  }

  /** A node's opening tag, with its one attribute, on a line of its own. */
  method WriteOpening(sb: Buffer, name: string, attr: string, value: Option<string>)
    requires sb.Valid()
    modifies sb, sb.data, sb.alloc
    ensures sb.Wrote(Opening(name, Attr(attr, Given(value))))
  {
    Sum3(sb.sent, TagStart(1, name), AttrText(Attr(attr, Given(value))), ['>'] + CRLF);
    sb.AppendFormatted(TagStart(1, name));
    WriteAttr(sb, attr, value);
    sb.AppendFormatted(['>'] + CRLF);
  }

  function Opening(name: string, a: Attr): string { TagStart(1, name) + AttrText(a) + (['>'] + CRLF) }

  lemma NodeOfOne(name: string, a: Attr, children: seq<Xml>)
    ensures Line(Node(name, [a], children), 1) == Opening(name, a) + Print(children, 2) + ClosingLine(1, name)
  {
    OneAttr(a);
    NodeLine(1, name, [a], children);
  }

  /** <participant> with its <nameID>. */
  method WriteParticipant(sb: Buffer, p: Participant)
    requires sb.Valid()
    modifies sb, sb.data, sb.alloc
    ensures sb.Wrote(Line(ParticipantEl(p), 1))
  {
    var a := Attr("participant_id", Given(p.id));
    ghost var nameId := Optional("nameID", [Attr("aor", Given(p.aor))], "name", Given(p.display));
    NodeOfOne("participant", a, [nameId]);
    OnePrinted(nameId, 2);
    Sum3(sb.sent, Opening("participant", a), Line(nameId, 2), ClosingLine(1, "participant"));
    WriteOpening(sb, "participant", "participant_id", p.id);
    WriteOptional1(sb, 2, "nameID", "aor", p.aor, "name", p.display);
    sb.AppendFormatted(ClosingLine(1, "participant"));
  }

  lemma OnePrinted(x: Xml, depth: nat)
    ensures Print([x], depth) == Line(x, depth)
  {
    assert [x][1..] == [];
  }

  /** <participantstreamassoc>. */
  method WriteStreamAssoc(sb: Buffer, o: Options, s: Stream)
    requires sb.Valid() && s.participant < |o.participants|
    modifies sb, sb.data, sb.alloc
    ensures sb.Wrote(Line(StreamAssoc(o, s), 1))
  {
    var p := o.participants[s.participant];
    var a := Attr("participant_id", Given(p.id));
    ghost var leaf := Leaf(ModeName(s.mode), [], Given(s.id));
    NodeOfOne("participantstreamassoc", a, [leaf]);
    OnePrinted(leaf, 2);
    Sum3(sb.sent, Opening("participantstreamassoc", a), Line(leaf, 2), ClosingLine(1, "participantstreamassoc"));
    WriteOpening(sb, "participantstreamassoc", "participant_id", p.id);
    WriteLeaf(sb, 2, ModeName(s.mode), s.id);
    sb.AppendFormatted(ClosingLine(1, "participantstreamassoc"));
  }

  /** A leaf that is left out when there is no text. */
  method WriteLeafIf(sb: Buffer, name: string, text: Option<string>)
    requires sb.Valid()
    modifies sb, sb.data, sb.alloc
    ensures sb.Wrote(Print(OptionalLeaf(name, Given(text)), 2))
  {
    if Given(text) != "" {
      OnePrinted(Leaf(name, [], Given(text)), 2);
      WriteLeaf(sb, 2, name, text);
    }
  }

  lemma {:induction false} PrintConcat(xs: seq<Xml>, ys: seq<Xml>, depth: nat)
    ensures Print(xs + ys, depth) == Print(xs, depth) + Print(ys, depth)
  {
    if xs == [] { assert xs + ys == ys; }
    else {
      assert (xs + ys)[0] == xs[0] && (xs + ys)[1..] == xs[1..] + ys;
      PrintConcat(xs[1..], ys, depth);
      Assoc3(Line(xs[0], depth), Print(xs[1..], depth), Print(ys, depth));
    }
  }

  /** The children of <session>, in schema order. */
  method WriteSessionBody(sb: Buffer, o: Options)
    requires sb.Valid()
    modifies sb, sb.data, sb.alloc
    ensures sb.Wrote(Print(SessionBody(o), 2))
  {
    ghost var reason, group := OptionalLeaf("reason", Given(o.reason)), OptionalLeaf("group-ref", Given(o.groupId));
    ghost var start := OptionalLeaf("start-time", Given(o.associateTime));
    PrintConcat(reason, group, 2);
    PrintConcat(reason + group, start, 2);
    Sum3(sb.sent, Print(reason, 2), Print(group, 2), Print(start, 2));
    WriteLeafIf(sb, "reason", o.reason);
    WriteLeafIf(sb, "group-ref", o.groupId);
    WriteLeafIf(sb, "start-time", o.associateTime);
  }

  /** <session>. */
  method WriteSession(sb: Buffer, o: Options)
    requires sb.Valid()
    modifies sb, sb.data, sb.alloc
    ensures sb.Wrote(Line(Session(o), 1))
  {
    var a := Attr("session_id", Given(o.sessionId));
    var hasBody := Given(o.reason) != "" || Given(o.groupId) != "" || Given(o.associateTime) != "";
    BodyOrNot(o);
    if !hasBody {
      OneAttr(a);
      EmptyLine(1, "session", [a]);
      Sum3(sb.sent, TagStart(1, "session"), AttrText(a), ['/', '>'] + CRLF);
      sb.AppendFormatted(TagStart(1, "session"));
      WriteAttr(sb, "session_id", o.sessionId);
      sb.AppendFormatted(['/', '>'] + CRLF);
    } else {
      NodeOfOne("session", a, SessionBody(o));
      Sum3(sb.sent, Opening("session", a), Print(SessionBody(o), 2), ClosingLine(1, "session"));
      WriteOpening(sb, "session", "session_id", o.sessionId);
      WriteSessionBody(sb, o);
      sb.AppendFormatted(ClosingLine(1, "session"));
    }
  }

  lemma BodyOrNot(o: Options)
    ensures SessionBody(o) == [] <==> Given(o.reason) == "" && Given(o.groupId) == "" && Given(o.associateTime) == ""
  {
  }

  // ---- the whole document ----

  /** validate_options. */
  method Validate(o: Options) returns (ok: bool)
    ensures ok == Valid(o)
    ensures ok <==>
      && o.sessionId !in {None, Some("")} && |o.participants| >= 1
      && (forall p :: p in o.participants ==> p.id !in {None, Some("")} && p.aor !in {None, Some("")})
      && (forall s :: s in o.streams ==> s.id !in {None, Some("")} && s.participant < |o.participants|)
  {
    if Given(o.sessionId) == "" { return false; }
    if |o.participants| == 0 { return false; }
    for i := 0 to |o.participants|
      invariant forall j :: 0 <= j < i ==> ValidParticipant(o.participants[j])
    {
      var p := o.participants[i];
      if Given(p.id) == "" { return false; }
      if Given(p.aor) == "" { return false; }
    }
    for i := 0 to |o.streams|
      invariant forall j :: 0 <= j < i ==> ValidStream(o.streams[j], |o.participants|)
    {
      var s := o.streams[i];
      if Given(s.id) == "" { return false; }
      if s.participant >= |o.participants| { return false; }
    }
    return true;
  }

  lemma PlainChar(c: char)
    requires Plain(c)
    ensures EscapeChar(c) == [c]
  {
  }

  /** A root element's opening line. */
  function RootTag(name: string, attr: string, value: string): string {
    (['<'] + name) + ([' '] + attr + ['=', '"'] + value + ['"']) + (['>'] + CRLF)
  }

  const ROOT := RootTag("recording", "xmlns", NAMESPACE)

  /** No reference stands for it. */
  predicate Plain(c: char) { 'a' <= c <= 'z' || c == ':' || c == '1' }

  lemma NamespaceIsPlain()
    ensures forall c :: c in NAMESPACE ==> Plain(c)
  {
  }

  lemma {:induction false} PlainText(s: string)
    requires forall c :: c in s ==> Plain(c)
    ensures Escape(s) == s
  {
    if s != "" {
      PlainText(s[..|s| - 1]);
      PlainChar(s[|s| - 1]);
      assert s == s[..|s| - 1] + [s[|s| - 1]];
    }
  }

  lemma RootIs(a: Attr)
    requires a == Attr("xmlns", NAMESPACE)
    ensures TagStart(0, "recording") + Attrs([a]) + (['>'] + CRLF) == ROOT
  {
    NamespaceIsPlain();
    PlainText(NAMESPACE);
    OneAttr(a);
    RootText("recording", a);
  }

  lemma RootText(name: string, a: Attr)
    requires Escape(a.value) == a.value
    ensures TagStart(0, name) + AttrText(a) + (['>'] + CRLF) == RootTag(name, a.name, a.value)
  {
  }

  lemma RootLine(o: Options)
    requires Valid(o)
    ensures Document(o) == SoFar(Children(o)) + ClosingLine(0, "recording")
  {
    NodeLine(0, "recording", [Attr("xmlns", NAMESPACE)], Children(o));
    RootIs(Attr("xmlns", NAMESPACE));
    Sum3(PROLOG, ROOT, Print(Children(o), 1), ClosingLine(0, "recording"));
  }

  lemma Grows(base: string, xs: seq<Xml>, x: Xml)
    ensures base + Print(xs, 1) + Line(x, 1) == base + Print(xs + [x], 1)
  {
    PrintSnoc(xs, x, 1);
    Assoc3(base, Print(xs, 1), Line(x, 1));
  }

  const DECLARED := "<?xml version=\"1.0\" encoding=\"UTF-8\"?>\r\n"
  const OPENED := "<recording xmlns=\"" + "urn:ietf:params:xml:ns:recording:1" + "\">\r\n"
  const CLOSED := "</recording>\r\n"

  /** Every document opens with the declaration and the recording element of RFC 7865, and ends by closing it. */
  lemma DocumentIsFramed(o: Options) returns (body: string)
    requires Valid(o)
    ensures Document(o) == DECLARED + OPENED + body + CLOSED
  {
    RootLine(o);
    FrameIs();
    body := Print(Children(o), 1);
  }

  lemma FrameIs()
    ensures PROLOG == DECLARED && ROOT == OPENED && ClosingLine(0, "recording") == CLOSED
  {
    RootPieces();
    ClosingIs();
  }

  lemma RootPieces()
    ensures ROOT == OPENED
  {
    NameOpens();
    AttributeOpens();
    assert ['"'] + (['>'] + CRLF) == "\">\r\n";
    FramePieces(['<'] + "recording", [' '] + "xmlns" + ['=', '"'], NAMESPACE, ['"'], ['>'] + CRLF);
  }

  lemma FramePieces(a: string, b: string, c: string, d: string, e: string)
    ensures a + (b + c + d) + e == a + b + c + (d + e)
  {
  }

  lemma NameOpens()
    ensures ['<'] + "recording" == "<recording" && "<recording" + " xmlns=\"" == "<recording xmlns=\""
  {
  }

  lemma AttributeOpens()
    ensures [' '] + "xmlns" + ['=', '"'] == " xmlns=\""
  {
  }

  lemma ClosingIs()
    ensures ClosingLine(0, "recording") == CLOSED
  {
    assert CloseTag("recording") == "</recording>";
    assert "" + "</recording>" + CRLF == CLOSED;
  }

  /** What has been written once the elements `xs` are. */
  ghost function SoFar(xs: seq<Xml>): string { PROLOG + ROOT + Print(xs, 1) }

  lemma DatamodeText(x: Xml)
    ensures "" + (PROLOG + ROOT) + Line(x, 1) == SoFar([x])
  {
    OnePrinted(x, 1);
  }

  /** The prolog, the root's opening tag and <datamode>. */
  method WriteRoot(sb: Buffer, o: Options)
    requires sb.Valid() && sb.sent == ""
    modifies sb, sb.data, sb.alloc
    ensures sb.Wrote(SoFar([Datamode(o)])) && (!sb.err ==> sb.data != null)
  {
    DatamodeText(Datamode(o));
    sb.AppendFormatted(PROLOG + ROOT);
    WriteLeaf(sb, 1, "datamode", Some(if o.partial then "partial" else "complete"));
  }

  /** <group>, when there is one. */
  method WriteGroup(sb: Buffer, o: Options, ghost done: seq<Xml>)
    requires sb.Valid() && sb.sent == SoFar(done)
    modifies sb, sb.data, sb.alloc
    ensures sb.Wrote(Print(Group(o), 1)) && sb.sent == SoFar(done + Group(o))
  {
    if Given(o.groupId) != "" {
      Grows(PROLOG + ROOT, done, Group(o)[0]);
      OnePrinted(Group(o)[0], 1);
      assert Group(o) == [Group(o)[0]];
      WriteOptional1(sb, 1, "group", "group_id", o.groupId, "associate-time", o.associateTime);
    } else {
      assert done + Group(o) == done;
    }
  }

  /** Everything before the lists: the prolog, the root's opening tag, <datamode>, <group> and <session>. */
  method WriteHead(sb: Buffer, o: Options)
    requires sb.Valid() && sb.sent == "" && !sb.err && Valid(o)
    modifies sb, sb.data, sb.alloc
    ensures At(sb, o, 3, 0) && (sb.data == old(sb.data) || fresh(sb.data))
  {
    WriteRoot(sb, o);
    WriteGroup(sb, o, [Datamode(o)]);
    Grows(PROLOG + ROOT, [Datamode(o)] + Group(o), Session(o));
    WriteSession(sb, o);
    FirstThree(o);
    PartBegins(o, 3);
  }

  lemma FirstThree(o: Options)
    requires Valid(o)
    ensures Flatten(Parts(o)[..3]) == [Datamode(o)] + Group(o) + [Session(o)]
  {
    FlattenThree(Parts(o));
  }

  lemma FlattenThree(parts: seq<seq<Xml>>)
    requires |parts| >= 3
    ensures Flatten(parts[..3]) == parts[0] + parts[1] + parts[2]
  {
    FlattenSnoc(parts, 0);
    FlattenSnoc(parts, 1);
    FlattenSnoc(parts, 2);
    assert parts[..0] == [] && [] + parts[0] == parts[0];
  }

  lemma {:induction false} FlattenSnoc(parts: seq<seq<Xml>>, k: nat)
    requires k < |parts|
    ensures Flatten(parts[..k + 1]) == Flatten(parts[..k]) + parts[k]
  {
    if k == 0 { assert parts[..1][1..] == []; assert parts[..0] == []; }
    else {
      assert parts[..k + 1][1..] == parts[1..][..k] && parts[..k][1..] == parts[1..][..k - 1];
      FlattenSnoc(parts[1..], k - 1);
      AssocXml(parts[0], Flatten(parts[1..][..k - 1]), parts[k]);
    }
  }

  /** One more element of the k-th part. */
  lemma NextOfPart(o: Options, k: nat, i: nat)
    requires Valid(o) && k < |PART_NAMES| && i < |Parts(o)[k]|
    ensures SoFar(Flatten(Parts(o)[..k]) + Parts(o)[k][..i]) + Line(Parts(o)[k][i], 1)
         == SoFar(Flatten(Parts(o)[..k]) + Parts(o)[k][..i + 1])
  {
    var done, part := Flatten(Parts(o)[..k]), Parts(o)[k];
    assert part[..i + 1] == part[..i] + [part[i]];
    AssocXml(done, part[..i], [part[i]]);
    Grows(PROLOG + ROOT, done + part[..i], part[i]);
  }

  lemma PartBegins(o: Options, k: nat)
    requires Valid(o) && k < |PART_NAMES|
    ensures Flatten(Parts(o)[..k]) + Parts(o)[k][..0] == Flatten(Parts(o)[..k])
  {
  }

  lemma PartEnds(o: Options, k: nat)
    requires Valid(o) && k < |PART_NAMES|
    ensures Flatten(Parts(o)[..k]) + Parts(o)[k][..|Parts(o)[k]|] == Flatten(Parts(o)[..k + 1])
  {
    FlattenSnoc(Parts(o), k);
    assert Parts(o)[k][..|Parts(o)[k]|] == Parts(o)[k];
  }

  /** `part` elements of part `k` are out, and nothing has gone wrong that was not refused. */
  ghost predicate At(sb: Buffer, o: Options, k: nat, i: nat)
    reads sb, sb.data
    requires Valid(o) && k < |PART_NAMES| && i <= |Parts(o)[k]|
  {
    && sb.Valid() && sb.sent == SoFar(Flatten(Parts(o)[..k]) + Parts(o)[k][..i])
    && (!sb.err ==> sb.data != null)
    && (sb.alloc.Generous() && |sb.sent| < MAX_CAP ==> !sb.err)
  }

  method WriteParticipants(sb: Buffer, o: Options)
    requires Valid(o) && At(sb, o, 3, 0)
    modifies sb, sb.data, sb.alloc
    ensures At(sb, o, 3, |o.participants|) && (sb.data == old(sb.data) || fresh(sb.data))
  {
    for i := 0 to |o.participants|
      invariant At(sb, o, 3, i) && (sb.data == old(sb.data) || fresh(sb.data))
    {
      NextOfPart(o, 3, i);
      WriteParticipant(sb, o.participants[i]);
    }
  }

  method WriteStreams(sb: Buffer, o: Options)
    requires Valid(o) && At(sb, o, 4, 0)
    modifies sb, sb.data, sb.alloc
    ensures At(sb, o, 4, |o.streams|) && (sb.data == old(sb.data) || fresh(sb.data))
  {
    for i := 0 to |o.streams|
      invariant At(sb, o, 4, i) && (sb.data == old(sb.data) || fresh(sb.data))
    {
      NextOfPart(o, 4, i);
      var s := o.streams[i];
      WriteOptional2(sb, 1, "stream", "stream_id", s.id, "session_id", o.sessionId, "label", s.labelText);
    }
  }

  method WriteSessionAssocs(sb: Buffer, o: Options)
    requires Valid(o) && At(sb, o, 5, 0)
    modifies sb, sb.data, sb.alloc
    ensures At(sb, o, 5, |o.participants|) && (sb.data == old(sb.data) || fresh(sb.data))
  {
    for i := 0 to |o.participants|
      invariant At(sb, o, 5, i) && (sb.data == old(sb.data) || fresh(sb.data))
    {
      NextOfPart(o, 5, i);
      WriteOptional2(sb, 1, "participantsessionassoc", "participant_id", o.participants[i].id,
                     "session_id", o.sessionId, "associate-time", o.associateTime);
    }
  }

  method WriteStreamAssocs(sb: Buffer, o: Options)
    requires Valid(o) && At(sb, o, 6, 0)
    modifies sb, sb.data, sb.alloc
    ensures At(sb, o, 6, |o.streams|) && (sb.data == old(sb.data) || fresh(sb.data))
  {
    for i := 0 to |o.streams|
      invariant At(sb, o, 6, i) && (sb.data == old(sb.data) || fresh(sb.data))
    {
      NextOfPart(o, 6, i);
      WriteStreamAssoc(sb, o, o.streams[i]);
    }
  }

  /** siprec_metadata_build: nothing for invalid options or refused memory, otherwise the document, terminated. */
  method Build(o: Options, alloc: Allocator) returns (text: array?<char>)
    modifies alloc
    ensures !Valid(o) ==> text == null
    ensures text != null ==> |Document(o)| < text.Length && text[..|Document(o)|] == Document(o) && text[|Document(o)|] == '\0'
    ensures Valid(o) && alloc.Generous() && |Document(o)| < 64 * 1024 * 1024 ==> text != null
  {
    var ok := Validate(o);
    if !ok { return null; }
    RootLine(o);
    var sb := new Buffer(alloc);
    WriteHead(sb, o);
    WriteLists(sb, o);
    sb.AppendFormatted(ClosingLine(0, "recording"));
    text := sb.Take();
  }

  /** One entry per participant, stream, participant and stream. */
  method WriteLists(sb: Buffer, o: Options)
    requires Valid(o) && At(sb, o, 3, 0)
    modifies sb, sb.data, sb.alloc
    ensures sb.Valid() && sb.sent == SoFar(Children(o)) && (!sb.err ==> sb.data != null)
    ensures sb.alloc.Generous() && |sb.sent| < MAX_CAP ==> !sb.err
    ensures sb.data == old(sb.data) || fresh(sb.data)
  {
    WriteDeclared(sb, o);
    WriteAssocs(sb, o);
    PartEnds(o, 6);
    assert Parts(o)[..7] == Parts(o);
  }

  method WriteDeclared(sb: Buffer, o: Options)
    requires Valid(o) && At(sb, o, 3, 0)
    modifies sb, sb.data, sb.alloc
    ensures At(sb, o, 5, 0) && (sb.data == old(sb.data) || fresh(sb.data))
  {
    WriteParticipants(sb, o);
    NextPart(o, 3);
    WriteStreams(sb, o);
    NextPart(o, 4);
  }

  method WriteAssocs(sb: Buffer, o: Options)
    requires Valid(o) && At(sb, o, 5, 0)
    modifies sb, sb.data, sb.alloc
    ensures At(sb, o, 6, |Parts(o)[6]|) && (sb.data == old(sb.data) || fresh(sb.data))
  {
    WriteSessionAssocs(sb, o);
    NextPart(o, 5);
    WriteStreamAssocs(sb, o);
  }

  /** A part that is all out is where the next one begins. */
  lemma NextPart(o: Options, k: nat)
    requires Valid(o) && k + 1 < |PART_NAMES|
    ensures Flatten(Parts(o)[..k]) + Parts(o)[k][..|Parts(o)[k]|] == Flatten(Parts(o)[..k + 1]) + Parts(o)[k + 1][..0]
  {
    PartEnds(o, k);
    PartBegins(o, k + 1);
  }
}
