/** The recording metadata of RFC 7865: the document for a set of options, and what a reader gets back from it. */
module Metadata {
  import opened Common
  import opened XmlTree

  datatype Mode = Send | Recv

  /** NULL is `None`. */
  datatype Participant = Participant(id: Option<string>, aor: Option<string>, display: Option<string>)

  datatype Stream = Stream(id: Option<string>, participant: nat, mode: Mode, labelText: Option<string>)

  datatype Options = Options(sessionId: Option<string>, groupId: Option<string>, associateTime: Option<string>,
                             partial: bool, reason: Option<string>,
                             participants: seq<Participant>, streams: seq<Stream>)

  /** NULL and the empty string are the same to the builder. */
  function Given(s: Option<string>): string { match s case None => "" case Some(t) => t }

  predicate ValidParticipant(p: Participant) { Given(p.id) != "" && Given(p.aor) != "" }

  predicate ValidStream(s: Stream, count: nat) { Given(s.id) != "" && s.participant < count }

  /** validate_options. */
  predicate Valid(o: Options) {
    && Given(o.sessionId) != "" && |o.participants| > 0
    && (forall i :: 0 <= i < |o.participants| ==> ValidParticipant(o.participants[i]))
    && (forall i :: 0 <= i < |o.streams| ==> ValidStream(o.streams[i], |o.participants|))
  }

  // ---- the document ----

  const PROLOG := "<?xml version=\"1.0\" encoding=\"UTF-8\"?>\r\n"
  const NAMESPACE := "urn:ietf:params:xml:ns:recording:1"

  /** An element with a text child, or none when there is no text. */
  function Optional(name: string, attrs: seq<Attr>, child: string, text: string): Xml {
    if text == "" then Empty(name, attrs) else Node(name, attrs, [Leaf(child, [], text)])
  }

  function OptionalLeaf(name: string, text: string): seq<Xml> { if text == "" then [] else [Leaf(name, [], text)] }

  function Datamode(o: Options): Xml { Leaf("datamode", [], if o.partial then "partial" else "complete") }

  function Group(o: Options): seq<Xml> {
    if Given(o.groupId) == "" then []
    else [Optional("group", [Attr("group_id", Given(o.groupId))], "associate-time", Given(o.associateTime))]
  }

  function SessionBody(o: Options): seq<Xml> {
    OptionalLeaf("reason", Given(o.reason)) + OptionalLeaf("group-ref", Given(o.groupId))
    + OptionalLeaf("start-time", Given(o.associateTime))
  }

  function Session(o: Options): Xml {
    var attrs := [Attr("session_id", Given(o.sessionId))];
    if SessionBody(o) == [] then Empty("session", attrs) else Node("session", attrs, SessionBody(o))
  }

  function ParticipantEl(p: Participant): Xml {
    Node("participant", [Attr("participant_id", Given(p.id))],
         [Optional("nameID", [Attr("aor", Given(p.aor))], "name", Given(p.display))])
  }

  function StreamEl(o: Options, s: Stream): Xml {
    Optional("stream", [Attr("stream_id", Given(s.id)), Attr("session_id", Given(o.sessionId))], "label", Given(s.labelText))
  }

  function SessionAssoc(o: Options, p: Participant): Xml {
    Optional("participantsessionassoc", [Attr("participant_id", Given(p.id)), Attr("session_id", Given(o.sessionId))],
             "associate-time", Given(o.associateTime))
  }

  function ModeName(m: Mode): string { match m case Send => "send" case Recv => "recv" }

  function StreamAssoc(o: Options, s: Stream): Xml
    requires s.participant < |o.participants|
  {
    Node("participantstreamassoc", [Attr("participant_id", Given(o.participants[s.participant].id))],
         [Leaf(ModeName(s.mode), [], Given(s.id))])
  }

  function Participants(o: Options): seq<Xml> {
    seq(|o.participants|, i requires 0 <= i < |o.participants| => ParticipantEl(o.participants[i]))
  }

  function Streams(o: Options): seq<Xml> {
    seq(|o.streams|, i requires 0 <= i < |o.streams| => StreamEl(o, o.streams[i]))
  }

  function SessionAssocs(o: Options): seq<Xml> {
    seq(|o.participants|, i requires 0 <= i < |o.participants| => SessionAssoc(o, o.participants[i]))
  }

  function StreamAssocs(o: Options): seq<Xml>
    requires Valid(o)
  {
    seq(|o.streams|, i requires 0 <= i < |o.streams| => StreamAssoc(o, o.streams[i]))
  }

  /** The parts of the document in the order of the schema's sequence, and what their elements are called. */
  function Parts(o: Options): (ps: seq<seq<Xml>>)
    requires Valid(o)
    ensures |ps| == |PART_NAMES|
  {
    [[Datamode(o)], Group(o), [Session(o)], Participants(o), Streams(o), SessionAssocs(o), StreamAssocs(o)]
  }

  const PART_NAMES := ["datamode", "group", "session", "participant", "stream", "participantsessionassoc",
                       "participantstreamassoc"]

  function Flatten(parts: seq<seq<Xml>>): seq<Xml> { if parts == [] then [] else parts[0] + Flatten(parts[1..]) }

  function Children(o: Options): seq<Xml>
    requires Valid(o)
  {
    Flatten(Parts(o))
  }

  function Tree(o: Options): Xml
    requires Valid(o)
  {
    Node("recording", [Attr("xmlns", NAMESPACE)], Children(o))
  }

  function Document(o: Options): string
    requires Valid(o)
  {
    PROLOG + Line(Tree(o), 0)
  }

  // ---- reading it ----

  function ReadDocument(doc: string): Option<Xml> {
    match Expect(doc, PROLOG)
    case None => None
    case Some(t) =>
      match ReadElement(t)
      case None => None
      case Some((x, rest)) => if rest == CRLF then Some(x) else None
  }

  function AttrOf(attrs: seq<Attr>, name: string): string {
    if attrs == [] then "" else if attrs[0].name == name then attrs[0].value else AttrOf(attrs[1..], name)
  }

  function Kids(x: Xml): seq<Xml> { if x.Node? then x.children else [] }

  function NamedIn(xs: seq<Xml>, name: string): seq<Xml> {
    if xs == [] then []
    else (if xs[0].name == name then [xs[0]] else []) + NamedIn(xs[1..], name)
  }

  function FirstNamed(xs: seq<Xml>, name: string): Xml {
    if NamedIn(xs, name) == [] then Empty(name, []) else NamedIn(xs, name)[0]
  }

  function TextOf(x: Xml): string { if x.Leaf? then x.text else "" }

  /** The text of the first child of that name; empty when there is none. */
  function ChildText(x: Xml, name: string): string { TextOf(FirstNamed(Kids(x), name)) }

  datatype ReadParticipant = ReadParticipant(id: string, aor: string, display: string)

  datatype ReadStream = ReadStream(id: string, participantId: string, mode: Mode, labelText: string)

  /** The options as a recording server sees them: absent is empty, and a stream names its participant by ID. */
  datatype Summary = Summary(sessionId: string, groupId: string, associateTime: string, partial: bool, reason: string,
                             participants: seq<ReadParticipant>, streams: seq<ReadStream>)

  function ReadParticipantEl(x: Xml): ReadParticipant {
    var nameId := FirstNamed(Kids(x), "nameID");
    ReadParticipant(AttrOf(x.attrs, "participant_id"), AttrOf(nameId.attrs, "aor"), ChildText(nameId, "name"))
  }

  function ReadStreamEl(x: Xml, assoc: Xml): ReadStream {
    ReadStream(AttrOf(x.attrs, "stream_id"), AttrOf(assoc.attrs, "participant_id"),
               if NamedIn(Kids(assoc), "recv") != [] then Recv else Send, ChildText(x, "label"))
  }

  /** What a recording server makes of the tree; the i-th stream goes with the i-th stream association. */
  function Recover(x: Xml): Summary {
    var kids := Kids(x);
    var session := FirstNamed(kids, "session");
    var participants, streams := NamedIn(kids, "participant"), NamedIn(kids, "stream");
    var assocs := NamedIn(kids, "participantstreamassoc");
    Summary(AttrOf(session.attrs, "session_id"), AttrOf(FirstNamed(kids, "group").attrs, "group_id"),
            ChildText(session, "start-time"), ChildText(x, "datamode") == "partial", ChildText(session, "reason"),
            seq(|participants|, i requires 0 <= i < |participants| => ReadParticipantEl(participants[i])),
            seq(|streams|, i requires 0 <= i < |streams| =>
              ReadStreamEl(streams[i], if i < |assocs| then assocs[i] else Empty("", []))))
  }

  function SummaryOf(o: Options): Summary
    requires Valid(o)
  {
    Summary(Given(o.sessionId), Given(o.groupId), Given(o.associateTime), o.partial, Given(o.reason),
            seq(|o.participants|, i requires 0 <= i < |o.participants| =>
              ReadParticipant(Given(o.participants[i].id), Given(o.participants[i].aor), Given(o.participants[i].display))),
            seq(|o.streams|, i requires 0 <= i < |o.streams| =>
              ReadStream(Given(o.streams[i].id), Given(o.participants[o.streams[i].participant].id), o.streams[i].mode,
                         Given(o.streams[i].labelText))))
  }

  // ---- the tree is well formed ----

  lemma Names()
    ensures IsName("recording") && IsName("xmlns") && IsName("datamode") && IsName("group") && IsName("group_id")
    ensures IsName("session") && IsName("session_id") && IsName("reason") && IsName("group-ref") && IsName("start-time")
    ensures IsName("participant") && IsName("participant_id") && IsName("nameID") && IsName("aor") && IsName("name")
  {
    SessionNames();
    ParticipantNames();
  }

  lemma SessionNames()
    ensures IsName("session") && IsName("session_id") && IsName("reason") && IsName("group-ref") && IsName("start-time")
  {
  }

  lemma ParticipantNames()
    ensures IsName("participant") && IsName("participant_id") && IsName("nameID") && IsName("aor") && IsName("name")
  {
  }

  lemma StreamNames()
    ensures IsName("participant_id") && IsName("session_id") && IsName("stream") && IsName("stream_id") && IsName("label")
    ensures IsName("associate-time") && IsName("send") && IsName("recv")
    ensures IsName("participantsessionassoc") && IsName("participantstreamassoc")
  {
    SessionNames();
    ParticipantNames();
    AssocNames();
  }

  lemma AssocNames()
    ensures IsName("associate-time") && IsName("participantsessionassoc") && IsName("participantstreamassoc")
  {
  }

  lemma OptionalWellFormed(name: string, attrs: seq<Attr>, child: string, text: string)
    requires NamedWell(name, attrs) && IsName(child)
    ensures WellFormed(Optional(name, attrs, child, text))
  {
  }

  lemma SessionWellFormed(o: Options)
    ensures WellFormed(Session(o))
  {
    Names();
    assert forall x :: x in SessionBody(o) ==> x.Leaf? && IsName(x.name) && x.attrs == [];
  }

  lemma GroupWellFormed(o: Options)
    ensures forall x :: x in Group(o) ==> WellFormed(x)
  {
    Names();
    StreamNames();
    OptionalWellFormed("group", [Attr("group_id", Given(o.groupId))], "associate-time", Given(o.associateTime));
  }

  lemma ParticipantWellFormed(p: Participant)
    ensures WellFormed(ParticipantEl(p))
  {
    Names();
    OptionalWellFormed("nameID", [Attr("aor", Given(p.aor))], "name", Given(p.display));
  }

  lemma StreamWellFormed(o: Options, s: Stream)
    ensures WellFormed(StreamEl(o, s))
  {
    StreamNames();
    OptionalWellFormed("stream", StreamEl(o, s).attrs, "label", Given(s.labelText));
  }

  lemma SessionAssocWellFormed(o: Options, p: Participant)
    ensures WellFormed(SessionAssoc(o, p))
  {
    StreamNames();
    OptionalWellFormed("participantsessionassoc", SessionAssoc(o, p).attrs, "associate-time", Given(o.associateTime));
  }

  lemma StreamAssocWellFormed(o: Options, s: Stream)
    requires s.participant < |o.participants|
    ensures WellFormed(StreamAssoc(o, s))
  {
    StreamNames();
  }

  lemma TreeWellFormed(o: Options)
    requires Valid(o)
    ensures WellFormed(Tree(o))
  {
    Names();
    forall x | x in Children(o) ensures WellFormed(x) {
      InSomePart(Parts(o), x);
      var k :| 0 <= k < |PART_NAMES| && x in Parts(o)[k];
      PartWellFormed(o, k, x);
    }
    assert Children(o) != [] by { assert Parts(o)[0] == [Datamode(o)]; }
  }

  lemma {:induction false} InSomePart(parts: seq<seq<Xml>>, x: Xml)
    requires x in Flatten(parts)
    ensures exists k :: 0 <= k < |parts| && x in parts[k]
  {
    if x !in parts[0] {
      InSomePart(parts[1..], x);
      var k :| 0 <= k < |parts[1..]| && x in parts[1..][k];
      assert x in parts[k + 1];
    }
  }

  lemma PartWellFormed(o: Options, k: nat, x: Xml)
    requires Valid(o) && k < |PART_NAMES| && x in Parts(o)[k]
    ensures WellFormed(x)
  {
    if k < 3 { HeadWellFormed(o, k, x); } else { ListWellFormed(o, k, x); }
  }

  lemma HeadWellFormed(o: Options, k: nat, x: Xml)
    requires Valid(o) && k < 3 && x in Parts(o)[k]
    ensures WellFormed(x)
  {
    if k == 0 { Names(); }
    else if k == 1 { GroupWellFormed(o); }
    else { SessionWellFormed(o); }
  }

  lemma ListWellFormed(o: Options, k: nat, x: Xml)
    requires Valid(o) && 3 <= k < |PART_NAMES| && x in Parts(o)[k]
    ensures WellFormed(x)
  {
    if k == 3 {
      var i :| 0 <= i < |o.participants| && x == Participants(o)[i];
      ParticipantWellFormed(o.participants[i]);
    } else if k == 4 {
      var i :| 0 <= i < |o.streams| && x == Streams(o)[i];
      StreamWellFormed(o, o.streams[i]);
    } else if k == 5 {
      var i :| 0 <= i < |o.participants| && x == SessionAssocs(o)[i];
      SessionAssocWellFormed(o, o.participants[i]);
    } else {
      var i :| 0 <= i < |o.streams| && x == StreamAssocs(o)[i];
      StreamAssocWellFormed(o, o.streams[i]);
    }
  }

  // ---- reading gets everything back ----

  /** Whatever the options say, the document reads back as their tree. */
  lemma DocumentReads(o: Options)
    requires Valid(o)
    ensures ReadDocument(Document(o)) == Some(Tree(o))
  {
    TreeWellFormed(o);
    LineReads(Tree(o));
  }

  lemma LineReads(root: Xml)
    requires WellFormed(root)
    ensures ReadDocument(PROLOG + Line(root, 0)) == Some(root)
  {
    ExpectThen(PROLOG, Line(root, 0));
    assert Line(root, 0) == Inline(root, 0) + CRLF;
    ElementRoundTrip(root, 0, CRLF);
  }

  ghost predicate AllNamed(xs: seq<Xml>, name: string) { forall x :: x in xs ==> x.name == name }

  lemma {:induction false} PickAll(xs: seq<Xml>, name: string)
    requires AllNamed(xs, name)
    ensures NamedIn(xs, name) == xs
  {
    if xs != [] { PickAll(xs[1..], name); assert xs == [xs[0]] + xs[1..]; }
  }

  lemma {:induction false} PickNone(xs: seq<Xml>, called: string, name: string)
    requires AllNamed(xs, called) && |called| != |name|
    ensures NamedIn(xs, name) == []
  {
    if xs != [] { PickNone(xs[1..], called, name); }
  }

  lemma {:induction false} PickConcat(xs: seq<Xml>, ys: seq<Xml>, name: string)
    ensures NamedIn(xs + ys, name) == NamedIn(xs, name) + NamedIn(ys, name)
  {
    if xs == [] { assert xs + ys == ys; }
    else {
      assert (xs + ys)[0] == xs[0] && (xs + ys)[1..] == xs[1..] + ys;
      PickConcat(xs[1..], ys, name);
      AssocXml(if xs[0].name == name then [xs[0]] else [], NamedIn(xs[1..], name), NamedIn(ys, name));
    }
  }

  lemma AssocXml(a: seq<Xml>, b: seq<Xml>, c: seq<Xml>)
    ensures a + b + c == a + (b + c)
  {
  }

  /** Parts whose names have different lengths are told apart by name. */
  lemma {:induction false} PickPart(parts: seq<seq<Xml>>, names: seq<string>, k: nat)
    requires k < |parts| == |names|
    requires forall i :: 0 <= i < |parts| ==> AllNamed(parts[i], names[i])
    requires forall i, j :: 0 <= i < j < |names| ==> |names[i]| != |names[j]|
    ensures NamedIn(Flatten(parts), names[k]) == parts[k]
  {
    PickConcat(parts[0], Flatten(parts[1..]), names[k]);
    if k == 0 { PickAll(parts[0], names[0]); PickNoPart(parts[1..], names[1..], names[0]); }
    else { PickNone(parts[0], names[0], names[k]); PickPart(parts[1..], names[1..], k - 1); }
  }

  lemma {:induction false} PickNoPart(parts: seq<seq<Xml>>, names: seq<string>, name: string)
    requires |parts| == |names| && forall i :: 0 <= i < |parts| ==> AllNamed(parts[i], names[i]) && |names[i]| != |name|
    ensures NamedIn(Flatten(parts), name) == []
  {
    if parts != [] {
      PickConcat(parts[0], Flatten(parts[1..]), name);
      PickNone(parts[0], names[0], name);
      PickNoPart(parts[1..], names[1..], name);
    }
  }

  lemma PartIsNamed(o: Options, k: nat)
    requires Valid(o) && k < |PART_NAMES|
    ensures AllNamed(Parts(o)[k], PART_NAMES[k])
  {
    if k == 0 { } else if k == 1 { } else if k == 2 { } else if k == 3 { } else if k == 4 { } else if k == 5 { } else { }
  }

  lemma NamesDiffer()
    ensures forall i, j :: 0 <= i < j < |PART_NAMES| ==> |PART_NAMES[i]| != |PART_NAMES[j]|
  {
  }

  /** The children of the root called `PART_NAMES[k]` are exactly the k-th part. */
  lemma ChildrenNamed(o: Options, k: nat)
    requires Valid(o) && k < |PART_NAMES|
    ensures NamedIn(Children(o), PART_NAMES[k]) == Parts(o)[k]
  {
    forall i | 0 <= i < |PART_NAMES| ensures AllNamed(Parts(o)[i], PART_NAMES[i]) { PartIsNamed(o, i); }
    NamesDiffer();
    PickPart(Parts(o), PART_NAMES, k);
  }

  lemma SessionChildren(o: Options)
    ensures NamedIn(SessionBody(o), "reason") == OptionalLeaf("reason", Given(o.reason))
    ensures NamedIn(SessionBody(o), "group-ref") == OptionalLeaf("group-ref", Given(o.groupId))
    ensures NamedIn(SessionBody(o), "start-time") == OptionalLeaf("start-time", Given(o.associateTime))
  {
    var reason, group := OptionalLeaf("reason", Given(o.reason)), OptionalLeaf("group-ref", Given(o.groupId));
    var start := OptionalLeaf("start-time", Given(o.associateTime));
    PickThree(reason, group, start, "reason");
    PickThree(reason, group, start, "group-ref");
    PickThree(reason, group, start, "start-time");
    PickAll(reason, "reason");
    PickNone(group, "group-ref", "reason");
    PickNone(start, "start-time", "reason");
    PickNone(reason, "reason", "group-ref");
    PickAll(group, "group-ref");
    PickNone(start, "start-time", "group-ref");
    PickNone(reason, "reason", "start-time");
    PickNone(group, "group-ref", "start-time");
    PickAll(start, "start-time");
  }

  lemma PickThree(a: seq<Xml>, b: seq<Xml>, c: seq<Xml>, name: string)
    ensures NamedIn(a + b + c, name) == NamedIn(a, name) + NamedIn(b, name) + NamedIn(c, name)
  {
    PickConcat(a, b, name);
    PickConcat(a + b, c, name);
  }

  lemma SessionReads(o: Options)
    requires Valid(o)
    ensures AttrOf(Session(o).attrs, "session_id") == Given(o.sessionId)
    ensures ChildText(Session(o), "start-time") == Given(o.associateTime)
    ensures ChildText(Session(o), "reason") == Given(o.reason)
    ensures ChildText(Session(o), "group-ref") == Given(o.groupId)
  {
    SessionChildren(o);
    assert Kids(Session(o)) == SessionBody(o);
  }

  lemma ParticipantReads(p: Participant)
    ensures ReadParticipantEl(ParticipantEl(p)) == ReadParticipant(Given(p.id), Given(p.aor), Given(p.display))
  {
    var nameId := Optional("nameID", [Attr("aor", Given(p.aor))], "name", Given(p.display));
    assert NamedIn(Kids(ParticipantEl(p)), "nameID") == [nameId];
    OptionalReads("nameID", [Attr("aor", Given(p.aor))], "name", Given(p.display));
  }

  lemma OptionalReads(name: string, attrs: seq<Attr>, child: string, text: string)
    ensures ChildText(Optional(name, attrs, child, text), child) == text
  {
    PickAll(Kids(Optional(name, attrs, child, text)), child);
  }

  lemma ModeReads(m: Mode, text: string)
    ensures NamedIn([Leaf(ModeName(m), [], text)], "recv") != [] <==> m == Recv
  {
    assert "send"[0] != "recv"[0];
    assert ModeName(m) == "recv" <==> m == Recv;
    assert [Leaf(ModeName(m), [], text)][1..] == [];
  }

  lemma StreamReads(o: Options, s: Stream)
    requires s.participant < |o.participants|
    ensures ReadStreamEl(StreamEl(o, s), StreamAssoc(o, s))
         == ReadStream(Given(s.id), Given(o.participants[s.participant].id), s.mode, Given(s.labelText))
  {
    OptionalReads("stream", StreamEl(o, s).attrs, "label", Given(s.labelText));
    ModeReads(s.mode, Given(s.id));
  }

  /** What a recording server gets back is everything the options say, NULL and empty identified. */
  lemma RecoverTree(o: Options)
    requires Valid(o)
    ensures Recover(Tree(o)) == SummaryOf(o)
  {
    SessionReads(o);
    HeadReads(o);
    ParticipantsRead(o);
    StreamsRead(o);
  }

  lemma ParticipantsRead(o: Options)
    requires Valid(o)
    ensures Recover(Tree(o)).participants == SummaryOf(o).participants
  {
    ChildrenNamed(o, 3);
    forall i | 0 <= i < |o.participants|
      ensures ReadParticipantEl(Participants(o)[i]) == SummaryOf(o).participants[i]
    {
      ParticipantReads(o.participants[i]);
    }
  }

  lemma StreamsRead(o: Options)
    requires Valid(o)
    ensures Recover(Tree(o)).streams == SummaryOf(o).streams
  {
    ChildrenNamed(o, 4);
    ChildrenNamed(o, 6);
    forall i | 0 <= i < |o.streams|
      ensures ReadStreamEl(Streams(o)[i], StreamAssocs(o)[i]) == SummaryOf(o).streams[i]
    {
      StreamReads(o, o.streams[i]);
    }
  }

  lemma HeadReads(o: Options)
    requires Valid(o)
    ensures ChildText(Tree(o), "datamode") == (if o.partial then "partial" else "complete")
    ensures AttrOf(FirstNamed(Children(o), "group").attrs, "group_id") == Given(o.groupId)
    ensures FirstNamed(Children(o), "session") == Session(o)
  {
    ChildrenNamed(o, 0);
    ChildrenNamed(o, 1);
    ChildrenNamed(o, 2);
  }

  /** The metadata round trip: a recording server that reads the document recovers every field. */
  lemma DocumentRoundTrip(o: Options)
    requires Valid(o)
    ensures ReadDocument(Document(o)).Some? && Recover(ReadDocument(Document(o)).value) == SummaryOf(o)
  {
    DocumentReads(o);
    RecoverTree(o);
  }

  /** Two option sets with one document say the same; with distinct participant IDs, down to the streams' indexes. */
  lemma DocumentDetermines(o: Options, p: Options)
    requires Valid(o) && Valid(p) && Document(o) == Document(p)
    ensures SummaryOf(o) == SummaryOf(p)
    ensures (forall i, j :: 0 <= i < j < |o.participants| ==> Given(o.participants[i].id) != Given(o.participants[j].id)) ==>
      |o.streams| == |p.streams| && forall i :: 0 <= i < |o.streams| ==> o.streams[i].participant == p.streams[i].participant
  {
    DocumentRoundTrip(o);
    DocumentRoundTrip(p);
    assert |o.streams| == |SummaryOf(o).streams| == |SummaryOf(p).streams| == |p.streams|;
    assert |o.participants| == |SummaryOf(o).participants| == |SummaryOf(p).participants| == |p.participants|;
    if forall i, j :: 0 <= i < j < |o.participants| ==> Given(o.participants[i].id) != Given(o.participants[j].id) {
      forall i | 0 <= i < |o.streams| ensures o.streams[i].participant == p.streams[i].participant {
        var a, b := o.streams[i].participant, p.streams[i].participant;
        assert SummaryOf(o).streams[i].participantId == SummaryOf(p).streams[i].participantId;
        assert SummaryOf(o).participants[b].id == SummaryOf(p).participants[b].id;
        assert Given(o.participants[a].id) == Given(o.participants[b].id);
      }
    }
  }

  // ---- schema order and references ----

  lemma {:induction false} FlattenAt(parts: seq<seq<Xml>>, i: nat) returns (k: nat, at: nat)
    requires i < |Flatten(parts)|
    ensures k < |parts| && at < |parts[k]| && Flatten(parts)[i] == parts[k][at] && i == |Flatten(parts[..k])| + at
  {
    if i < |parts[0]| { k, at := 0, i; assert parts[..0] == []; }
    else {
      k, at := FlattenAt(parts[1..], i - |parts[0]|);
      assert parts[1..][..k] == parts[..k + 1][1..];
      k := k + 1;
    }
  }

  lemma {:induction false} FlattenGrows(parts: seq<seq<Xml>>, k: nat, m: nat)
    requires k < m <= |parts|
    ensures |Flatten(parts[..m])| >= |Flatten(parts[..k])| + |parts[k]|
  {
    if k == 0 { assert parts[..m][0] == parts[0] && parts[..0] == []; }
    else {
      assert parts[..m][1..] == parts[1..][..m - 1] && parts[..k][1..] == parts[1..][..k - 1];
      FlattenGrows(parts[1..], k - 1, m - 1);
    }
  }

  /** The children of the root come in schema order: an earlier child belongs to the same part of the sequence as a
    * later one, or to an earlier part. */
  lemma SchemaOrder(o: Options, i: nat, j: nat) returns (k: nat, m: nat)
    requires Valid(o) && i < j < |Children(o)|
    ensures k <= m < |PART_NAMES| && Children(o)[i].name == PART_NAMES[k] && Children(o)[j].name == PART_NAMES[m]
  {
    var at, bt;
    k, at := FlattenAt(Parts(o), i);
    m, bt := FlattenAt(Parts(o), j);
    PartsAreNamed(o, k, at);
    PartsAreNamed(o, m, bt);
    if m < k { FlattenGrows(Parts(o), m, k); }
  }

  lemma PartsAreNamed(o: Options, k: nat, at: nat)
    requires Valid(o) && k < |PART_NAMES| && at < |Parts(o)[k]|
    ensures Parts(o)[k][at].name == PART_NAMES[k]
  {
  }

  predicate SameAttr(x: Xml, y: Xml, name: string) { AttrOf(x.attrs, name) == AttrOf(y.attrs, name) }

  ghost predicate NamesParticipant(kids: seq<Xml>, x: Xml) {
    exists p :: p in NamedIn(kids, "participant") && SameAttr(p, x, "participant_id")
  }

  ghost predicate NamesStream(kids: seq<Xml>, x: Xml) {
    |Kids(x)| == 1 && exists s :: s in NamedIn(kids, "stream") && AttrOf(s.attrs, "stream_id") == TextOf(Kids(x)[0])
  }

  ghost predicate NamesSession(kids: seq<Xml>, x: Xml) { SameAttr(FirstNamed(kids, "session"), x, "session_id") }

  /** In what a reader gets, every association names a declared participant, and a stream association a declared
    * stream; every stream and every session association names the declared session. */
  lemma ReferencesAreDeclared(o: Options)
    requires Valid(o)
    ensures ReadDocument(Document(o)).Some?
    ensures var kids := Kids(ReadDocument(Document(o)).value);
      && (forall x :: x in NamedIn(kids, "stream") ==> NamesSession(kids, x))
      && (forall x :: x in NamedIn(kids, "participantsessionassoc") ==> NamesParticipant(kids, x) && NamesSession(kids, x))
      && (forall x :: x in NamedIn(kids, "participantstreamassoc") ==> NamesParticipant(kids, x) && NamesStream(kids, x))
  {
    DocumentReads(o);
    ChildrenNamed(o, 4);
    ChildrenNamed(o, 5);
    ChildrenNamed(o, 6);
    var kids := Children(o);
    forall x | x in Streams(o) ensures NamesSession(kids, x) {
      var i :| 0 <= i < |o.streams| && x == Streams(o)[i];
      StreamRefers(o, i);
    }
    forall x | x in SessionAssocs(o) ensures NamesParticipant(kids, x) && NamesSession(kids, x) {
      var i :| 0 <= i < |o.participants| && x == SessionAssocs(o)[i];
      SessionAssocRefers(o, i);
    }
    forall x | x in StreamAssocs(o) ensures NamesParticipant(kids, x) && NamesStream(kids, x) {
      var i :| 0 <= i < |o.streams| && x == StreamAssocs(o)[i];
      StreamAssocRefers(o, i);
    }
  }

  lemma StreamRefers(o: Options, i: nat)
    requires Valid(o) && i < |o.streams|
    ensures NamesSession(Children(o), StreamEl(o, o.streams[i]))
  {
    HeadReads(o);
    SessionReads(o);
    SecondAttr(Attr("stream_id", Given(o.streams[i].id)), Attr("session_id", Given(o.sessionId)));
  }

  lemma SecondAttr(a: Attr, b: Attr)
    requires |a.name| != |b.name|
    ensures AttrOf([a, b], b.name) == b.value
  {
    assert [a, b][1..] == [b];
  }

  lemma SessionAssocRefers(o: Options, i: nat)
    requires Valid(o) && i < |o.participants|
    ensures NamesParticipant(Children(o), SessionAssoc(o, o.participants[i]))
    ensures NamesSession(Children(o), SessionAssoc(o, o.participants[i]))
  {
    HeadReads(o);
    SessionReads(o);
    SecondAttr(Attr("participant_id", Given(o.participants[i].id)), Attr("session_id", Given(o.sessionId)));
    ChildrenNamed(o, 3);
    assert SameAttr(Participants(o)[i], SessionAssoc(o, o.participants[i]), "participant_id");
  }

  lemma StreamAssocRefers(o: Options, i: nat)
    requires Valid(o) && i < |o.streams|
    ensures NamesParticipant(Children(o), StreamAssoc(o, o.streams[i])) && NamesStream(Children(o), StreamAssoc(o, o.streams[i]))
  {
    StreamAssocOwner(o, i);
    ChildrenNamed(o, 4);
    assert Streams(o)[i] in Streams(o);
  }

  lemma StreamAssocOwner(o: Options, i: nat)
    requires Valid(o) && i < |o.streams|
    ensures NamesParticipant(Children(o), StreamAssoc(o, o.streams[i]))
  {
    ChildrenNamed(o, 3);
    assert SameAttr(Participants(o)[o.streams[i].participant], StreamAssoc(o, o.streams[i]), "participant_id");
  }
}
