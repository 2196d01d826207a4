/** Where a reader of the document finds each field: said element by element, by their names in RFC 7865. */
module MetadataFields {
  import opened XmlTree
  import opened Metadata

  /** The children of the root that a reader gets. */
  function ReadKids(o: Options): seq<Xml>
    requires Valid(o)
  {
    DocumentReads(o);
    Kids(ReadDocument(Document(o)).value)
  }

  lemma ReadKidsAre(o: Options)
    requires Valid(o)
    ensures ReadKids(o) == Children(o)
  {
    DocumentReads(o);
  }

  /** The data mode, the session with its ID, reason, group reference and start time. */
  lemma SessionIsTold(o: Options)
    requires Valid(o)
    ensures |NamedIn(ReadKids(o), "datamode")| == |NamedIn(ReadKids(o), "session")| == 1
    ensures TextOf(NamedIn(ReadKids(o), "datamode")[0]) == if o.partial then "partial" else "complete"
    ensures var s := NamedIn(ReadKids(o), "session")[0];
      && AttrOf(s.attrs, "session_id") == Given(o.sessionId) && ChildText(s, "reason") == Given(o.reason)
      && ChildText(s, "group-ref") == Given(o.groupId) && ChildText(s, "start-time") == Given(o.associateTime)
  {
    HeadNamed(o);
    SessionReads(o);
  }

  lemma HeadNamed(o: Options)
    requires Valid(o)
    ensures NamedIn(ReadKids(o), "datamode") == [Datamode(o)] && NamedIn(ReadKids(o), "session") == [Session(o)]
  {
    DatamodeNamed(o);
    SessionNamed(o);
  }

  lemma PartNames()
    ensures |PART_NAMES| == 7 && PART_NAMES[0] == "datamode" && PART_NAMES[2] == "session"
  {
  }

  lemma DatamodeNamed(o: Options)
    requires Valid(o)
    ensures NamedIn(ReadKids(o), "datamode") == [Datamode(o)]
  {
    PartNames();
    PartNamed(o, 0, "datamode");
    assert Parts(o)[0] == [Datamode(o)];
  }

  lemma SessionNamed(o: Options)
    requires Valid(o)
    ensures NamedIn(ReadKids(o), "session") == [Session(o)]
  {
    PartNames();
    PartNamed(o, 2, "session");
    assert Parts(o)[2] == [Session(o)];
  }

  /** The elements of one name that a reader gets are that part of the document. */
  lemma PartNamed(o: Options, k: nat, name: string)
    requires Valid(o) && k < |PART_NAMES| && PART_NAMES[k] == name
    ensures NamedIn(ReadKids(o), name) == Parts(o)[k]
  {
    ReadKidsAre(o);
    ChildrenNamed(o, k);
  }

  /** A group element exactly when there is a group ID, with the time of association. */
  lemma GroupIsTold(o: Options)
    requires Valid(o)
    ensures var groups := NamedIn(ReadKids(o), "group");
      if Given(o.groupId) == "" then groups == []
      else |groups| == 1 && AttrOf(groups[0].attrs, "group_id") == Given(o.groupId)
           && ChildText(groups[0], "associate-time") == Given(o.associateTime)
  {
    ReadKidsAre(o);
    ChildrenNamed(o, 1);
    if Given(o.groupId) != "" {
      OptionalReads("group", [Attr("group_id", Given(o.groupId))], "associate-time", Given(o.associateTime));
    }
  }

  /** Participant `i` is the i-th participant element, with its AOR and name in a nameID, and the i-th association with the
    * session is its own, with the time of association. */
  lemma ParticipantIsTold(o: Options, i: nat)
    requires Valid(o) && i < |o.participants|
    ensures var ps, assocs := NamedIn(ReadKids(o), "participant"), NamedIn(ReadKids(o), "participantsessionassoc");
      && |ps| == |assocs| == |o.participants|
      && AttrOf(ps[i].attrs, "participant_id") == AttrOf(assocs[i].attrs, "participant_id") == Given(o.participants[i].id)
      && AttrOf(FirstNamed(Kids(ps[i]), "nameID").attrs, "aor") == Given(o.participants[i].aor)
      && ChildText(FirstNamed(Kids(ps[i]), "nameID"), "name") == Given(o.participants[i].display)
      && AttrOf(assocs[i].attrs, "session_id") == Given(o.sessionId)
      && ChildText(assocs[i], "associate-time") == Given(o.associateTime)
  {
    ReadKidsAre(o);
    ChildrenNamed(o, 3);
    ChildrenNamed(o, 5);
    NameIsTold(o.participants[i]);
    AssociationIsTold(o, o.participants[i]);
  }

  lemma NameIsTold(p: Participant)
    ensures AttrOf(ParticipantEl(p).attrs, "participant_id") == Given(p.id)
    ensures AttrOf(FirstNamed(Kids(ParticipantEl(p)), "nameID").attrs, "aor") == Given(p.aor)
    ensures ChildText(FirstNamed(Kids(ParticipantEl(p)), "nameID"), "name") == Given(p.display)
  {
    var nameId := Optional("nameID", [Attr("aor", Given(p.aor))], "name", Given(p.display));
    assert NamedIn(Kids(ParticipantEl(p)), "nameID") == [nameId];
    OptionalReads("nameID", [Attr("aor", Given(p.aor))], "name", Given(p.display));
  }

  lemma AssociationIsTold(o: Options, p: Participant)
    ensures AttrOf(SessionAssoc(o, p).attrs, "participant_id") == Given(p.id)
    ensures AttrOf(SessionAssoc(o, p).attrs, "session_id") == Given(o.sessionId)
    ensures ChildText(SessionAssoc(o, p), "associate-time") == Given(o.associateTime)
  {
    SecondAttr(Attr("participant_id", Given(p.id)), Attr("session_id", Given(o.sessionId)));
    OptionalReads("participantsessionassoc", SessionAssoc(o, p).attrs, "associate-time", Given(o.associateTime));
  }

  /** Stream `i` is the i-th stream element, of this session, with its label, and the i-th stream association names its
    * participant and says whether that sends or receives it. */
  lemma StreamIsTold(o: Options, i: nat)
    requires Valid(o) && i < |o.streams|
    ensures var ss, assocs := NamedIn(ReadKids(o), "stream"), NamedIn(ReadKids(o), "participantstreamassoc");
      && |ss| == |assocs| == |o.streams|
      && AttrOf(ss[i].attrs, "stream_id") == Given(o.streams[i].id)
      && AttrOf(ss[i].attrs, "session_id") == Given(o.sessionId)
      && ChildText(ss[i], "label") == Given(o.streams[i].labelText)
      && AttrOf(assocs[i].attrs, "participant_id") == Given(o.participants[o.streams[i].participant].id)
      && |Kids(assocs[i])| == 1 && TextOf(Kids(assocs[i])[0]) == Given(o.streams[i].id)
      && Kids(assocs[i])[0].name == match o.streams[i].mode case Send => "send" case Recv => "recv"
  {
    ReadKidsAre(o);
    ChildrenNamed(o, 4);
    ChildrenNamed(o, 6);
    StreamElIsTold(o, o.streams[i]);
  }

  lemma StreamElIsTold(o: Options, s: Stream)
    requires s.participant < |o.participants|
    ensures AttrOf(StreamEl(o, s).attrs, "stream_id") == Given(s.id)
    ensures AttrOf(StreamEl(o, s).attrs, "session_id") == Given(o.sessionId)
    ensures ChildText(StreamEl(o, s), "label") == Given(s.labelText)
    ensures AttrOf(StreamAssoc(o, s).attrs, "participant_id") == Given(o.participants[s.participant].id)
  {
    SecondAttr(Attr("stream_id", Given(s.id)), Attr("session_id", Given(o.sessionId)));
    OptionalReads("stream", StreamEl(o, s).attrs, "label", Given(s.labelText));
  }
}
