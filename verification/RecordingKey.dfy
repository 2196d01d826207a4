/** siprec_recording_key: how a handle and a call name a recording. */
module RecordingKey {

  function Key(handle: string, uuid: string): string { handle + "-" + uuid }

  /** One uuid ends in a hyphen and the other: origination_uuid is free text. */
  predicate EndsIn(longer: string, shorter: string) {
    |longer| > |shorter| && longer[|longer| - |shorter| - 1..] == "-" + shorter
  }

  /** Two calls of which some pair of handles makes one key. */
  predicate CanClash(u1: string, u2: string) { EndsIn(u1, u2) || EndsIn(u2, u1) }

  /** Unless the uuids can clash, a key determines both the handle and the call. */
  lemma KeyInjective(h1: string, u1: string, h2: string, u2: string)
    requires !CanClash(u1, u2)
    ensures Key(h1, u1) == Key(h2, u2) <==> h1 == h2 && u1 == u2
  {
    if Key(h1, u1) == Key(h2, u2) {
      if |u1| > |u2| { SharedKeyEnds(h1, u1, h2, u2); }
      else if |u2| > |u1| { SharedKeyEnds(h2, u2, h1, u1); }
      else {
        var k := Key(h1, u1);
        assert |h1| == |h2|;
        assert h1 == k[..|h1|] && h2 == k[..|h2|];
        assert u1 == k[|h1| + 1..] && u2 == k[|h2| + 1..];
      }
    }
  }

  lemma SharedKeyEnds(h1: string, u1: string, h2: string, u2: string)
    requires |u1| > |u2| && Key(h1, u1) == Key(h2, u2)
    ensures EndsIn(u1, u2)
  {
    var k := Key(h1, u1);
    var tail := k[|k| - |u2| - 1..];
    assert tail == "-" + u2 by { assert k == h2 + ("-" + u2); }
    assert tail == u1[|u1| - |u2| - 1..] by { assert k[|h1| + 1..] == u1; }
  }

  /** Some key belongs to both calls exactly when they are one, or one's uuid ends in a hyphen and the other's. */
  lemma KeysCollideIff(u1: string, u2: string)
    ensures (exists h1: string, h2: string :: Key(h1, u1) == Key(h2, u2)) <==> u1 == u2 || CanClash(u1, u2)
  {
    if u1 == u2 { assert Key("", u1) == Key("", u2); }
    if EndsIn(u1, u2) { EndsCollide(u1, u2); }
    if EndsIn(u2, u1) { EndsCollide(u2, u1); }
    if h1: string, h2: string :| Key(h1, u1) == Key(h2, u2) {
      if !CanClash(u1, u2) { KeyInjective(h1, u1, h2, u2); }
    }
  }

  lemma EndsCollide(longer: string, shorter: string)
    requires EndsIn(longer, shorter)
    ensures Key("", longer) == Key("-" + longer[..|longer| - |shorter| - 1], shorter)
  {
    var n := |longer| - |shorter| - 1;
    assert longer == longer[..n] + ("-" + shorter);
  }

  /** The key is one of the call's. */
  ghost predicate NamedBy(key: string, uuid: string) { exists handle: string :: key == Key(handle, uuid) }

  /** Calls that keys tell apart. */
  ghost predicate TellsApart(us: set<string>) {
    forall u, v :: u in us && v in us ==> !CanClash(u, v)
  }

  /** Uuids of one length are always told apart. */
  lemma OneLengthTellsApart(us: set<string>, n: nat)
    requires forall u :: u in us ==> |u| == n
    ensures TellsApart(us)
  {
  }
}
