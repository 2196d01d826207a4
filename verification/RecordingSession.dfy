/** The recordings hash and its functions as objects, one call at a time.
  *
  * RecordingProtocol says what interleavings of the mutex holds do; here each function is the source's own sequence
  * of assignments, proved to be the holds of RecordingTable followed by the unlocked work. */
module RecordingSession {
  import opened Common
  import opened RecordingKey
  import opened RecordingTable

  /** recording_t. It lives in the pool its teardown destroys. */
  class Recording {
    const handle: string
    const uuid: string
    const key: string := Key(handle, uuid)
    var useCount: int
    var doomed: bool
    var legGone: bool
    var leg: Leg
    var media: Media

    constructor (handle: string, uuid: string)
      ensures this.handle == handle && this.uuid == uuid
      ensures RecOf(this) == Rec(Key(handle, uuid), uuid, 0, false, false, NoContext, Unattached)
    {
      this.handle, this.uuid := handle, uuid;
      useCount, doomed, legGone, leg, media := 0, false, false, NoContext, Unattached;
    }
  }

  ghost function RecOf(r: Recording): Rec
    reads r
  {
    Rec(r.key, r.uuid, r.useCount, r.doomed, r.legGone, r.leg, r.media)
  }

  /** The table after one stop path took `key`: claimed, and torn down unless pinned. */
  ghost function Take<R>(tb: Table<R>, key: string): Table<R>
    requires key in tb.hash ==> tb.hash[key] in tb.recs
  {
    var c := ClaimHold(tb, key);
    if c.owned then c.table.(recs := c.table.recs - {c.found.value}) else c.table
  }

  /** The table after stop paths took all of `keys`: out of the hash, the pinned ones doomed, the others gone. */
  ghost function TakeAll<R>(tb: Table<R>, keys: set<string>): Table<R> {
    Table(map k | k in tb.hash && k !in keys :: tb.hash[k],
          map r | r in tb.recs && (Held(tb, r, keys) ==> tb.recs[r].useCount > 0) ::
            if Held(tb, r, keys) then tb.recs[r].(doomed := true) else tb.recs[r])
  }

  /** `r` is in the hash, under one of `keys`. */
  ghost predicate Held<R>(tb: Table<R>, r: R, keys: set<string>) { Hashed(tb, r) && tb.recs[r].key in keys }

  ghost predicate KeysMatch<R>(tb: Table<R>) {
    forall k :: k in tb.hash ==> tb.hash[k] in tb.recs && tb.recs[tb.hash[k]].key == k
  }

  lemma TakeNone<R>(tb: Table<R>)
    ensures TakeAll(tb, {}) == tb
  {
  }

  /** Taking keys one after the other, in any order, takes them all. */
  lemma TakeNext<R>(tb: Table<R>, done: set<string>, k: string)
    requires KeysMatch(tb) && k in tb.hash && k !in done
    ensures var t := TakeAll(tb, done); k in t.hash && t.hash[k] in t.recs && Take(t, k) == TakeAll(tb, done + {k})
  {
    var t, t' := TakeAll(tb, done), TakeAll(tb, done + {k});
    var r := tb.hash[k];
    assert Hashed(tb, r) && !Held(tb, r, done) && Held(tb, r, done + {k});
    assert forall q :: q in tb.recs && q != r ==> (Held(tb, q, done + {k}) <==> Held(tb, q, done));
    assert Take(t, k).hash == t'.hash;
    assert Take(t, k).recs == t'.recs;
  }

  /** What still matches is what matched and was not taken. */
  lemma MatchingLeft<R>(tb: Table<R>, call: Option<string>, done: set<string>)
    requires KeysMatch(tb) && done <= MatchingKeys(tb, call)
    ensures KeysMatch(TakeAll(tb, done)) && MatchingKeys(TakeAll(tb, done), call) == MatchingKeys(tb, call) - done
  {
    var t := TakeAll(tb, done);
    forall k | k in t.hash ensures t.hash[k] in t.recs && t.recs[t.hash[k]] == tb.recs[tb.hash[k]] {
      assert !Held(tb, tb.hash[k], done);
    }
  }

  /** A call has this module's hangup handler exactly when a recording of it is hashed. */
  ghost predicate HandlersMatch<R>(tb: Table<R>, bound: set<string>) {
    forall call :: call in bound <==> HasRecording(tb, call)
  }

  /** Hashed recordings are keyed by a handle and their call's uuid, which no key of `call` can be mistaken for. */
  ghost predicate KeysName<R>(tb: Table<R>, call: string)
    requires KeysMatch(tb)
  {
    forall k :: k in tb.hash ==> NamedBy(k, tb.recs[tb.hash[k]].uuid) && !CanClash(tb.recs[tb.hash[k]].uuid, call)
  }

  /** Nothing of another call than `uuid` changed: its entries, its recordings, its handler. */
  ghost predicate OthersKept<R>(tb: Table<R>, bound: set<string>, tb': Table<R>, bound': set<string>, uuid: string)
    requires KeysMatch(tb)
  {
    && (forall k :: k in tb.hash && tb.recs[tb.hash[k]].uuid != uuid ==> k in tb'.hash && tb'.hash[k] == tb.hash[k])
    && (forall r :: r in tb.recs && tb.recs[r].uuid != uuid ==> r in tb'.recs && tb'.recs[r] == tb.recs[r])
    && (forall call :: call != uuid ==> (call in bound' <==> call in bound))
  }

  /** Unless uuids can clash a key leads to a recording of the call it names. */
  lemma KeyNamesCall<R>(tb: Table<R>, handle: string, uuid: string)
    requires KeysMatch(tb) && KeysName(tb, uuid) && Key(handle, uuid) in tb.hash
    ensures tb.recs[tb.hash[Key(handle, uuid)]].uuid == uuid
  {
    var r := tb.hash[Key(handle, uuid)];
    assert NamedBy(Key(handle, uuid), tb.recs[r].uuid);
    var h: string :| Key(handle, uuid) == Key(h, tb.recs[r].uuid);
    KeyInjective(handle, uuid, h, tb.recs[r].uuid);
  }

  /** Stopping a handle on one call keeps the handlers right and leaves the other calls alone. */
  lemma AfterOne<R>(tb: Table<R>, bound: set<string>, bound': set<string>, server: string, uuid: string)
    requires KeysMatch(tb) && KeysName(tb, uuid) && HandlersMatch(tb, bound)
    requires var t := Take(tb, Key(server, uuid));
      bound' == if Key(server, uuid) in tb.hash && !HasRecording(t, uuid) then bound - {uuid} else bound
    ensures var t := Take(tb, Key(server, uuid)); HandlersMatch(t, bound') && OthersKept(tb, bound, t, bound', uuid)
  {
    var key := Key(server, uuid);
    var t := Take(tb, key);
    if key in tb.hash {
      KeyNamesCall(tb, server, uuid);
      LastingCalls(tb, t, bound, bound', uuid);
    }
  }

  lemma AfterAll<R>(tb: Table<R>, bound: set<string>, bound': set<string>, uuid: string)
    requires KeysMatch(tb) && HandlersMatch(tb, bound)
    requires var t := TakeAll(tb, MatchingKeys(tb, Some(uuid)));
      bound' == if !HasRecording(t, uuid) then bound - {uuid} else bound
    ensures var t := TakeAll(tb, MatchingKeys(tb, Some(uuid))); HandlersMatch(t, bound') && OthersKept(tb, bound, t, bound', uuid)
  {
    LastingCalls(tb, TakeAll(tb, MatchingKeys(tb, Some(uuid))), bound, bound', uuid);
  }

  /** When only entries of `uuid` went, only its handler can be due to go. */
  lemma LastingCalls<R>(tb: Table<R>, t: Table<R>, bound: set<string>, bound': set<string>, uuid: string)
    requires KeysMatch(tb) && HandlersMatch(tb, bound) && bound' == if !HasRecording(t, uuid) then bound - {uuid} else bound
    requires forall k :: k in t.hash ==> k in tb.hash && t.hash[k] == tb.hash[k]
    requires forall r :: r in t.recs ==> r in tb.recs && t.recs[r].uuid == tb.recs[r].uuid
    requires forall k :: k in tb.hash && tb.recs[tb.hash[k]].uuid != uuid ==> k in t.hash && tb.hash[k] in t.recs
    ensures HandlersMatch(t, bound')
  {
    forall call ensures call in bound' <==> HasRecording(t, call) {
      if call != uuid && HasRecording(tb, call) {
        var k :| HashedFor(tb, k, call);
        assert HashedFor(t, k, call);
      }
      if HasRecording(t, call) {
        var k :| HashedFor(t, k, call);
        assert HashedFor(tb, k, call);
      }
    }
  }

  /** How the unlocked part of a start goes: its settings and metadata, the answered leg, the attached fork; and
    * whether legs that are torn down can still be located. */
  datatype Course = Course(prepared: bool, leg: Option<string>, attached: bool, located: bool)

  /** Under other keys than `key` the same recordings live on, of the same calls; under `key` was one of `uuid`. */
  ghost predicate SameCalls<R>(tb: Table<R>, t: Table<R>, key: string, uuid: string)
    requires KeysMatch(tb)
  {
    && (forall k :: k in tb.hash && k != key ==> tb.hash[k] in t.recs && t.recs[tb.hash[k]].uuid == tb.recs[tb.hash[k]].uuid)
    && (key in tb.hash ==> tb.recs[tb.hash[key]].uuid == uuid)
  }

  /** `t` is `tb` with `r`, of call `uuid`, under its key; whatever was there before is of the same call. */
  ghost predicate Stays<R>(tb: Table<R>, t: Table<R>, r: R, uuid: string) {
    && r in t.recs && t.recs[r].uuid == uuid && r !in tb.recs && t.hash == tb.hash[t.recs[r].key := r]
    && KeysMatch(tb) && SameCalls(tb, t, t.recs[r].key, uuid)
  }

  lemma HandlersAfterStart<R>(tb: Table<R>, t: Table<R>, bound: set<string>, r: R, uuid: string)
    requires HandlersMatch(tb, bound) && Stays(tb, t, r, uuid)
    ensures HandlersMatch(t, bound + {uuid})
  {
    assert HashedFor(t, t.recs[r].key, uuid);
    forall call ensures call in bound + {uuid} <==> HasRecording(t, call) {
      if call != uuid && HasRecording(tb, call) {
        var k :| HashedFor(tb, k, call);
        assert HashedFor(t, k, call);
      }
      if call != uuid && HasRecording(t, call) {
        var k :| HashedFor(t, k, call);
        assert HashedFor(tb, k, call);
      }
    }
  }

  lemma HandlersAfterDiscard<R>(tb: Table<R>, t: Table<R>, bound: set<string>, bound': set<string>, key: string, uuid: string)
    requires HandlersMatch(tb, bound) && t.hash == tb.hash - {key}
    requires KeysMatch(tb) && SameCalls(tb, t, key, uuid)
    requires bound' == if HasRecording(t, uuid) then bound + {uuid} else bound + {uuid} - {uuid}
    ensures HandlersMatch(t, bound')
  {
    forall call ensures call in bound' <==> HasRecording(t, call) {
      if call != uuid && HasRecording(tb, call) {
        var k :| HashedFor(tb, k, call);
        assert HashedFor(t, k, call);
      }
      if call != uuid && HasRecording(t, call) {
        var k :| HashedFor(t, k, call);
        assert HashedFor(tb, k, call);
      }
    }
  }

  /** `globals`, and the calls that hold this module's hangup handler. */
  class Globals {
    var hash: map<string, Recording>
    var bound: set<string>
    /** The recordings whose pools exist. */
    ghost var live: set<Recording>

    ghost function T(): Table<Recording>
      reads this, live
    {
      Table(hash, map r | r in live :: RecOf(r))
    }

    ghost predicate Valid()
      reads this, live
    {
      && KeysMatch(T())
      && (forall r :: r in live ==> r.useCount >= 0)
    }

    constructor ()
      ensures Valid() && T() == Table(map[], map[]) && bound == {}
    {
      hash, bound, live := map[], {}, {};
    }

    /** claim_recording. */
    method Claim(key: string) returns (recording: Recording?, found: bool)
      requires Valid()
      modifies this`hash, live
      ensures Valid() && T() == ClaimHold(old(T()), key).table
      ensures found == (key in old(hash))
      ensures recording == if ClaimHold(old(T()), key).owned then old(hash)[key] else null
      ensures hash == old(hash) - {key}
      ensures recording != null <==> key in old(hash) && old(hash[key].useCount) == 0
      ensures key in old(hash) && recording == null ==> RecOf(old(hash)[key]) == old(RecOf(hash[key])).(doomed := true)
      ensures forall r :: r in live && !(key in old(hash) && r == old(hash)[key]) ==> RecOf(r) == old(RecOf(r))
    {
      recording := null;
      found := key in hash;
      if found {
        recording := hash[key];
        hash := hash - {key};
        if recording.useCount > 0 {
          recording.doomed := true;
          recording := null;
        }
      }
    }

    /** acquire_recording. */
    method Acquire(key: string) returns (recording: Recording?)
      requires Valid()
      modifies live
      ensures Valid() && T() == AcquireHold(old(T()), key)
      ensures recording == if key in hash then hash[key] else null
      ensures recording != null ==> RecOf(recording) == old(RecOf(hash[key])).(useCount := old(hash[key].useCount) + 1)
      ensures forall r :: r in live && r != recording ==> RecOf(r) == old(RecOf(r))
    {
      recording := null;
      if key in hash {
        recording := hash[key];
        recording.useCount := recording.useCount + 1;
      }
    }

    /** teardown_recording by the sole owner: the fork is detached, the leg sent BYE, the pool destroyed. */
    method Teardown(recording: Recording, located: bool)
      requires Valid() && recording in live && !Hashed(T(), recording)
      modifies this`live, recording
      ensures Valid() && live == old(live) - {recording}
      ensures T() == old(T()).(recs := old(T()).recs - {recording})
    {
      if recording.media.Wired? { recording.media := Unwired; }
      if recording.leg.OnLeg? && located { recording.leg := Blank; }
      live := live - {recording};
    }

    /** release_recording: the last pin of a doomed recording tears it down. */
    method Release(recording: Recording, located: bool) returns (doomed: bool)
      requires Valid() && recording in live && recording.useCount > 0 && (recording.doomed ==> !Hashed(T(), recording))
      modifies this`live, live
      ensures Valid() && doomed == old(recording.doomed)
      ensures var t := ReleaseHold(old(T()), recording);
        T() == if ReleaseTearsDown(old(T()), recording) then t.(recs := t.recs - {recording}) else t
      ensures recording !in live <==> old(recording.useCount) == 1 && old(recording.doomed)
      ensures recording in live ==> RecOf(recording) == old(RecOf(recording)).(useCount := old(recording.useCount) - 1)
      ensures forall r :: r in old(live) && r != recording ==> r in live && RecOf(r) == old(RecOf(r))
    {
      doomed := recording.doomed;
      recording.useCount := recording.useCount - 1;
      assert T() == ReleaseHold(old(T()), recording);
      if recording.useCount == 0 && doomed { Teardown(recording, located); }
    }

    /** siprec_recording_leg_ended. */
    method LegEnded(key: string, leg: string) returns (marked: bool)
      requires Valid()
      modifies live
      ensures Valid() && T() == LegEndedHold(old(T()), key, leg) && marked == LegMatches(old(T()), key, leg)
      ensures marked <==> key != "" && leg != "" && key in old(hash) && old(hash)[key].leg == OnLeg(leg)
      ensures marked ==> RecOf(hash[key]) == old(RecOf(hash[key])).(legGone := true)
      ensures forall r :: r in live && !(marked && r == hash[key]) ==> RecOf(r) == old(RecOf(r))
    {
      if key == "" || leg == "" { return false; }
      marked := false;
      if key in hash {
        var recording := hash[key];
        if recording.leg == OnLeg(leg) {
          recording.legGone := true;
          marked := true;
        }
      }
    }

    /** One scan of drain_recordings: up to a batch of matching keys, in whatever order the hash yields them, with
      * the calls they belong to. */
    method ScanBatch(call: Option<string>) returns (keys: seq<string>, uuids: seq<string>)
      requires Valid()
      ensures |keys| <= 16 && |uuids| == |keys|
      ensures forall i :: 0 <= i < |keys| ==>
        keys[i] in MatchingKeys(T(), call) && uuids[i] == hash[keys[i]].uuid
      ensures forall i, j :: 0 <= i < j < |keys| ==> keys[i] != keys[j]
      ensures |keys| < 16 ==> forall k :: k in MatchingKeys(T(), call) ==> k in keys
    {
      keys, uuids := [], [];
      var left := hash.Keys;
      while left != {}
        invariant left <= hash.Keys && |keys| <= DRAIN_BATCH && |uuids| == |keys|
        invariant forall i :: 0 <= i < |keys| ==>
          keys[i] in MatchingKeys(T(), call) && uuids[i] == hash[keys[i]].uuid && keys[i] !in left
        invariant forall i, j :: 0 <= i < j < |keys| ==> keys[i] != keys[j]
        invariant |keys| < DRAIN_BATCH ==> forall k :: k in MatchingKeys(T(), call) && k !in left ==> k in keys
        decreases |left|
      {
        var k :| k in left;
        left := left - {k};
        var recording := hash[k];
        if |keys| < DRAIN_BATCH && (call.None? || recording.uuid == call.value) {
          keys := keys + [k];
          uuids := uuids + [recording.uuid];
        }
      }
    }

    /** One stop path: claim and, when it is ours, tear down. */
    method TakeOne(key: string, located: bool) returns (found: bool)
      requires Valid()
      modifies this`hash, this`live, live
      ensures Valid() && T() == Take(old(T()), key) && found == (key in old(hash))
      ensures live <= old(live)
    {
      var recording;
      recording, found := Claim(key);
      if recording != null { Teardown(recording, located); }
    }

    /** ... and on unload the call's handler goes, too. */
    method TakeAndUnbind(key: string, uuid: string, unbind: bool, located: bool) returns (found: bool)
      requires Valid()
      modifies this, live
      ensures Valid() && T() == Take(old(T()), key) && found == (key in old(hash)) && live <= old(live)
      ensures bound == old(bound) - if unbind && found then {uuid} else {}
    {
      found := TakeOne(key, located);
      if unbind && found { bound := bound - {uuid}; }
    }

    /** The second half of a drain's pass: claim and tear down each key of the batch. */
    method TakeBatch(keys: seq<string>, uuids: seq<string>, unbind: bool, located: bool,
                     ghost tb: Table<Recording>, ghost done: set<string>) returns (stopped: nat)
      requires Valid() && KeysMatch(tb) && T() == TakeAll(tb, done) && |uuids| == |keys|
      requires forall i :: 0 <= i < |keys| ==> keys[i] in tb.hash && keys[i] !in done && uuids[i] == tb.hash[keys[i]].uuid
      requires forall i, j :: 0 <= i < j < |keys| ==> keys[i] != keys[j]
      modifies this, live
      ensures Valid() && T() == TakeAll(tb, done + Elements(keys)) && stopped == |keys| && live <= old(live)
      ensures bound == old(bound) - if unbind then Elements(uuids) else {}
    {
      stopped := 0;
      ghost var taken, calls: set<string> := done, {};
      for i := 0 to |keys|
        invariant Valid() && stopped == i && live <= old(live)
        invariant taken == done + Elements(keys[..i]) && T() == TakeAll(tb, taken)
        invariant calls == Elements(uuids[..i]) && bound == old(bound) - if unbind then calls else {}
      {
        ElementsSnoc(keys, i);
        ElementsSnoc(uuids, i);
        TakeNext(tb, taken, keys[i]);
        var found := TakeAndUnbind(keys[i], uuids[i], unbind, located);
        stopped := stopped + if found then 1 else 0;
        taken, calls := taken + {keys[i]}, calls + {uuids[i]};
      }
      assert keys[..|keys|] == keys && uuids[..|uuids|] == uuids;
    }

    /** A scan and the claims that follow it: `more` is what they took; a short scan leaves nothing. */
    method ScanAndTake(call: Option<string>, unbind: bool, located: bool, ghost tb: Table<Recording>, ghost all: set<string>,
                       ghost done: set<string>) returns (stopped: nat, ghost more: set<string>)
      requires Valid() && KeysMatch(tb) && all == MatchingKeys(tb, call) && done <= all && T() == TakeAll(tb, done)
      modifies this, live
      ensures Valid() && live <= old(live) && T() == TakeAll(tb, done + more)
      ensures more !! done && done + more <= all && stopped == |more|
      ensures stopped < DRAIN_BATCH ==> done + more == all
      ensures bound == old(bound) - if unbind then CallsOf(tb, more) else {}
    {
      MatchingLeft(tb, call, done);
      var keys, uuids := ScanBatch(call);
      more := Elements(keys);
      BatchIs(tb, all - done, keys, uuids);
      stopped := TakeBatch(keys, uuids, unbind, located, tb, done);
    }

    /** One pass of drain_recordings. */
    method Pass(call: Option<string>, unbind: bool, located: bool, ghost tb: Table<Recording>, ghost all: set<string>,
                ghost done: set<string>, ghost was: set<string>) returns (stopped: nat, ghost more: set<string>)
      requires KeysMatch(tb) && all == MatchingKeys(tb, call) && Drained(tb, all, done, was, unbind)
      modifies this, live
      ensures Drained(tb, all, done + more, was, unbind) && live <= old(live)
      ensures more !! done && more <= all && stopped == |more|
      ensures stopped < DRAIN_BATCH ==> done + more == all
    {
      stopped, more := ScanAndTake(call, unbind, located, tb, all, done);
      Further(tb, all, done, more);
    }

    /** drain_recordings with nobody inserting meanwhile: it ends, it stops exactly the recordings that matched, all
      * of them, and it leaves every other one as it was. */
    method Drain(call: Option<string>, unbind: bool, located: bool) returns (stopped: nat)
      requires Valid()
      modifies this, live
      ensures Valid() && live <= old(live)
      ensures T() == TakeAll(old(T()), MatchingKeys(old(T()), call)) && stopped == |MatchingKeys(old(T()), call)|
      ensures MatchingKeys(T(), call) == {}
      ensures bound == old(bound) - if unbind then CallsOf(old(T()), MatchingKeys(old(T()), call)) else {}
    {
      ghost var tb, all := T(), MatchingKeys(T(), call);
      stopped := DrainFrom(call, unbind, located, tb, all);
      MatchingLeft(tb, call, all);
    }

    /** Its loop: from table `tb`, where the keys `all` match. */
    method DrainFrom(call: Option<string>, unbind: bool, located: bool, ghost tb: Table<Recording>, ghost all: set<string>)
      returns (stopped: nat)
      requires Valid() && T() == tb && all == MatchingKeys(tb, call)
      modifies this, live
      ensures Valid() && live <= old(live) && T() == TakeAll(tb, all) && stopped == |all|
      ensures bound == old(bound) - if unbind then CallsOf(tb, all) else {}
    {
      ghost var was := bound;
      ghost var done: set<string> := {};
      TakeNone(tb);
      stopped := 0;
      while true
        invariant Drained(tb, all, done, was, unbind) && live <= old(live)
        invariant stopped == |done|
        decreases |all - done|
      {
        var n;
        ghost var more;
        n, more := Pass(call, unbind, located, tb, all, done, was);
        assert |all - (done + more)| == |all - done| - |more| && |done + more| == |done| + |more| by { Further(tb, all, done, more); }
        done := done + more;
        stopped := stopped + n;
        if n < DRAIN_BATCH { break; }
      }
    }

    /** The keys `done` of `all` are taken, and on unload their calls' handlers. */
    ghost predicate Drained(tb: Table<Recording>, all: set<string>, done: set<string>, was: set<string>, unbind: bool)
      reads this, live
    {
      Valid() && done <= all && T() == TakeAll(tb, done) && bound == was - if unbind then CallsOf(tb, done) else {}
    }

    /** release_call_handler: the hangup handler goes once no recording of the call is hashed. */
    method ReleaseCallHandler(call: string)
      requires Valid()
      modifies this`bound
      ensures bound == if HasRecording(T(), call) then old(bound) else old(bound) - {call}
    {
      var alive := false;
      var left := hash.Keys;
      while left != {}
        invariant left <= hash.Keys
        invariant alive <==> exists k :: k in hash && k !in left && hash[k].uuid == call
        decreases |left|
        modifies {}
      {
        var k :| k in left;
        left := left - {k};
        if hash[k].uuid == call { alive := true; }
      }
      assert forall k :: k in hash ==> (HashedFor(T(), k, call) <==> hash[k].uuid == call);
      if !alive { bound := bound - {call}; }
    }

    /** The table names calls: a recording's key is its handle and its call's uuid. */
    lemma TableNames(call: string)
      requires Valid() && forall k :: k in hash ==> !CanClash(hash[k].uuid, call)
      ensures KeysName(T(), call)
    {
      forall k | k in hash ensures NamedBy(k, T().recs[hash[k]].uuid) && !CanClash(T().recs[hash[k]].uuid, call) {
        assert T().recs[hash[k]].key == k == Key(hash[k].handle, hash[k].uuid);
      }
    }

    lemma SameCall(handle: string, uuid: string)
      requires Valid() && forall k :: k in hash ==> !CanClash(hash[k].uuid, uuid)
      ensures Key(handle, uuid) in hash ==> T().recs[hash[Key(handle, uuid)]].uuid == uuid
    {
      if Key(handle, uuid) in hash {
        TableNames(uuid);
        KeyNamesCall(T(), handle, uuid);
      }
    }

    /** stop_recording_session_for_server on one call: the recording of a handle or, without one, all of the call's. */
    method StopForServer(server: string, uuid: string, located: bool) returns (st: Status)
      requires Valid() && HandlersMatch(T(), bound) && forall k :: k in hash ==> !CanClash(hash[k].uuid, uuid)
      modifies this, live
      ensures Valid() && HandlersMatch(T(), bound) && OthersKept(old(T()), old(bound), T(), bound, uuid)
      ensures T() == if server == "" then TakeAll(old(T()), MatchingKeys(old(T()), Some(uuid))) else Take(old(T()), Key(server, uuid))
      ensures st == if (if server == "" then HasRecording(old(T()), uuid) else Key(server, uuid) in old(hash)) then Success else Failed
      ensures server != "" ==> hash == old(hash) - {Key(server, uuid)}
      ensures server == "" ==> forall k :: k in hash <==> k in old(hash) && old(hash)[k].uuid != uuid
      ensures forall r :: r in old(hash).Values && r !in hash.Values ==>
        if old(r.useCount) == 0 then r !in live else r in live && r.doomed
    {
      ghost var tb := T();
      if server == "" { st := StopCall(uuid, located); } else { st := StopHandle(server, uuid, located); }
      forall r | r in tb.hash.Values && r !in hash.Values
        ensures if tb.recs[r].useCount == 0 then r !in T().recs else r in T().recs && T().recs[r].doomed
      {
        if server == "" { TakenAllFate(tb, MatchingKeys(tb, Some(uuid)), r); } else { TakenFate(tb, Key(server, uuid), r); }
      }
    }

    method StopCall(uuid: string, located: bool) returns (st: Status)
      requires Valid() && HandlersMatch(T(), bound)
      modifies this, live
      ensures Valid() && HandlersMatch(T(), bound) && OthersKept(old(T()), old(bound), T(), bound, uuid)
      ensures T() == TakeAll(old(T()), MatchingKeys(old(T()), Some(uuid)))
      ensures st == if HasRecording(old(T()), uuid) then Success else Failed
    {
      ghost var tb, was := T(), bound;
      HasMatches(tb, uuid);
      var n := Drain(Some(uuid), false, located);
      ReleaseCallHandler(uuid);
      AfterAll(tb, was, bound, uuid);
      assert T() == TakeAll(tb, MatchingKeys(tb, Some(uuid)));
      st := if n > 0 then Success else Failed;
    }

    method StopHandle(server: string, uuid: string, located: bool) returns (st: Status)
      requires Valid() && HandlersMatch(T(), bound) && forall k :: k in hash ==> !CanClash(hash[k].uuid, uuid)
      modifies this, live
      ensures Valid() && HandlersMatch(T(), bound) && OthersKept(old(T()), old(bound), T(), bound, uuid)
      ensures T() == Take(old(T()), Key(server, uuid))
      ensures st == if Key(server, uuid) in old(hash) then Success else Failed
    {
      ghost var tb, was := T(), bound;
      TableNames(uuid);
      var found := TakeAndRelease(Key(server, uuid), uuid, located);
      AfterOne(tb, was, bound, server, uuid);
      st := if found then Success else Failed;
    }

    method TakeAndRelease(key: string, uuid: string, located: bool) returns (found: bool)
      requires Valid()
      modifies this, live
      ensures Valid() && T() == Take(old(T()), key) && found == (key in old(hash))
      ensures bound == if found && !HasRecording(T(), uuid) then old(bound) - {uuid} else old(bound)
    {
      found := TakeOne(key, located);
      if found { ReleaseCallHandler(uuid); }
    }

    /** siprec_teardown_all_recordings with nobody inserting meanwhile: nothing is hashed and no call holds a handler. */
    method TeardownAll(located: bool)
      requires Valid() && HandlersMatch(T(), bound)
      modifies this, live
      ensures Valid() && hash == map[] && bound == {}
    {
      ghost var tb, was := T(), bound;
      var stopped := Drain(None, true, located);
      assert forall call :: call in was ==> HasRecording(tb, call);
      assert T().hash == map[];
    }

    /** start_recording_session: a private recording_t. */
    method Allocate(handle: string, uuid: string) returns (recording: Recording)
      requires Valid()
      modifies this`live
      ensures Valid() && fresh(recording) && recording.handle == handle && recording.uuid == uuid
      ensures live == old(live) + {recording}
      ensures RecOf(recording) == Rec(Key(handle, uuid), uuid, 0, false, false, NoContext, Unattached)
      ensures T() == old(T()).(recs := old(T()).recs[recording := Rec(Key(handle, uuid), uuid, 0, false, false, NoContext, Unattached)])
    {
      recording := new Recording(handle, uuid);
      live := live + {recording};
      assert forall r :: r in old(live) ==> r in live && r != recording;
    }

    /** The insert of a start, or its refusal: a recording whose leg has ended gives way, any other does not. */
    method InsertOrRefuse(recording: Recording, located: bool) returns (busy: bool)
      requires Valid() && recording in live && recording.useCount == 0 && recording !in hash.Values
      modifies this`hash, this`live, live
      ensures Valid() && busy == Busy(old(T()), recording.key)
      ensures busy <==> old(recording.key in hash && (hash[recording.key].useCount > 0 || !hash[recording.key].legGone))
      ensures !busy ==> hash == old(hash)[recording.key := recording]
      ensures !busy && recording.key in old(hash) ==> old(hash)[recording.key] !in live
      ensures busy ==> T() == old(T()).(recs := old(T()).recs - {recording})
      ensures !busy ==>
        var t := InsertHold(old(T()), recording);
        T() == match Stale(old(T()), recording) case None => t case Some(stale) => t.(recs := t.recs - {stale})
      ensures live <= old(live)
      ensures !busy ==> recording in live && RecOf(recording) == old(RecOf(recording)).(useCount := 1)
    {
      if recording.key in hash && (hash[recording.key].useCount > 0 || !hash[recording.key].legGone) {
        live := live - {recording};
        return true;
      }
      var stale := Insert(recording);
      if stale != null { Teardown(stale, located); }
      busy := false;
    }

    /** The insert itself, pinned, with the entry it evicts. */
    method Insert(recording: Recording) returns (stale: Recording?)
      requires Valid() && recording in live && recording !in hash.Values
      modifies this`hash, recording`useCount
      ensures Valid() && T() == InsertHold(old(T()), recording)
      ensures RecOf(recording) == old(RecOf(recording)).(useCount := 1)
      ensures stale == if recording.key in old(hash) then old(hash)[recording.key] else null
      ensures stale != null ==> stale in live && stale != recording && !Hashed(T(), stale)
    {
      stale := null;
      if recording.key in hash {
        stale := hash[recording.key];
        assert T().recs[stale].key == recording.key;
      }
      hash := hash[recording.key := recording];
      recording.useCount := 1;
    }

    /** The locked part of discard_pending_recording: the entry goes only if it is still this recording's. */
    method Unhash(recording: Recording)
      requires Valid() && recording in live
      modifies this`hash, recording`doomed
      ensures Valid() && T() == DiscardHold(old(T()), recording)
      ensures recording.doomed && !Hashed(T(), recording)
    {
      if recording.key in hash && hash[recording.key] == recording { hash := hash - {recording.key}; }
      recording.doomed := true;
    }

    /** discard_pending_recording, of a start that failed. */
    method Discard(recording: Recording, located: bool)
      requires Valid() && recording in live && recording.useCount > 0
      modifies this, live
      ensures Valid()
      ensures var t := ReleaseHold(DiscardHold(old(T()), recording), recording);
        T() == if old(recording.useCount) == 1 then t.(recs := t.recs - {recording}) else t
      ensures bound == if HasRecording(T(), recording.uuid) then old(bound) else old(bound) - {recording.uuid}
    {
      var uuid := recording.uuid;
      Unhash(recording);
      var doomed := Release(recording, located);
      ReleaseCallHandler(uuid);
    }

    /** start_recording_session from its private recording on, with nobody in between: INUSE exactly when the key is
      * held by a recording pinned or with a live leg, and then nothing changes; SUCCESS leaves this start's recording
      * under the key, unpinned, answered and wired; FALSE leaves the key free. Handlers stay right either way. */
    method Start(handle: string, uuid: string, course: Course) returns (st: Status)
      requires Valid() && HandlersMatch(T(), bound) && forall k :: k in hash ==> !CanClash(hash[k].uuid, uuid)
      modifies this, live
      ensures Valid() && HandlersMatch(T(), bound)
      ensures st == InUse <==> Busy(old(T()), Key(handle, uuid))
      ensures st == InUse ==> T() == old(T()) && bound == old(bound)
      ensures st == Success ==>
        && course.prepared && course.leg.Some? && course.attached
        && Key(handle, uuid) in hash && fresh(hash[Key(handle, uuid)]) && uuid in bound
        && RecOf(hash[Key(handle, uuid)])
           == Rec(Key(handle, uuid), uuid, 0, false, false, OnLeg(course.leg.value), Wired(true))
      ensures st == Failed ==> Key(handle, uuid) !in hash && !(course.prepared && course.leg.Some? && course.attached)
      ensures forall k :: k != Key(handle, uuid) ==> (k in hash <==> k in old(hash)) && (k in hash ==> hash[k] == old(hash)[k])
    {
      ghost var tb := T();
      SameCall(handle, uuid);
      var recording := Allocate(handle, uuid);
      st := StartWith(recording, course, tb);
    }

    /** ... with that recording_t, beside the table `tb`. */
    method StartWith(recording: Recording, course: Course, ghost tb: Table<Recording>) returns (st: Status)
      requires Valid() && recording in live && KeysMatch(tb) && recording !in tb.recs && HandlersMatch(tb, bound)
      requires RecOf(recording) == Rec(recording.key, recording.uuid, 0, false, false, NoContext, Unattached)
      requires T() == tb.(recs := tb.recs[recording := RecOf(recording)])
      requires recording.key in tb.hash ==> tb.recs[tb.hash[recording.key]].uuid == recording.uuid
      modifies this, live
      ensures Valid() && HandlersMatch(T(), bound)
      ensures st == InUse <==> Busy(tb, recording.key)
      ensures st == InUse ==> T() == tb && bound == old(bound)
      ensures st == Success ==> Works(course) && hash == tb.hash[recording.key := recording] && recording.uuid in bound
      ensures st == Success ==>
        RecOf(recording) == Rec(recording.key, recording.uuid, 0, false, false, OnLeg(course.leg.value), Wired(true))
      ensures st == Failed ==> !Works(course) && hash == tb.hash - {recording.key}
    {
      var busy := EnterOrRefuse(recording, course.located, tb);
      if busy { return InUse; }
      assert T().hash == hash == tb.hash[recording.key := recording];
      assert hash - {recording.key} == tb.hash - {recording.key};
      st := Carry(recording, course, tb);
    }

    /** A private recording, allocated beside the table `tb`, enters it or is freed. */
    method EnterOrRefuse(recording: Recording, located: bool, ghost tb: Table<Recording>) returns (busy: bool)
      requires Valid() && recording in live && KeysMatch(tb) && recording !in tb.recs
      requires RecOf(recording) == Rec(recording.key, recording.uuid, 0, false, false, NoContext, Unattached)
      requires T() == tb.(recs := tb.recs[recording := RecOf(recording)])
      requires recording.key in tb.hash ==> tb.recs[tb.hash[recording.key]].uuid == recording.uuid
      modifies this`hash, this`live, live
      ensures Valid() && live <= old(live) && busy == Busy(tb, recording.key)
      ensures busy ==> T() == tb
      ensures !busy ==> recording in live && Stays(tb, T(), recording, recording.uuid)
      ensures !busy ==> RecOf(recording) == Rec(recording.key, recording.uuid, 1, false, false, NoContext, Unattached)
    {
      busy := InsertOrRefuse(recording, located);
    }

    /** The rest of a start, whose recording has just been inserted into the table `tb`. */
    method Carry(recording: Recording, course: Course, ghost tb: Table<Recording>) returns (st: Status)
      requires Valid() && recording in live && Stays(tb, T(), recording, recording.uuid) && HandlersMatch(tb, bound)
      requires RecOf(recording) == Rec(recording.key, recording.uuid, 1, false, false, NoContext, Unattached)
      modifies this, live
      ensures Valid() && HandlersMatch(T(), bound) && st == if Works(course) then Success else Failed
      ensures st == Success ==> hash == old(hash) && recording in live && recording.uuid in bound
      ensures st == Success ==>
        RecOf(recording) == Rec(recording.key, recording.uuid, 0, false, false, OnLeg(course.leg.value), Wired(true))
      ensures st == Failed ==> hash == old(hash) - {recording.key}
    {
      ghost var was := bound;
      bound := bound + {recording.uuid};
      if !Works(course) {
        if course.prepared && course.leg.Some? { Fill(recording, OnLeg(course.leg.value), Unattached, tb); }
        DropFailed(recording, course.located, tb, was);
        return Failed;
      }
      Fill(recording, OnLeg(course.leg.value), Wired(true), tb);
      st := Keep(recording, course.located, tb, was);
    }

    /** What the invite and the attach leave in the recording. */
    method Fill(recording: Recording, leg: Leg, media: Media, ghost tb: Table<Recording>)
      requires Valid() && recording in live && Stays(tb, T(), recording, recording.uuid)
      modifies recording`leg, recording`media
      ensures Valid() && Stays(tb, T(), recording, recording.uuid)
      ensures RecOf(recording) == old(RecOf(recording)).(leg := leg, media := media)
    {
      recording.leg, recording.media := leg, media;
      assert T().recs[recording] == RecOf(recording);
    }

    /** A failed start gives up its recording. */
    method DropFailed(recording: Recording, located: bool, ghost tb: Table<Recording>, ghost was: set<string>)
      requires Valid() && recording in live && Stays(tb, T(), recording, recording.uuid) && recording.useCount == 1
      requires HandlersMatch(tb, was) && bound == was + {recording.uuid}
      modifies this, live
      ensures Valid() && HandlersMatch(T(), bound) && hash == old(hash) - {recording.key}
    {
      Discard(recording, located);
      HandlersAfterDiscard(tb, T(), was, bound, recording.key, recording.uuid);
    }

    /** A start that worked drops its pin. */
    method Keep(recording: Recording, located: bool, ghost tb: Table<Recording>, ghost was: set<string>) returns (st: Status)
      requires Valid() && recording in live && Stays(tb, T(), recording, recording.uuid) && recording.useCount == 1
      requires !recording.doomed && HandlersMatch(tb, was) && bound == was + {recording.uuid}
      modifies this`live, live
      ensures Valid() && HandlersMatch(T(), bound) && st == Success && recording in live
      ensures RecOf(recording) == old(RecOf(recording)).(useCount := 0)
    {
      var doomed := Release(recording, located);
      assert T().recs[recording] == RecOf(recording);
      HandlersAfterStart(tb, T(), was, recording, recording.uuid);
      st := if doomed then Failed else Success;
    }
  }

  /** What leaves the hash goes with it, or waits, doomed, for its last pin. */
  lemma TakenFate<R>(tb: Table<R>, key: string, r: R)
    requires KeysMatch(tb) && r in tb.hash.Values && r !in Take(tb, key).hash.Values && tb.recs[r].useCount >= 0
    ensures var t := Take(tb, key); if tb.recs[r].useCount == 0 then r !in t.recs else r in t.recs && t.recs[r].doomed
  {
    OthersRemain(tb, Take(tb, key), {key});
    var k :| k in tb.hash && tb.hash[k] == r;
  }

  lemma OthersRemain<R>(tb: Table<R>, t: Table<R>, keys: set<string>)
    requires forall k :: k in tb.hash && k !in keys ==> k in t.hash && t.hash[k] == tb.hash[k]
    ensures forall k :: k in tb.hash && k !in keys ==> tb.hash[k] in t.hash.Values
  {
  }

  lemma TakenAllFate<R>(tb: Table<R>, keys: set<string>, r: R)
    requires KeysMatch(tb) && r in tb.hash.Values && r !in TakeAll(tb, keys).hash.Values && tb.recs[r].useCount >= 0
    ensures var t := TakeAll(tb, keys); if tb.recs[r].useCount == 0 then r !in t.recs else r in t.recs && t.recs[r].doomed
  {
    OthersRemain(tb, TakeAll(tb, keys), keys);
    var k :| k in tb.hash && tb.hash[k] == r;
  }

  predicate Works(course: Course) { course.prepared && course.leg.Some? && course.attached }

  lemma HasMatches<R>(tb: Table<R>, call: string)
    requires KeysMatch(tb)
    ensures HasRecording(tb, call) <==> |MatchingKeys(tb, Some(call))| > 0
  {
    if HasRecording(tb, call) {
      var k :| HashedFor(tb, k, call);
      assert k in MatchingKeys(tb, Some(call));
    }
    if k :| k in MatchingKeys(tb, Some(call)) { assert HashedFor(tb, k, call); }
  }

  ghost function Elements(s: seq<string>): set<string> { set x | x in s }

  lemma ElementsSnoc(s: seq<string>, i: nat)
    requires i < |s|
    ensures Elements(s[..i + 1]) == Elements(s[..i]) + {s[i]}
  {
    assert s[..i + 1] == s[..i] + [s[i]];
  }

  /** The calls of the recordings under some keys. */
  ghost function CallsOf(tb: Table<Recording>, keys: set<string>): set<string> {
    set k | k in keys && k in tb.hash :: tb.hash[k].uuid
  }

  lemma Further(tb: Table<Recording>, all: set<string>, done: set<string>, more: set<string>)
    requires more !! done && done + more <= all
    ensures |done + more| == |done| + |more| && |all - (done + more)| == |all - done| - |more|
    ensures CallsOf(tb, done + more) == CallsOf(tb, done) + CallsOf(tb, more)
  {
    assert all - done == (all - (done + more)) + more;
  }

  lemma BatchIs(tb: Table<Recording>, left: set<string>, keys: seq<string>, uuids: seq<string>)
    requires left <= tb.hash.Keys && |uuids| == |keys|
    requires forall i :: 0 <= i < |keys| ==> keys[i] in left && uuids[i] == tb.hash[keys[i]].uuid
    requires forall i, j :: 0 <= i < j < |keys| ==> keys[i] != keys[j]
    ensures |Elements(keys)| == |keys| && Elements(keys) <= left && CallsOf(tb, Elements(keys)) == Elements(uuids)
  {
    ElementsCount(keys);
    forall i | 0 <= i < |keys| ensures uuids[i] in CallsOf(tb, Elements(keys)) { assert keys[i] in Elements(keys); }
    forall u | u in CallsOf(tb, Elements(keys)) ensures u in Elements(uuids) {
      var k :| k in Elements(keys) && tb.hash[k].uuid == u;
      var i :| 0 <= i < |keys| && keys[i] == k;
      assert uuids[i] == u;
    }
  }

  lemma {:induction false} ElementsCount(s: seq<string>)
    requires forall i, j :: 0 <= i < j < |s| ==> s[i] != s[j]
    ensures |Elements(s)| == |s|
  {
    if s != [] {
      var init, x := s[..|s| - 1], s[|s| - 1];
      ElementsCount(init);
      assert x !in init;
      assert s == init + [x];
      assert Elements(s) == Elements(init) + {x};
    }
  }
}
