/** The recordings hash and the recording fields its mutex guards, on values.
  *
  * Every function named ...Hold is the work done under ONE hold of
  * recordings_mutex. They are the atomic steps of RecordingProtocol and the
  * specification of the methods of RecordingSession. `R` identifies a
  * recording_t: an abstract identity in the protocol, an object in the class. */
module RecordingTable {
  import opened Common

  /** invite_ctx: absent, present with a blanked recording_uuid, or naming a live leg. */
  datatype Leg = NoContext | Blank | OnLeg(uuid: string)

  /** media_ctx. `Adding` is the window inside siprec_media_attach in which the
    * bug is on the call but recording->media_ctx is still NULL; `bug` says
    * whether the context's bug pointer is set. */
  datatype Media = Unattached | Adding(bug: bool) | Wired(bug: bool) | Unwired

  datatype Rec = Rec(key: string, uuid: string, useCount: int, doomed: bool,
                     legGone: bool, leg: Leg, media: Media)

  datatype Table<R(==)> = Table(hash: map<string, R>, recs: map<R, Rec>)

  /** No entry of the hash dangles. */
  ghost predicate NoDangling<R>(tb: Table<R>) {
    forall k :: k in tb.hash ==> tb.hash[k] in tb.recs
  }

  predicate Hashed<R(==)>(tb: Table<R>, r: R) {
    r in tb.recs && tb.recs[r].key in tb.hash && tb.hash[tb.recs[r].key] == r
  }

  datatype Claim<R(==)> = Claim(table: Table<R>, found: Option<R>, owned: bool)

  /** claim_recording: find and delete in one hold; a pinned recording is doomed instead of handed over. */
  function ClaimHold<R(==)>(tb: Table<R>, key: string): Claim<R>
    requires key in tb.hash ==> tb.hash[key] in tb.recs
  {
    if key !in tb.hash then Claim(tb, None, false)
    else
      var r := tb.hash[key];
      var unhashed := tb.(hash := tb.hash - {key});
      if tb.recs[r].useCount > 0
      then Claim(unhashed.(recs := tb.recs[r := tb.recs[r].(doomed := true)]), Some(r), false)
      else Claim(unhashed, Some(r), true)
  }

  /** acquire_recording. */
  function AcquireHold<R(==)>(tb: Table<R>, key: string): Table<R>
    requires key in tb.hash ==> tb.hash[key] in tb.recs
  {
    if key !in tb.hash then tb
    else
      var r := tb.hash[key];
      tb.(recs := tb.recs[r := tb.recs[r].(useCount := tb.recs[r].useCount + 1)])
  }

  /** release_recording: the decrement. */
  function ReleaseHold<R(==)>(tb: Table<R>, r: R): Table<R>
    requires r in tb.recs
  {
    tb.(recs := tb.recs[r := tb.recs[r].(useCount := tb.recs[r].useCount - 1)])
  }

  /** release_recording: does this releaser inherit the deferred teardown? */
  predicate ReleaseTearsDown<R(==)>(tb: Table<R>, r: R)
    requires r in tb.recs
  {
    tb.recs[r].useCount - 1 == 0 && tb.recs[r].doomed
  }

  /** siprec_recording_leg_ended: does the hash hold, under `key`, a recording whose current leg is `leg`? */
  predicate LegMatches<R(==)>(tb: Table<R>, key: string, leg: string)
    requires key in tb.hash ==> tb.hash[key] in tb.recs
  {
    key != "" && leg != "" && key in tb.hash && tb.recs[tb.hash[key]].leg == OnLeg(leg)
  }

  function LegEndedHold<R(==)>(tb: Table<R>, key: string, leg: string): Table<R>
    requires key in tb.hash ==> tb.hash[key] in tb.recs
  {
    if LegMatches(tb, key, leg)
    then tb.(recs := tb.recs[tb.hash[key] := tb.recs[tb.hash[key]].(legGone := true)])
    else tb
  }

  /** start_recording_session: is the handle taken by a recording that may not be replaced? */
  predicate Busy<R(==)>(tb: Table<R>, key: string)
    requires key in tb.hash ==> tb.hash[key] in tb.recs
  {
    key in tb.hash
    && (tb.recs[tb.hash[key]].useCount > 0 || !tb.recs[tb.hash[key]].legGone)
  }

  /** The recording the insert of `r` evicts: one whose leg has ended. */
  function Stale<R(==)>(tb: Table<R>, r: R): Option<R>
    requires r in tb.recs
  {
    if tb.recs[r].key in tb.hash then Some(tb.hash[tb.recs[r].key]) else None
  }

  /** The insert, already pinned by its start, replacing any stale entry. */
  function InsertHold<R(==)>(tb: Table<R>, r: R): Table<R>
    requires r in tb.recs
  {
    Table(tb.hash[tb.recs[r].key := r], tb.recs[r := tb.recs[r].(useCount := 1)])
  }

  /** discard_pending_recording: unhash only this recording, and doom it. */
  function DiscardHold<R(==)>(tb: Table<R>, r: R): Table<R>
    requires r in tb.recs
  {
    Table(if Hashed(tb, r) then tb.hash - {tb.recs[r].key} else tb.hash,
          tb.recs[r := tb.recs[r].(doomed := true)])
  }

  /** The entry under `k` is a recording of `call`. */
  ghost predicate HashedFor<R>(tb: Table<R>, k: string, call: string) {
    k in tb.hash && tb.hash[k] in tb.recs && tb.recs[tb.hash[k]].uuid == call
  }

  ghost predicate HasRecording<R>(tb: Table<R>, call: string) { exists k :: HashedFor(tb, k, call) }

  /** How many keys one scan of drain_recordings takes. */
  const DRAIN_BATCH := 16

  predicate Matches(rec: Rec, call: Option<string>) {
    call == None || rec.uuid == call.value
  }

  /** The keys one scan of drain_recordings or release_call_handler selects. */
  function MatchingKeys<R(==)>(tb: Table<R>, call: Option<string>): set<string>
    requires NoDangling(tb)
  {
    set k | k in tb.hash && Matches(tb.recs[tb.hash[k]], call)
  }
}
