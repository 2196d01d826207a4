/** The ownership discipline of recordings_mutex, without program counters.
  *
  * A ledger records who holds what: `pins` maps a thread to the recording it
  * pinned, `owns` to the recording it alone may free. RecordingProtocol's steps
  * map to the moves below (see ProtocolOwnership). */
module Ledger {
  import opened Common

  datatype Account = Account(key: string, uses: int, doomed: bool)

  datatype Ledger = Ledger(hash: map<string, RecId>, accounts: map<RecId, Account>,
                           pins: map<Tid, RecId>, owns: map<Tid, RecId>)

  ghost predicate InHash(l: Ledger, r: RecId) {
    r in l.accounts && l.accounts[r].key in l.hash && l.hash[l.accounts[r].key] == r
  }

  ghost function Pinners(pins: map<Tid, RecId>, r: RecId): set<Tid> {
    set t | t in pins && pins[t] == r
  }

  ghost predicate HashOk(l: Ledger) {
    forall k :: k in l.hash ==>
      l.hash[k] in l.accounts && l.accounts[l.hash[k]].key == k && !l.accounts[l.hash[k]].doomed
  }

  /** use_count is the number of threads holding a pin. */
  ghost predicate PinsOk(l: Ledger) {
    && (forall t :: t in l.pins ==> l.pins[t] in l.accounts)
    && (forall r :: r in l.accounts ==> l.accounts[r].uses == |Pinners(l.pins, r)|)
  }

  /** An owner is the only thread that can reach its recording. */
  ghost predicate OwnsOk(l: Ledger) {
    && (forall t :: t in l.owns ==>
          l.owns[t] in l.accounts && l.accounts[l.owns[t]].uses == 0 && !InHash(l, l.owns[t]))
    && (forall t, u :: t in l.owns && u in l.owns && l.owns[t] == l.owns[u] ==> t == u)
  }

  ghost predicate Owned(owns: map<Tid, RecId>, r: RecId) {
    exists t :: t in owns && owns[t] == r
  }

  /** The recording is in the hash, or doomed and waiting for its last pin, or has an owner. */
  ghost predicate Placed(l: Ledger, r: RecId)
    requires r in l.accounts
  {
    InHash(l, r) || (l.accounts[r].doomed && l.accounts[r].uses > 0) || Owned(l.owns, r)
  }

  /** No live recording is stranded. */
  ghost predicate Accounted(l: Ledger) {
    forall r :: r in l.accounts ==> Placed(l, r)
  }

  ghost predicate Inv(l: Ledger) {
    HashOk(l) && PinsOk(l) && OwnsOk(l) && Accounted(l)
  }

  ghost function Bit(b: bool): int { if b then 1 else 0 }

  lemma PinnersAdd(pins: map<Tid, RecId>, t: Tid, p: RecId, r: RecId)
    requires t !in pins
    ensures |Pinners(pins[t := p], r)| == |Pinners(pins, r)| + Bit(p == r)
  {
    assert Pinners(pins[t := p], r) == Pinners(pins, r) + if p == r then {t} else {};
  }

  lemma PinnersDrop(pins: map<Tid, RecId>, t: Tid, r: RecId)
    requires t in pins
    ensures |Pinners(pins - {t}, r)| == |Pinners(pins, r)| - Bit(pins[t] == r)
  {
    assert Pinners(pins, r) == Pinners(pins - {t}, r) + if pins[t] == r then {t} else {};
  }

  lemma PinnedIsUsed(l: Ledger, t: Tid)
    requires PinsOk(l) && t in l.pins
    ensures l.accounts[l.pins[t]].uses > 0
  {
    assert t in Pinners(l.pins, l.pins[t]);
  }

  /** A private recording_t is allocated; its thread owns it. */
  lemma Allocates(l: Ledger, t: Tid, r: RecId, key: string)
    requires Inv(l) && t !in l.owns && r !in l.accounts
    ensures Inv(l.(accounts := l.accounts[r := Account(key, 0, false)], owns := l.owns[t := r]))
  {
    var l' := l.(accounts := l.accounts[r := Account(key, 0, false)], owns := l.owns[t := r]);
    assert PinsOk(l') by { assert Pinners(l.pins, r) == {}; }
    assert OwnsOk(l') by { AllocOwns(l, l', t, r, key); }
    assert Accounted(l') by { AllocPlaces(l, l', t, r, key); }
  }

  lemma AllocOwns(l: Ledger, l': Ledger, t: Tid, r: RecId, key: string)
    requires HashOk(l) && OwnsOk(l) && t !in l.owns && r !in l.accounts
    requires l' == l.(accounts := l.accounts[r := Account(key, 0, false)], owns := l.owns[t := r])
    ensures OwnsOk(l')
  {
    forall u | u in l'.owns ensures l'.owns[u] in l'.accounts && l'.accounts[l'.owns[u]].uses == 0 && !InHash(l', l'.owns[u]) {
      if u != t { assert !InHash(l, l.owns[u]); }
    }
  }

  lemma AllocPlaces(l: Ledger, l': Ledger, t: Tid, r: RecId, key: string)
    requires Accounted(l) && t !in l.owns && r !in l.accounts
    requires l' == l.(accounts := l.accounts[r := Account(key, 0, false)], owns := l.owns[t := r])
    ensures Accounted(l')
  {
    forall q | q in l'.accounts ensures Placed(l', q) {
      if q == r { assert l'.owns[t] == q; }
      else {
        assert Placed(l, q);
        if Owned(l.owns, q) { KeepsOwner(l.owns, l'.owns, t, q); }
      }
    }
  }

  lemma KeepsOwner(owns: map<Tid, RecId>, owns': map<Tid, RecId>, t: Tid, q: RecId)
    requires Owned(owns, q) && (t in owns ==> owns[t] != q)
    requires forall u :: u in owns && u != t ==> u in owns' && owns'[u] == owns[u]
    ensures Owned(owns', q)
  {
    var u :| u in owns && owns[u] == q;
    assert owns'[u] == q;
  }

  /** An owned recording's pool is destroyed. */
  lemma Frees(l: Ledger, t: Tid)
    requires Inv(l) && t in l.owns
    ensures Inv(l.(accounts := l.accounts - {l.owns[t]}, owns := l.owns - {t}))
  {
    var r := l.owns[t];
    var l' := l.(accounts := l.accounts - {r}, owns := l.owns - {t});
    forall u | u in l.pins ensures l.pins[u] in l'.accounts { PinnedIsUsed(l, u); }
    forall q | q in l'.accounts
      ensures Placed(l', q)
    {
      if Owned(l.owns, q) { KeepsOwner(l.owns, l'.owns, t, q); }
    }
  }

  ghost function Used(l: Ledger, r: RecId, delta: int): map<RecId, Account>
    requires r in l.accounts
  {
    l.accounts[r := l.accounts[r].(uses := l.accounts[r].uses + delta)]
  }

  /** A hashed recording is pinned. */
  lemma Pins(l: Ledger, t: Tid, key: string)
    requires Inv(l) && t !in l.pins && key in l.hash
    ensures Inv(l.(accounts := Used(l, l.hash[key], 1), pins := l.pins[t := l.hash[key]]))
  {
    var r := l.hash[key];
    var l' := l.(accounts := Used(l, r, 1), pins := l.pins[t := r]);
    forall q | q in l'.accounts ensures l'.accounts[q].uses == |Pinners(l'.pins, q)| { PinnersAdd(l.pins, t, r, q); }
  }

  /** A pin is dropped and others remain, or the recording is still in the hash. */
  lemma Unpins(l: Ledger, t: Tid)
    requires Inv(l) && t in l.pins
    requires l.accounts[l.pins[t]].uses != 1 || !l.accounts[l.pins[t]].doomed
    ensures Inv(l.(accounts := Used(l, l.pins[t], -1), pins := l.pins - {t}))
  {
    var r := l.pins[t];
    var l' := l.(accounts := Used(l, r, -1), pins := l.pins - {t});
    PinnedIsUsed(l, t);
    assert PinsOk(l') by { DropsPin(l, l', t); }
    forall q | q in l'.accounts ensures Placed(l', q) { assert Placed(l, q); }
  }

  lemma DropsPin(l: Ledger, l': Ledger, t: Tid)
    requires PinsOk(l) && t in l.pins && l'.accounts == Used(l, l.pins[t], -1) && l'.pins == l.pins - {t}
    ensures PinsOk(l')
  {
    forall q | q in l'.accounts ensures l'.accounts[q].uses == |Pinners(l'.pins, q)| { PinnersDrop(l.pins, t, q); }
  }

  /** The last pin on a doomed recording is dropped: its thread becomes the owner. */
  lemma UnpinsLast(l: Ledger, t: Tid)
    requires Inv(l) && t in l.pins && t !in l.owns
    requires l.accounts[l.pins[t]].uses == 1 && l.accounts[l.pins[t]].doomed
    ensures Inv(l.(accounts := Used(l, l.pins[t], -1), pins := l.pins - {t}, owns := l.owns[t := l.pins[t]]))
  {
    var r := l.pins[t];
    var l' := l.(accounts := Used(l, r, -1), pins := l.pins - {t}, owns := l.owns[t := r]);
    assert OwnsOk(l') by { assert forall u :: u in l.owns ==> l.owns[u] != r; }
    assert PinsOk(l') by { DropsPin(l, l', t); }
    assert Accounted(l') by { GainsOwner(l, l', t, r); }
  }

  /** When `t` newly owns `r` and nothing else is worse off, no live recording is stranded. */
  lemma GainsOwner(l: Ledger, l': Ledger, t: Tid, r: RecId)
    requires Accounted(l) && t !in l.owns && l'.owns == l.owns[t := r] && l'.accounts.Keys == l.accounts.Keys
    requires forall q :: q in l.accounts && q != r ==>
      l'.accounts[q] == l.accounts[q] && (InHash(l, q) ==> InHash(l', q))
    ensures Accounted(l')
  {
    forall q | q in l'.accounts ensures Placed(l', q)
    {
      assert Placed(l, q);
      assert l'.owns[t] == r;
      if Owned(l.owns, q) { KeepsOwner(l.owns, l'.owns, t, q); }
    }
  }

  /** An unpinned recording leaves the hash and becomes its claimer's. */
  lemma Claims(l: Ledger, t: Tid, key: string)
    requires Inv(l) && t !in l.owns && key in l.hash && l.accounts[l.hash[key]].uses == 0
    ensures Inv(l.(hash := l.hash - {key}, owns := l.owns[t := l.hash[key]]))
  {
    var l' := l.(hash := l.hash - {key}, owns := l.owns[t := l.hash[key]]);
    assert InHash(l, l.hash[key]);
    GainsOwner(l, l', t, l.hash[key]);
  }

  /** A pinned recording leaves the hash and is doomed. */
  lemma Dooms(l: Ledger, key: string)
    requires Inv(l) && key in l.hash && l.accounts[l.hash[key]].uses > 0
    ensures var r := l.hash[key];
      Inv(l.(hash := l.hash - {key}, accounts := l.accounts[r := l.accounts[r].(doomed := true)]))
  {
  }

  /** A pinned recording is doomed and, if it is still the one hashed, unhashed. */
  lemma Discards(l: Ledger, t: Tid)
    requires Inv(l) && t in l.pins
    ensures var r := l.pins[t];
      Inv(l.(hash := if InHash(l, r) then l.hash - {l.accounts[r].key} else l.hash,
             accounts := l.accounts[r := l.accounts[r].(doomed := true)]))
  {
    PinnedIsUsed(l, t);
  }

  /** A private recording enters the hash, pinned; a stale unpinned entry becomes its thread's to free. */
  lemma Inserts(l: Ledger, t: Tid)
    requires Inv(l) && t in l.owns && t !in l.pins && !l.accounts[l.owns[t]].doomed
    requires l.accounts[l.owns[t]].key in l.hash ==> l.accounts[l.hash[l.accounts[l.owns[t]].key]].uses == 0
    ensures var r := l.owns[t];
      var key := l.accounts[r].key;
      Inv(Ledger(l.hash[key := r], Used(l, r, 1), l.pins[t := r],
                 if key in l.hash then l.owns[t := l.hash[key]] else l.owns - {t}))
  {
    var r := l.owns[t];
    var key := l.accounts[r].key;
    var l' := Ledger(l.hash[key := r], Used(l, r, 1), l.pins[t := r],
                     if key in l.hash then l.owns[t := l.hash[key]] else l.owns - {t});
    assert PinsOk(l') by {
      forall q | q in l'.accounts ensures l'.accounts[q].uses == |Pinners(l'.pins, q)| { PinnersAdd(l.pins, t, r, q); }
    }
    assert Accounted(l') by { InsertPlaces(l, l', t); }
  }

  lemma InsertPlaces(l: Ledger, l': Ledger, t: Tid)
    requires Accounted(l) && HashOk(l) && t in l.owns && l.owns[t] in l.accounts
    requires var r := l.owns[t];
      var key := l.accounts[r].key;
      && l'.hash == l.hash[key := r] && l'.accounts == Used(l, r, 1)
      && l'.owns == if key in l.hash then l.owns[t := l.hash[key]] else l.owns - {t}
    ensures Accounted(l')
  {
    var r := l.owns[t];
    var key := l.accounts[r].key;
    assert key in l.hash ==> l'.owns[t] == l.hash[key];
    forall q | q in l'.accounts
      ensures Placed(l', q)
    {
      if q != r {
        assert Placed(l, q);
        if Owned(l.owns, q) { KeepsOwner(l.owns, l'.owns, t, q); }
      }
    }
  }
}
