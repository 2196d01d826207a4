/** The growable string buffer of siprec_sb.c, under an allocator that may refuse any call. */
module StringBuffer {

  /** SB_MAX_CAP: 64 MiB. */
  const MAX_CAP := 0x400_0000

  // ---- capacities ----

  function Pow2(k: nat): (p: nat)
    ensures p >= 1
  {
    if k == 0 then 1 else 2 * Pow2(k - 1)
  }

  /** The capacity after `k` doublings. */
  function Cap(k: nat): (c: nat)
    ensures c >= 256
  {
    256 * Pow2(k)
  }

  const DOUBLINGS := 18

  lemma {:induction false} CapGrows(i: nat, j: nat)
    requires i < j
    ensures 2 * Cap(i) <= Cap(j)
    decreases j
  {
    if i < j - 1 { CapGrows(i, j - 1); }
  }

  lemma CapLimit()
    ensures Cap(DOUBLINGS) == MAX_CAP
  {
    assert Pow2(6) == 64;
    assert Pow2(12) == 4096;
    assert Pow2(18) == 262144;
  }

  /** A capacity short of the ceiling may double once more. */
  lemma BelowLimit(k: nat, want: nat)
    requires k <= DOUBLINGS && Cap(k) < want <= MAX_CAP
    ensures k < DOUBLINGS && Cap(k + 1) == 2 * Cap(k) <= MAX_CAP
  {
    CapLimit();
    if k + 1 < DOUBLINGS { CapGrows(k + 1, DOUBLINGS); }
  }

  lemma CapIsBounded(k: nat)
    requires k <= DOUBLINGS
    ensures Cap(k) <= MAX_CAP
  {
    CapLimit();
    if k < DOUBLINGS { CapGrows(k, DOUBLINGS); }
  }

  function Sum(sizes: seq<nat>): nat {
    if sizes == [] then 0 else Sum(sizes[..|sizes| - 1]) + sizes[|sizes| - 1]
  }

  lemma SumSnoc(sizes: seq<nat>, n: nat)
    ensures Sum(sizes + [n]) == Sum(sizes) + n
  {
    assert (sizes + [n])[..|sizes|] == sizes;
  }

  // ---- the allocator ----

  /** realloc: its k-th call is answered by `grants(k)`. */
  class Allocator {
    const grants: nat -> bool
    var calls: nat

    constructor (grants: nat -> bool)
      ensures this.grants == grants && calls == 0
    {
      this.grants := grants;
      calls := 0;
    }

    ghost predicate Generous() { forall k :: grants(k) }

    method Ask() returns (ok: bool)
      modifies this
      ensures ok == grants(old(calls)) && calls == old(calls) + 1
    {
      ok := grants(calls);
      calls := calls + 1;
    }
  }

  // ---- the buffer ----

  class Buffer {
    const alloc: Allocator
    var data: array?<char>
    var len: nat
    var cap: nat
    var err: bool
    /** Everything handed to the appends, in order. */
    ghost var sent: string
    /** The sizes granted while growing. */
    ghost var granted: seq<nat>
    ghost var doublings: nat

    ghost predicate Valid()
      reads this, data
    {
      && (data == null ==> cap == 0 && len == 0 && granted == [])
      && (data != null ==>
            && data.Length == cap == Cap(doublings) && len < cap && data[len] == '\0'
            && Sum(granted) < 2 * cap)
      && doublings <= DOUBLINGS
      && (!err ==> if data == null then sent == [] else data[..len] == sent)
    }

    /** `s` was appended since the earlier state: unless the error has latched, the text is longer by `s`; it latches
      * only when memory is refused or the ceiling is met, and for good. */
    twostate predicate Wrote(s: string)
      reads this, data
    {
      && Valid() && (data == old(data) || fresh(data)) && sent == old(sent) + s
      && (old(err) ==> err)
      && (!old(err) && alloc.Generous() && |sent| < MAX_CAP ==> !err)
      && (!err && old(data) != null ==> data != null)
    }

    constructor (alloc: Allocator)
      ensures Valid() && this.alloc == alloc && sent == [] && !err && data == null
    {
      this.alloc := alloc;
      data, len, cap, err := null, 0, 0, false;
      sent, granted, doublings := [], [], 0;
    }

    /** sb_can_grow_by. */
    predicate CanGrowBy(extra: nat)
      reads this
    {
      len + extra + 1 <= MAX_CAP
    }

    /** sb_reserve: double from 256, or from the capacity at hand, until `want` fits, and ask for that. */
    method Reserve(want: nat) returns (ok: bool)
      requires Valid() && !err && len < want <= MAX_CAP
      modifies this`data, this`cap, this`err, this`granted, this`doublings, alloc
      ensures ok == !err && len == old(len) && sent == old(sent)
      ensures ok <==> want <= old(cap) || alloc.grants(old(alloc.calls))
      ensures data == old(data) || fresh(data)
      ensures ok ==> data != null && data.Length == cap >= want && cap == Cap(doublings) && doublings <= DOUBLINGS
                     && Sum(granted) < 2 * cap && data[..len] == sent
      ensures !ok ==> Valid()
      ensures old(cap) <= cap <= MAX_CAP
    {
      CapIsBounded(doublings);
      if want <= cap { return true; }
      var newCap, k := NextCap(want);
      var granting := alloc.Ask();
      if !granting {
        err := true;
        return false;
      }
      Move(newCap, k);
      ok := true;
    }

    /** The granted block replaces the old one. */
    method Move(newCap: nat, ghost k: nat)
      requires Valid() && !err && len < newCap && newCap == Cap(k) && k <= DOUBLINGS && Sum(granted) < newCap
      modifies this`data, this`cap, this`granted, this`doublings
      ensures data != null && fresh(data) && data.Length == cap == newCap && doublings == k
      ensures Sum(granted) < 2 * cap && data[..len] == sent
    {
      var grown := Grown(newCap);
      SumSnoc(granted, newCap);
      granted := granted + [newCap];
      data, cap, doublings := grown, newCap, k;
    }

    /** The doubling loop. What was granted before adds up to less than the new capacity. */
    method NextCap(want: nat) returns (newCap: nat, ghost k: nat)
      requires Valid() && cap < want <= MAX_CAP
      ensures k <= DOUBLINGS && newCap == Cap(k) && want <= newCap <= MAX_CAP && Sum(granted) < newCap
    {
      newCap := if cap != 0 then cap else 256;
      k := if cap != 0 then doublings else 0;
      while newCap < want
        invariant k <= DOUBLINGS && newCap == Cap(k)
        invariant if newCap == cap then k == doublings else 2 * cap <= newCap
        decreases MAX_CAP - newCap
      {
        BelowLimit(k, want);
        newCap := newCap * 2;
        k := k + 1;
      }
      CapIsBounded(k);
    }

    /** The bytes so far in a larger block. */
    method Grown(newCap: nat) returns (grown: array<char>)
      requires Valid() && len <= newCap
      ensures fresh(grown) && grown.Length == newCap
      ensures data != null ==> grown[..len] == data[..len]
    {
      grown := new char[newCap](_ => '\0');
      for i := 0 to len
        invariant data != null ==> grown[..i] == data[..i]
      {
        grown[i] := data[i];
      }
    }

    /** sb_append: no bytes change nothing; otherwise the text is added, or the error latches and stays. */
    method Append(s: string)
      requires Valid()
      modifies this, data, alloc
      ensures Wrote(s) && old(cap) <= cap
      ensures !old(err) ==> (err <==> s != [] && Refused(old(len), old(cap), old(alloc.calls), |s|))
      ensures !err ==> (data == null <==> old(data) == null && s == [])
    {
      sent := sent + s;
      if err { return; }
      if s == [] { assert sent == old(sent); return; }
      if !CanGrowBy(|s|) { err := true; return; }
      sent := old(sent);
      var ok := Reserve(len + |s| + 1);
      sent := sent + s;
      if ok { Copy(s); }
    }

    /** sb_appendf, given the text it formats: even an empty text makes the buffer exist. */
    method AppendFormatted(s: string)
      requires Valid()
      modifies this, data, alloc
      ensures Wrote(s) && old(cap) <= cap
      ensures !old(err) ==> (err <==> Refused(old(len), old(cap), old(alloc.calls), |s|))
      ensures !err ==> data != null
    {
      sent := sent + s;
      if err { return; }
      if !CanGrowBy(|s|) { err := true; return; }
      sent := old(sent);
      var ok := Reserve(len + |s| + 1);
      sent := sent + s;
      if ok { Copy(s); }
    }

    /** Would `extra` more bytes break the ceiling, or need memory the allocator's next answer denies? */
    predicate Refused(len: nat, cap: nat, calls: nat, extra: nat) {
      len + extra + 1 > MAX_CAP || (len + extra + 1 > cap && !alloc.grants(calls))
    }

    /** The bytes and their terminator behind what is there. */
    method Copy(s: string)
      requires data != null && data.Length == cap && len + |s| < cap && !err
      requires cap == Cap(doublings) && doublings <= DOUBLINGS && Sum(granted) < 2 * cap
      requires data[..len] + s == sent
      modifies this`len, data
      ensures Valid() && len == old(len) + |s|
    {
      for i := 0 to |s|
        invariant data[..len + i] == old(data[..len]) + s[..i]
        modifies data
      {
        data[len + i] := s[i];
      }
      len := len + |s|;
      data[len] := '\0';
    }

    /** sb_take: nothing after an error or without an append; otherwise everything appended, terminated. A refused
      * shrink hands over the buffer as it is. */
    method Take() returns (text: array?<char>)
      requires Valid()
      modifies alloc
      ensures text == null <==> err || data == null
      ensures text != null ==> |sent| < text.Length && text[..|sent|] == sent && text[|sent|] == '\0'
    {
      if err || data == null { return null; }
      var shrunk := alloc.Ask();
      if !shrunk { return data; }
      text := new char[len + 1](_ => '\0');
      for i := 0 to len
        invariant text[..i] == data[..i] && text[len] == '\0'
        modifies text
      {
        text[i] := data[i];
      }
    }
  }
}
