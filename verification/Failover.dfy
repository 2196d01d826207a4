/** Recording servers: failover chains as linked lists, from the configuration to the INVITE. */
module Failover {
  import opened Common

  /** One configured entry. */
  datatype Settings = Settings(name: string, host: Option<string>, port: int, transport: Option<string>,
                               separate: int, uri: Option<string>)

  /** recording_server_t. `freed` says that the pool it lives in was destroyed: from then on nothing of it may be read,
    * and it may not be destroyed again. */
  class RecordingServer {
    const settings: Settings
    var next: RecordingServer?
    var freed: bool

    constructor (settings: Settings)
      ensures this.settings == settings && next == null && !freed
    {
      this.settings := settings;
      next, freed := null, false;
    }

    function Entry(): Settings
      reads this
      requires !freed
    {
      settings
    }

    function Next(): RecordingServer?
      reads this
      requires !freed
    {
      next
    }

    /** switch_core_destroy_memory_pool. */
    method Destroy()
      requires !freed
      modifies this`freed
      ensures freed
    {
      freed := true;
    }
  }

  /** None of them has been freed. */
  ghost predicate Standing(nodes: seq<RecordingServer>)
    reads nodes
  {
    forall x :: x in nodes ==> !x.freed
  }

  /** `chain` is the list that starts at `head`. */
  ghost predicate IsChain(head: RecordingServer?, chain: seq<RecordingServer>)
    reads chain
  {
    && (head == null <==> chain == [])
    && (chain != [] ==> chain[0] == head && chain[|chain| - 1].next == null)
    && (forall i :: 0 <= i < |chain| - 1 ==> chain[i].next == chain[i + 1])
    && (forall i, j :: 0 <= i < j < |chain| ==> chain[i] != chain[j])
  }

  function Values(chain: seq<RecordingServer>): seq<Settings> {
    seq(|chain|, i requires 0 <= i < |chain| => chain[i].settings)
  }

  /** The entries of one name, in the order of the configuration. */
  function Named(entries: seq<Option<Settings>>, name: string): seq<Settings> {
    if entries == [] then []
    else
      var e := entries[|entries| - 1];
      Named(entries[..|entries| - 1], name) + if e.Some? && e.value.name == name then [e.value] else []
  }

  // ---- the configuration ----

  class Config {
    var servers: map<string, RecordingServer>
    ghost var chains: map<string, seq<RecordingServer>>
    ghost var nodes: set<RecordingServer>

    ghost predicate Valid()
      reads this, nodes
    {
      && servers.Keys == chains.Keys
      && (forall k :: k in chains ==> chains[k] != [] && ChainOk(k))
      && (forall x :: x in nodes ==> x.settings.name in chains && x in chains[x.settings.name])
    }

    ghost predicate ChainOk(k: string)
      reads this, nodes
      requires k in chains && k in servers
    {
      ChainLinked(k) && Standing(chains[k])
    }

    /** The chain of a name holds that name's entries, whatever became of their pools. */
    ghost predicate ChainLinked(k: string)
      reads this, nodes
      requires k in chains && k in servers
    {
      (forall x :: x in chains[k] ==> x in nodes && x.settings.name == k) && IsChain(servers[k], chains[k])
    }

    ghost predicate Linked()
      reads this, nodes
    {
      && servers.Keys == chains.Keys && (forall k :: k in chains ==> ChainLinked(k))
      && (forall x :: x in nodes ==> x.settings.name in chains && x in chains[x.settings.name])
    }

    /** The failover candidates configured under a name, in order. */
    ghost function Candidates(k: string): seq<Settings>
      reads this
    {
      if k in chains then Values(chains[k]) else []
    }

    constructor ()
      ensures Valid() && servers == map[] && nodes == {}
    {
      servers, chains, nodes := map[], map[], {};
    }

    /** The append at the end of load_recording_server: a second entry of a name goes to the end of its chain. */
    method Load(settings: Settings)
      requires Valid()
      modifies this, nodes
      ensures Valid() && fresh(nodes - old(nodes)) && old(nodes) <= nodes
      ensures Candidates(settings.name) == old(Candidates(settings.name)) + [settings]
      ensures forall k :: k != settings.name ==> Candidates(k) == old(Candidates(k))
    {
      var server := new RecordingServer(settings);
      var name := settings.name;
      ghost var before := if name in chains then chains[name] else [];
      if name in servers {
        assert ChainOk(name);
        Append(servers[name], before, server);
      } else {
        servers := servers[name := server];
      }
      forall k | k in chains && k != name ensures chains[k] != [] && ChainOk(k) { OtherChain(k); }
      Enter(name, before, server);
    }

    /** The new entry is the last of its name's chain. */
    ghost method Enter(name: string, before: seq<RecordingServer>, server: RecordingServer)
      requires servers.Keys == chains.Keys + {name} && before == if name in chains then chains[name] else []
      requires IsChain(servers[name], before + [server]) && server.settings.name == name && !server.freed
      requires Standing(before) && forall x :: x in before ==> x in nodes && x.settings.name == name
      requires forall x :: x in nodes ==> x.settings.name in chains && x in chains[x.settings.name]
      requires forall k :: k in chains && k != name ==> chains[k] != [] && ChainOk(k)
      modifies this`chains, this`nodes
      ensures Valid() && chains == old(chains)[name := before + [server]] && nodes == old(nodes) + {server}
      ensures Candidates(name) == old(Candidates(name)) + [server.settings]
      ensures forall k :: k != name ==> Candidates(k) == old(Candidates(k))
    {
      chains := chains[name := before + [server]];
      nodes := nodes + {server};
      assert Values(before + [server]) == Values(before) + [server.settings];
      assert ChainOk(name);
      forall k | k in chains && k != name ensures chains[k] != [] && ChainOk(k) { assert old(ChainOk(k)); }
    }

    /** A chain none of whose entries changed is as it was. */
    twostate lemma OtherChain(k: string)
      requires old(Valid()) && k in old(chains) && k in servers && servers[k] == old(servers)[k]
      requires k in chains && chains[k] == old(chains)[k] && old(nodes) <= nodes
      requires forall x :: x in old(nodes) && x.settings.name == k ==> x.next == old(x.next) && x.freed == old(x.freed)
      ensures chains[k] != [] && ChainOk(k)
    {
      assert old(ChainOk(k));
    }

    /** A chain whose links did not change is still one. */
    twostate lemma SameLinks()
      requires old(Linked()) && servers == old(servers) && chains == old(chains) && nodes == old(nodes)
      requires forall x :: x in nodes ==> x.next == old(x.next)
      ensures Linked()
    {
      forall k | k in chains ensures ChainLinked(k) { assert old(ChainLinked(k)); }
    }

    /** One name's chain goes, and no other; `left` are the names whose entries stand. */
    method FreeNamed(k: string, ghost left: set<string>)
      requires Linked() && k in servers && k in left && forall x :: x in nodes ==> (x.freed <==> x.settings.name !in left)
      modifies nodes
      ensures Linked() && forall x :: x in nodes ==> (x.freed <==> x.settings.name !in left - {k})
    {
      assert ChainLinked(k);
      FreeChain(servers[k], chains[k]);
      SameLinks();
    }

    lemma AllStand()
      requires Valid()
      ensures Linked() && forall x :: x in nodes ==> !x.freed
    {
      forall k | k in chains ensures ChainLinked(k) { assert ChainOk(k); }
      forall x | x in nodes ensures !x.freed { assert ChainOk(x.settings.name); }
    }

    /** The walk over the hash, in any order. */
    method FreeAll()
      requires Linked() && forall x :: x in nodes ==> !x.freed
      modifies nodes
      ensures forall x :: x in nodes ==> x.freed
    {
      var names := servers.Keys;
      while names != {}
        invariant names <= servers.Keys
        invariant Linked() && forall x :: x in nodes ==> (x.freed <==> x.settings.name !in names)
        decreases |names|
      {
        var k :| k in names;
        FreeNamed(k, names);
        names := names - {k};
      }
    }

    /** free_recording_servers: every entry's pool is destroyed, none twice, whatever order the hash yields. */
    method Free()
      requires Valid()
      modifies this, nodes
      ensures forall x :: x in old(nodes) ==> x.freed
      ensures servers == map[] && chains == map[] && nodes == {} && Valid()
    {
      AllStand();
      FreeAll();
      servers, chains, nodes := map[], map[], {};
    }
  }

  /** The end of a chain. */
  method Last(head: RecordingServer, ghost chain: seq<RecordingServer>) returns (last: RecordingServer)
    requires IsChain(head, chain) && Standing(chain)
    ensures chain != [] && last == chain[|chain| - 1]
  {
    last := head;
    ghost var i := 0;
    while last.Next() != null
      invariant 0 <= i < |chain| && last == chain[i]
      invariant last.next == if i < |chain| - 1 then chain[i + 1] else null
      decreases |chain| - i
    {
      last := last.Next();
      i := i + 1;
    }
  }

  /** A new entry behind the last one. */
  method Append(head: RecordingServer, ghost chain: seq<RecordingServer>, server: RecordingServer)
    requires IsChain(head, chain) && Standing(chain) && server !in chain && server.next == null
    modifies chain
    ensures IsChain(head, chain + [server]) && Values(chain + [server]) == Values(chain) + [server.settings]
    ensures forall x :: x in chain ==> x.freed == old(x.freed)
    ensures server.next == null
  {
    var last := Last(head, chain);
    last.next := server;
  }

  /** One chain is walked reading `next` before its entry goes; each entry goes once. */
  method FreeChain(head: RecordingServer?, ghost chain: seq<RecordingServer>)
    requires IsChain(head, chain) && Standing(chain)
    modifies chain
    ensures forall x :: x in chain ==> x.freed && x.next == old(x.next)
  {
    var server := head;
    ghost var i := 0;
    while server != null
      invariant 0 <= i <= |chain| && server == (if i < |chain| then chain[i] else null)
      invariant forall j :: 0 <= j < |chain| ==> (chain[j].freed <==> j < i)
      invariant forall x :: x in chain ==> x.next == old(x.next)
      decreases |chain| - i
    {
      var next := server.Next();
      server.Destroy();
      server := next;
      i := i + 1;
    }
  }

  // ---- loading ----

  lemma NamedSnoc(entries: seq<Option<Settings>>, e: Option<Settings>, name: string)
    ensures Named(entries + [e], name) == Named(entries, name) + if e.Some? && e.value.name == name then [e.value] else []
  {
    assert (entries + [e])[..|entries|] == entries;
  }

  /** load_recording_servers: a bad entry (`None`) is skipped; the rest make one chain per name, in the file's order. */
  method LoadAll(entries: seq<Option<Settings>>) returns (config: Config)
    ensures fresh(config) && fresh(config.nodes) && config.Valid()
    ensures forall name :: config.Candidates(name) == Named(entries, name)
  {
    config := new Config();
    for i := 0 to |entries|
      invariant fresh(config) && fresh(config.nodes) && config.Valid()
      invariant forall name :: config.Candidates(name) == Named(entries[..i], name)
    {
      assert entries[..i + 1] == entries[..i] + [entries[i]];
      forall name { NamedSnoc(entries[..i], entries[i], name); }
      if entries[i].Some? { config.Load(entries[i].value); }
    }
    assert entries[..|entries|] == entries;
  }

  // ---- the start's private copy ----

  /** copy_server_chain: new entries with the same values in the same order; the original is only read. */
  method CopyChain(src: RecordingServer?, ghost chain: seq<RecordingServer>) returns (head: RecordingServer?, ghost copy: seq<RecordingServer>)
    requires IsChain(src, chain) && Standing(chain)
    ensures IsChain(head, copy) && Values(copy) == Values(chain)
    ensures Standing(copy) && forall c :: c in copy ==> fresh(c)
  {
    head := null;
    copy := [];
    var tail: RecordingServer? := null;
    var s := src;
    while s != null
      invariant |copy| <= |chain| && s == (if |copy| < |chain| then chain[|copy|] else null)
      invariant IsChain(src, chain) && Standing(chain)
      invariant IsChain(head, copy) && Values(copy) == Values(chain)[..|copy|]
      invariant tail == if copy == [] then null else copy[|copy| - 1]
      invariant tail != null ==> fresh(tail)
      invariant Standing(copy) && forall c :: c in copy ==> fresh(c)
      decreases |chain| - |copy|
    {
      var c := new RecordingServer(s.Entry());
      if tail == null { head := c; } else { tail.next := c; }
      tail := c;
      copy := copy + [c];
      s := s.Next();
    }
  }

  // ---- dispatch ----

  const MAX_ATTEMPTS := 16

  /** siprec_uri_for finds something to dial: a complete URI, or a host to make one of. */
  predicate Dialable(s: Settings) { (s.uri.Some? && s.uri.value != "") || s.host.Some? }

  /** The URI dialled; `format` renders host, port and transport. */
  function UriFor(s: Settings, format: Settings -> string): string
    requires Dialable(s)
  {
    if s.uri.Some? && s.uri.value != "" then s.uri.value else format(s)
  }

  /** The URIs of the candidates that have one, in order. */
  function Uris(cands: seq<Settings>, format: Settings -> string): seq<string> {
    if cands == [] then []
    else
      var c := cands[|cands| - 1];
      Uris(cands[..|cands| - 1], format) + if Dialable(c) then [UriFor(c, format)] else []
  }

  /** The entries reached from `s` in at most `n` steps; a chain that cycles just repeats. */
  ghost function Reach(s: RecordingServer?, n: nat): (r: seq<RecordingServer>)
    reads *
    ensures |r| <= n
  {
    if s == null || n == 0 then [] else [s] + Reach(s.next, n - 1)
  }

  lemma {:induction false} ReachChain(s: RecordingServer?, chain: seq<RecordingServer>, n: nat)
    requires IsChain(s, chain)
    ensures Reach(s, n) == if n <= |chain| then chain[..n] else chain
  {
    if s != null && n > 0 {
      assert s.next == if |chain| > 1 then chain[1] else null;
      ReachChain(s.next, chain[1..], n - 1);
    }
  }

  /** Candidate `k` is the first that both has a URI and answers. */
  ghost predicate FirstToAnswer(cands: seq<Settings>, answers: nat -> bool, k: nat) {
    k < |cands| && Dialable(cands[k]) && answers(k) && NoneAnswers(cands[..k], answers)
  }

  ghost predicate NoneAnswers(cands: seq<Settings>, answers: nat -> bool) {
    forall j :: 0 <= j < |cands| ==> !(Dialable(cands[j]) && answers(j))
  }

  /** What dispatching to an ordered list of candidates does: success at the first that answers, having tried exactly
    * those before it that have a URI; failure when none does, having tried all. */
  ghost predicate OrderedSearch(cands: seq<Settings>, format: Settings -> string, answers: nat -> bool, ok: bool, tried: seq<string>) {
    if ok then exists k :: FirstToAnswer(cands, answers, k) && tried == Uris(cands[..k + 1], format)
    else NoneAnswers(cands, answers) && tried == Uris(cands, format)
  }

  /** siprec_invite_send_failover: an ordered search of the first 16 entries of any chain, even one that cycles.
    * `answers(k)` is the outcome of the INVITE to the k-th. */
  method SendFailover(first: RecordingServer, format: Settings -> string, answers: nat -> bool)
    returns (ok: bool, tried: seq<string>)
    requires Standing(Reach(first, 16))
    ensures OrderedSearch(Values(Reach(first, 16)), format, answers, ok, tried)
  {
    var attempts := 0;
    tried := [];
    var srv: RecordingServer? := first;
    ghost var cands := Values(Reach(first, MAX_ATTEMPTS));
    while srv != null && attempts < MAX_ATTEMPTS
      invariant attempts <= MAX_ATTEMPTS && attempts <= |cands|
      invariant Standing(Reach(srv, MAX_ATTEMPTS - attempts))
      invariant Values(Reach(srv, MAX_ATTEMPTS - attempts)) == cands[attempts..]
      invariant NoneAnswers(cands[..attempts], answers) && tried == Uris(cands[..attempts], format)
      decreases MAX_ATTEMPTS - attempts
    {
      ghost var k := attempts;
      ReachStep(srv, MAX_ATTEMPTS - k);
      AtCandidate(cands, k, srv.settings, Values(Reach(srv.next, MAX_ATTEMPTS - k - 1)));
      UrisSnoc(cands[..k], srv.settings, format);
      ghost var before := cands[..k];
      assert cands[..k + 1] == before + [srv.settings];
      attempts := attempts + 1;
      var s := srv.Entry();
      srv := srv.Next();
      if Dialable(s) {
        tried := tried + [UriFor(s, format)];
        if answers(attempts - 1) {
          assert FirstToAnswer(cands, answers, k);
          return true, tried;
        }
      }
      NoneSnoc(before, s, answers);
    }
    assert cands[attempts..] == [];
    assert cands[..attempts] == cands;
    ok := false;
  }

  lemma NoneSnoc(cands: seq<Settings>, s: Settings, answers: nat -> bool)
    requires NoneAnswers(cands, answers) && !(Dialable(s) && answers(|cands|))
    ensures NoneAnswers(cands + [s], answers)
  {
  }

  lemma UrisSnoc(cands: seq<Settings>, s: Settings, format: Settings -> string)
    ensures Uris(cands + [s], format) == Uris(cands, format) + if Dialable(s) then [UriFor(s, format)] else []
  {
    assert (cands + [s])[..|cands|] == cands;
  }

  lemma AtCandidate(cands: seq<Settings>, k: nat, s: Settings, rest: seq<Settings>)
    requires k <= |cands| && cands[k..] == [s] + rest
    ensures k < |cands| && cands[k] == s && cands[k + 1..] == rest && cands[..k + 1] == cands[..k] + [s]
  {
    assert cands[k] == cands[k..][0];
    assert cands[k + 1..] == cands[k..][1..];
  }

  lemma ReachStep(s: RecordingServer, n: nat)
    requires n > 0
    ensures Values(Reach(s, n)) == [s.settings] + Values(Reach(s.next, n - 1))
    ensures Standing(Reach(s, n)) ==> !s.freed && Standing(Reach(s.next, n - 1))
  {
    assert Reach(s, n) == [s] + Reach(s.next, n - 1);
  }

  /** What a search finds: it succeeds exactly if some candidate that has a complete URI, or a host to make one of, answers. */
  lemma SearchFinds(cands: seq<Settings>, format: Settings -> string, answers: nat -> bool, ok: bool, tried: seq<string>)
    requires OrderedSearch(cands, format, answers, ok, tried)
    ensures ok <==> exists k: nat ::
      k < |cands| && ((cands[k].uri.Some? && cands[k].uri.value != "") || cands[k].host.Some?) && answers(k)
  {
    if ok { var k :| FirstToAnswer(cands, answers, k) && tried == Uris(cands[..k + 1], format); }
  }

  /** What it dials, from the first candidate on: the complete URI where there is one, else what host, port and transport
    * make, and nothing where there is neither. */
  lemma {:induction false} UrisFromFirst(cands: seq<Settings>, format: Settings -> string)
    requires cands != []
    ensures Uris(cands, format)
         == (match (cands[0].uri, cands[0].host)
             case (Some(uri), host) => if uri != "" then [uri] else if host.Some? then [format(cands[0])] else []
             case (None, Some(_)) => [format(cands[0])]
             case (None, None) => [])
            + Uris(cands[1..], format)
  {
    if |cands| == 1 { assert cands[..0] == []; }
    else {
      var init := cands[..|cands| - 1];
      UrisFromFirst(init, format);
      assert init[1..] == cands[1..][..|cands| - 2];
    }
  }

  lemma FirstCandidates(head: RecordingServer?, chain: seq<RecordingServer>)
    requires IsChain(head, chain)
    ensures Values(Reach(head, MAX_ATTEMPTS))
         == if |chain| <= MAX_ATTEMPTS then Values(chain) else Values(chain)[..MAX_ATTEMPTS]
    ensures Standing(chain) ==> Standing(Reach(head, MAX_ATTEMPTS))
  {
    ReachChain(head, chain, MAX_ATTEMPTS);
  }

  /** A start under `name`: copy the configured chain, then fail over along the copy. It is an ordered search of the
    * first 16 candidates as configured, although the configuration is freed in between, and reads the copy only, which
    * stands. */
  method CopyUnloadDispatch(config: Config, name: string, format: Settings -> string, answers: nat -> bool)
    returns (ok: bool, tried: seq<string>, ghost copy: seq<RecordingServer>)
    requires config.Valid() && name in config.servers
    modifies config, config.nodes
    ensures forall x :: x in old(config.nodes) ==> x.freed
    ensures Standing(copy) && forall c :: c in copy ==> fresh(c)
    ensures var all := old(config.Candidates(name));
      OrderedSearch(if |all| <= 16 then all else all[..16], format, answers, ok, tried)
  {
    var head;
    head, copy := CopyConfigured(config, name);
    config.Free();
    assert IsChain(head, copy) && Standing(copy);
    FirstCandidates(head, copy);
    ok, tried := SendFailover(head, format, answers);
  }

  /** The start's copy of the candidates under a name. */
  method CopyConfigured(config: Config, name: string) returns (head: RecordingServer, ghost copy: seq<RecordingServer>)
    requires config.Valid() && name in config.servers
    ensures IsChain(head, copy) && Values(copy) == config.Candidates(name)
    ensures Standing(copy) && forall c :: c in copy ==> fresh(c) && c !in config.nodes
  {
    assert config.ChainOk(name);
    head, copy := CopyChain(config.servers[name], config.chains[name]);
  }
}
