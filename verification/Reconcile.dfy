/** The reconcile pass over configfs: five phases that bring the web's subsystems and
    ports to the rendered state, and the predicate that decides whether a pass is
    needed at all. */
module Reconcile {
  import opened Options
  import opened Nvmet
  import opened Machine
  import opened Frames
  import opened Targets
  import opened Sorting
  import opened NvmetOps
  import opened Render

  // ---- Desired state ----

  function Names(ss: seq<SubsysSpec>): set<Nqn> {
    set s | s in ss :: s.nqn
  }

  function NqnsOf(d: Desired): set<Nqn> {
    Names(d.subsystems)
  }

  /** The links wanted on one port. */
  function WantLinks(d: Desired, id: nat): set<Nqn> {
    set p, n | p in d.ports && p.id == id && n in p.subsystems :: n
  }

  /** What rendering guarantees: web names only, the CSI port left out, every link to
      a desired subsystem, one port per id. */
  ghost predicate Sound(d: Desired) {
    && (forall i :: 0 <= i < |d.subsystems| ==> IsWeb(d.subsystems[i].nqn))
    && (forall i :: 0 <= i < |d.ports| ==>
          d.ports[i].id != CSI_PORT_ID && Members(d.ports[i].subsystems) <= NqnsOf(d))
    && (forall i, j :: 0 <= i < j < |d.ports| ==> d.ports[i].id != d.ports[j].id)
  }

  ghost predicate DistinctNames(d: Desired) {
    forall i, j :: 0 <= i < j < |d.subsystems| ==> d.subsystems[i].nqn != d.subsystems[j].nqn
  }

  ghost predicate DistinctNs(nss: seq<NsSpec>) {
    forall i, j :: 0 <= i < j < |nss| ==> nss[i].nsid != nss[j].nsid
  }

  // ---- Subsystems ----

  /** The namespaces are the specified ones: no other ids, and each on its device and
      enabled, as long as no id is specified twice. */
  ghost predicate Placed(m: map<nat, Namespace>, nss: seq<NsSpec>) {
    DistinctNs(nss) ==>
      forall i :: 0 <= i < |nss| ==>
        nss[i].nsid in m && NsMatches(m[nss[i].nsid], nss[i].devicePath, None)
  }

  function Nsids(nss: seq<NsSpec>): set<nat> {
    set n | n in nss :: n.nsid
  }

  lemma PlacedMore(m: map<nat, Namespace>, m': map<nat, Namespace>, nss: seq<NsSpec>, n: NsSpec)
    requires Placed(m, nss) && n.nsid in m' && m' == m[n.nsid := m'[n.nsid]]
    requires NsMatches(m'[n.nsid], n.devicePath, None)
    ensures Placed(m', nss + [n]) && Nsids(nss + [n]) == Nsids(nss) + {n.nsid}
  {
    var more := nss + [n];
    if DistinctNs(more) {
      assert forall i, j :: 0 <= i < j < |nss| ==> nss[i] == more[i] && nss[j] == more[j];
      assert DistinctNs(nss);
      forall i | 0 <= i < |more|
        ensures more[i].nsid in m' && NsMatches(m'[more[i].nsid], more[i].devicePath, None)
      {
        assert i < |nss| ==> more[i] == nss[i] && more[i].nsid != more[|nss|].nsid;
      }
    }
  }

  /** Namespaces that stay keep their uuid, new ones have none. */
  ghost predicate KeepsUuids(m: map<nat, Namespace>, m': map<nat, Namespace>) {
    forall k :: k in m' ==> m'[k].uuid == UuidAt(m, k)
  }

  /** The namespaces `done` are in place, and nothing has gone since `m0`. */
  ghost predicate Placing(m0: map<nat, Namespace>, m: map<nat, Namespace>, done: seq<NsSpec>) {
    Placed(m, done) && Nsids(done) <= m.Keys && KeepsUuids(m0, m) && m0.Keys <= m.Keys
  }

  lemma PlacingMore(m0: map<nat, Namespace>, m: map<nat, Namespace>, m': map<nat, Namespace>, done: seq<NsSpec>,
                    n: NsSpec)
    requires Placing(m0, m, done) && n.nsid in m' && m' == m[n.nsid := m'[n.nsid]]
    requires NsMatches(m'[n.nsid], n.devicePath, None) && m'[n.nsid].uuid == UuidAt(m, n.nsid)
    ensures Placing(m0, m', done + [n])
  {
    PlacedMore(m, m', done, n);
  }

  /** The subsystem is as specified: access, namespaces, nothing more. */
  ghost predicate Realized(s: Subsys, spec: SubsysSpec) {
    && s.allowAny == spec.allowAny
    && s.hosts == (if spec.allowAny then {} else Members(spec.hosts))
    && s.namespaces.Keys == Nsids(spec.namespaces)
    && Placed(s.namespaces, spec.namespaces)
  }

  /** The daemon is in a reconcile pass and has changed nothing since `was` but one of
      its own subsystems. */
  ghost predicate Editing(t: Target, was: Tree, v: Nqn)
    reads t
  {
    && t.Valid() && t.actor.Web? && IsWeb(v)
    && v in t.tree.subsystems && t.tree.ports == was.ports
    && t.tree.subsystems == was.subsystems[v := t.tree.subsystems[v]]
  }

  lemma ItsOwnSubsystem(t: Tree, v: Nqn)
    requires v in t.subsystems
    ensures t == WithSubsys(t, v, Some(t.subsystems[v]))
  {
  }

  ghost predicate PlacingIn(t: Target, v: Nqn, m0: map<nat, Namespace>, done: seq<NsSpec>)
    reads t
  {
    Placing(m0, NamespacesOf(t.tree, v), done)
  }

  /** Applies one more namespace after those in `done`. */
  method EditNamespace(t: Target, ghost was: Tree, v: Nqn, ghost m0: map<nat, Namespace>, ghost done: seq<NsSpec>,
                       n: NsSpec)
    returns (ok: bool)
    requires Editing(t, was, v) && PlacingIn(t, v, m0, done)
    modifies t`tree, t`live, t`clock, t`trace, t`refusals
    ensures Editing(t, was, v) && t.refusals == old(t.refusals)
    ensures old(t.Quiet()) ==> ok && t.Quiet()
    ensures ok ==> PlacingIn(t, v, m0, done + [n])
  {
    ghost var m := t.tree.subsystems[v].namespaces;
    ok := ApplyNamespace(t, v, n.nsid, n.devicePath, None);
    if ok {
      assert t.tree.subsystems[v].namespaces == m ==> m == m[n.nsid := m[n.nsid]];
      PlacingMore(m0, m, t.tree.subsystems[v].namespaces, done, n);
    }
  }

  method ApplyNamespaces(t: Target, ghost was: Tree, v: Nqn, nss: seq<NsSpec>) returns (ok: bool)
    requires Editing(t, was, v)
    modifies t`tree, t`live, t`clock, t`trace, t`refusals
    ensures Editing(t, was, v) && t.refusals == old(t.refusals)
    ensures old(t.Quiet()) ==> ok && t.Quiet()
    ensures ok ==> Placing(old(t.tree.subsystems)[v].namespaces, t.tree.subsystems[v].namespaces, nss)
  {
    ok := true;
    var i := 0;
    ghost var m0 := t.tree.subsystems[v].namespaces;
    while ok && i < |nss|
      invariant 0 <= i <= |nss|
      invariant Editing(t, was, v) && t.refusals == old(t.refusals)
      invariant old(t.Quiet()) ==> ok && t.Quiet()
      invariant ok ==> PlacingIn(t, v, m0, nss[..i])
      decreases |nss| - i, ok
    {
      ok := EditNamespace(t, was, v, m0, nss[..i], nss[i]);
      assert nss[..i + 1] == nss[..i] + [nss[i]];
      i := i + 1;
    }
    assert nss[..|nss|] == nss;
  }

  /** Lists every wanted host that is not listed yet. */
  method GrantHosts(t: Target, ghost was: Tree, v: Nqn, hosts: seq<Nqn>) returns (ok: bool)
    requires Editing(t, was, v) && !t.tree.subsystems[v].allowAny
    modifies t`tree, t`live, t`clock, t`trace, t`refusals
    ensures Editing(t, was, v) && t.refusals == old(t.refusals)
    ensures old(t.Quiet()) ==> ok && t.Quiet()
    ensures t.tree.subsystems[v] == old(t.tree.subsystems[v]).(hosts := t.tree.subsystems[v].hosts)
    ensures ok ==> t.tree.subsystems[v].hosts == old(t.tree.subsystems[v].hosts) + Members(hosts)
  {
    ok := true;
    var i := 0;
    while ok && i < |hosts|
      invariant 0 <= i <= |hosts|
      invariant Editing(t, was, v) && t.refusals == old(t.refusals)
      invariant old(t.Quiet()) ==> ok && t.Quiet()
      invariant t.tree.subsystems[v] == old(t.tree.subsystems[v]).(hosts := t.tree.subsystems[v].hosts)
      invariant ok ==> t.tree.subsystems[v].hosts == old(t.tree.subsystems[v].hosts) + Members(hosts[..i])
      decreases |hosts| - i, ok
    {
      ok := GrantOne(t, was, v, hosts[i]);
      assert hosts[..i + 1] == hosts[..i] + [hosts[i]];
      i := i + 1;
    }
    assert hosts[..|hosts|] == hosts;
  }

  method GrantOne(t: Target, ghost was: Tree, v: Nqn, host: Nqn) returns (ok: bool)
    requires Editing(t, was, v) && !t.tree.subsystems[v].allowAny
    modifies t`tree, t`live, t`clock, t`trace, t`refusals
    ensures Editing(t, was, v) && t.refusals == old(t.refusals)
    ensures old(t.Quiet()) ==> ok && t.Quiet()
    ensures t.tree.subsystems[v] == old(t.tree.subsystems[v]).(hosts := t.tree.subsystems[v].hosts)
    ensures ok ==> t.tree.subsystems[v].hosts == old(t.tree.subsystems[v].hosts) + {host}
  {
    ok := t.Do(CreateHost(host));
    if ok && host !in t.tree.subsystems[v].hosts {
      ok := t.Do(OnSubsys(v, LinkHost(host)));
    }
  }

  /** The ACL half for an open export: the kernel refuses `allow_any_host` while a
      host is listed, so the hosts go first. */
  method OpenAcl(t: Target, ghost was: Tree, v: Nqn) returns (ok: bool)
    requires Editing(t, was, v)
    modifies t`tree, t`live, t`clock, t`trace, t`refusals
    ensures Editing(t, was, v) && t.refusals == old(t.refusals)
    ensures old(t.Quiet()) ==> ok && t.Quiet()
    ensures t.tree.subsystems[v].namespaces == old(t.tree.subsystems[v].namespaces)
    ensures ok ==> t.tree.subsystems[v].allowAny && t.tree.subsystems[v].hosts == {}
  {
    ItsOwnSubsystem(t.tree, v);
    ok := DropHosts(t, t.tree, v, t.tree.subsystems[v].hosts);
    if ok {
      ok := t.Do(OnSubsys(v, AllowAny(true)));
    }
  }

  /** The ACL half for a closed export: no host can be listed while `allow_any_host`
      is set, so that goes first. */
  method CloseAcl(t: Target, ghost was: Tree, v: Nqn, hosts: seq<Nqn>) returns (ok: bool)
    requires Editing(t, was, v)
    modifies t`tree, t`live, t`clock, t`trace, t`refusals
    ensures Editing(t, was, v) && t.refusals == old(t.refusals)
    ensures old(t.Quiet()) ==> ok && t.Quiet()
    ensures t.tree.subsystems[v].namespaces == old(t.tree.subsystems[v].namespaces)
    ensures ok ==> !t.tree.subsystems[v].allowAny && t.tree.subsystems[v].hosts == Members(hosts)
  {
    ok := t.Do(OnSubsys(v, AllowAny(false)));
    if ok {
      ok := GrantHosts(t, was, v, hosts);
    }
    if ok {
      ok := KeepHosts(t, was, v, Members(hosts));
    }
  }

  /** Drops every host but these, which are listed. */
  method KeepHosts(t: Target, ghost was: Tree, v: Nqn, keep: set<Nqn>) returns (ok: bool)
    requires Editing(t, was, v) && keep <= t.tree.subsystems[v].hosts
    modifies t`tree, t`live, t`clock, t`trace, t`refusals
    ensures Editing(t, was, v) && t.refusals == old(t.refusals)
    ensures old(t.Quiet()) ==> ok && t.Quiet()
    ensures t.tree.subsystems[v].namespaces == old(t.tree.subsystems[v].namespaces)
    ensures t.tree.subsystems[v].allowAny == old(t.tree.subsystems[v].allowAny)
    ensures ok ==> t.tree.subsystems[v].hosts == keep
  {
    ItsOwnSubsystem(t.tree, v);
    ok := DropHosts(t, t.tree, v, t.tree.subsystems[v].hosts - keep);
  }

  function NamespacesOf(t: Tree, nqn: Nqn): map<nat, Namespace> {
    if nqn in t.subsystems then t.subsystems[nqn].namespaces else map[]
  }

  /** `apply_subsystem`: create, apply the wanted namespaces, prune the others, then
      the ACL. The kernel has no reason to refuse any of it. */
  method ApplySubsystem(t: Target, spec: SubsysSpec) returns (ok: bool)
    requires t.Valid() && t.actor.Web? && IsWeb(spec.nqn)
    modifies t`tree, t`live, t`clock, t`trace, t`refusals
    ensures t.Valid() && t.refusals == old(t.refusals)
    ensures old(t.Quiet()) ==> ok && t.Quiet()
    ensures t.tree.ports == old(t.tree.ports)
    ensures t.tree.subsystems == Put(old(t.tree.subsystems), spec.nqn, Get(t.tree.subsystems, spec.nqn))
    ensures ok ==> spec.nqn in t.tree.subsystems && Realized(t.tree.subsystems[spec.nqn], spec)
    ensures ok ==> KeepsUuids(NamespacesOf(old(t.tree), spec.nqn), NamespacesOf(t.tree, spec.nqn))
  {
    var v := spec.nqn;
    ghost var was := t.tree;
    ok := t.Do(OnSubsys(v, Create));
    if !ok {
      return;
    }
    ghost var m0 := t.tree.subsystems[v].namespaces;
    ok := ApplyNamespaces(t, was, v, spec.namespaces);
    if ok {
      ok := PruneNamespaces(t, was, v, m0, spec.namespaces);
    }
    if ok {
      if spec.allowAny {
        ok := OpenAcl(t, was, v);
      } else {
        ok := CloseAcl(t, was, v, spec.hosts);
      }
    }
  }

  method PruneNamespaces(t: Target, ghost was: Tree, v: Nqn, ghost m0: map<nat, Namespace>, nss: seq<NsSpec>)
    returns (ok: bool)
    requires Editing(t, was, v) && Placing(m0, t.tree.subsystems[v].namespaces, nss)
    modifies t`tree, t`live, t`clock, t`trace, t`refusals
    ensures Editing(t, was, v) && t.refusals == old(t.refusals)
    ensures old(t.Quiet()) ==> ok && t.Quiet()
    ensures ok ==> t.tree.subsystems[v].namespaces.Keys == Nsids(nss) && Placed(t.tree.subsystems[v].namespaces, nss)
    ensures ok ==> KeepsUuids(m0, t.tree.subsystems[v].namespaces)
  {
    ghost var m := t.tree.subsystems[v].namespaces;
    var drop := t.tree.subsystems[v].namespaces.Keys - Nsids(nss);
    ItsOwnSubsystem(t.tree, v);
    ok := DropNamespaces(t, t.tree, v, drop);
    assert forall i :: 0 <= i < |nss| ==> nss[i].nsid in Nsids(nss);
  }

  // ---- The five phases ----

  /** The web links of a port that are no longer wanted there. */
  function Stale(d: Desired, id: nat, links: set<Nqn>): set<Nqn> {
    set n | n in links && IsWeb(n) && n !in WantLinks(d, id)
  }

  function Pruned(d: Desired, id: nat, p: Port): Port {
    p.(links := p.links - Stale(d, id, p.links))
  }

  lemma ItsOwnPort(t: Tree, id: nat)
    requires id in t.ports
    ensures t == WithPort(t, id, t.ports[id])
  {
  }

  ghost predicate PrunedFrom(ports: map<nat, Port>, ports': map<nat, Port>, d: Desired) {
    ports'.Keys == ports.Keys && forall id :: id in ports ==> ports'[id] == Pruned(d, id, ports[id])
  }

  /** The ports that lose a link. */
  function Touched(ports: map<nat, Port>, d: Desired): set<nat> {
    set id | id in ports && Stale(d, id, ports[id].links) != {}
  }

  /** Phase A: drops stale web links and remembers which ports lost one. */
  method DropStaleLinks(t: Target, d: Desired) returns (ok: bool, touched: set<nat>)
    requires t.Valid() && t.actor.Web? && (HasWebLink(t.tree, CSI_PORT_ID) ==> t.actor.csiPort)
    modifies t`tree, t`live, t`clock, t`trace, t`refusals
    ensures t.Valid() && t.refusals == old(t.refusals)
    ensures old(t.Quiet()) ==> ok && t.Quiet()
    ensures t.tree.subsystems == old(t.tree.subsystems)
    ensures ok ==> PrunedFrom(old(t.tree.ports), t.tree.ports, d)
    ensures ok ==> touched == Touched(old(t.tree.ports), d)
    ensures touched <= Touched(old(t.tree.ports), d)
  {
    ok, touched := true, {};
    var todo := t.tree.ports.Keys;
    ghost var ports := t.tree.ports;
    while ok && todo != {}
      invariant todo <= ports.Keys == t.tree.ports.Keys
      invariant t.Valid() && t.refusals == old(t.refusals)
      invariant old(t.Quiet()) ==> ok && t.Quiet()
      invariant t.tree.subsystems == old(t.tree.subsystems)
      invariant ok ==> forall id :: id in ports ==>
                  t.tree.ports[id] == if id in todo then ports[id] else Pruned(d, id, ports[id])
      invariant touched <= Touched(ports, d)
      invariant ok ==> touched == Touched(ports, d) - todo
      decreases todo, ok
    {
      var id :| id in todo;
      var drop := Stale(d, id, t.tree.ports[id].links);
      if drop != {} {
        assert HasWebLink(old(t.tree), id);
        touched := touched + {id};
        ItsOwnPort(t.tree, id);
        ok := DropLinks(t, t.tree, id, drop);
      }
      todo := todo - {id};
    }
  }

  /** Every web link goes to a desired subsystem. */
  ghost predicate LinksWanted(t: Tree, d: Desired) {
    forall id, n :: id in t.ports && n in t.ports[id].links && IsWeb(n) ==> n in NqnsOf(d)
  }

  /** Phase B: deletes the web's subsystems that are no longer desired. */
  method DeleteStale(t: Target, d: Desired) returns (ok: bool)
    requires t.Valid() && t.actor.Web? && LinksWanted(t.tree, d)
    modifies t`tree, t`live, t`clock, t`trace, t`refusals
    ensures t.Valid() && t.refusals == old(t.refusals)
    ensures old(t.Quiet()) ==> ok && t.Quiet()
    ensures t.tree.ports == old(t.tree.ports)
    ensures ok ==> t.tree.subsystems == old(t.tree.subsystems) - StaleNqns(old(t.tree), d)
  {
    ok := true;
    var todo := StaleNqns(t.tree, d);
    ghost var stale := todo;
    while ok && todo != {}
      invariant todo <= stale
      invariant t.Valid() && t.refusals == old(t.refusals)
      invariant old(t.Quiet()) ==> ok && t.Quiet()
      invariant t.tree.ports == old(t.tree.ports)
      invariant ok ==> t.tree.subsystems == old(t.tree.subsystems) - (stale - todo)
      decreases todo, ok
    {
      var n :| n in todo;
      assert !LinkedAnywhere(t.tree, n);
      ok := DeleteSubsystem(t, n);
      todo := todo - {n};
    }
  }

  function StaleNqns(t: Tree, d: Desired): set<Nqn> {
    set n | n in t.subsystems && IsWeb(n) && n !in NqnsOf(d)
  }

  /** The subsystems in the tree are what the specifications say. */
  ghost predicate AllRealized(t: Tree, specs: seq<SubsysSpec>) {
    forall i :: 0 <= i < |specs| ==> specs[i].nqn in t.subsystems && Realized(t.subsystems[specs[i].nqn], specs[i])
  }

  /** They are, their namespaces kept their uuids, and no other subsystem changed. */
  ghost predicate AllApplied(start: Tree, t: Tree, specs: seq<SubsysSpec>) {
    && AllRealized(t, specs)
    && (forall i :: 0 <= i < |specs| ==>
          KeepsUuids(NamespacesOf(start, specs[i].nqn), NamespacesOf(t, specs[i].nqn)))
    && (forall n :: n !in Names(specs) ==> SameSubsystem(start, t, n))
  }

  /** Phase C has come as far as the first `i` subsystems, and has touched no port. */
  ghost predicate Applying(t: Target, start: Tree, d: Desired, i: nat)
    requires i <= |d.subsystems|
    reads t
  {
    && t.tree.ports == start.ports
    && t.tree.subsystems.Keys == start.subsystems.Keys + Names(d.subsystems[..i])
    && (DistinctNames(d) ==> AllApplied(start, t.tree, d.subsystems[..i]))
  }

  /** Phase C: creates and updates the desired subsystems. */
  method ApplySubsystems(t: Target, d: Desired) returns (ok: bool)
    requires t.Valid() && t.actor.Web?
    requires forall i :: 0 <= i < |d.subsystems| ==> IsWeb(d.subsystems[i].nqn)
    modifies t`tree, t`live, t`clock, t`trace, t`refusals
    ensures t.Valid() && t.refusals == old(t.refusals)
    ensures old(t.Quiet()) ==> ok && t.Quiet()
    ensures t.tree.ports == old(t.tree.ports)
    ensures ok ==> Applying(t, old(t.tree), d, |d.subsystems|)
  {
    ok := true;
    var i := 0;
    ghost var start := t.tree;
    while ok && i < |d.subsystems|
      invariant 0 <= i <= |d.subsystems|
      invariant t.Valid() && t.refusals == old(t.refusals)
      invariant old(t.Quiet()) ==> ok && t.Quiet()
      invariant t.tree.ports == start.ports
      invariant ok ==> Applying(t, start, d, i)
      decreases |d.subsystems| - i, ok
    {
      ok := ApplyNext(t, start, d, i);
      i := i + 1;
    }
  }

  /** The desired subsystem after the first `i`. */
  method ApplyNext(t: Target, ghost start: Tree, d: Desired, i: nat) returns (ok: bool)
    requires t.Valid() && t.actor.Web? && i < |d.subsystems| && IsWeb(d.subsystems[i].nqn)
    requires Applying(t, start, d, i)
    modifies t`tree, t`live, t`clock, t`trace, t`refusals
    ensures t.Valid() && t.refusals == old(t.refusals)
    ensures old(t.Quiet()) ==> ok && t.Quiet()
    ensures t.tree.ports == start.ports
    ensures ok ==> Applying(t, start, d, i + 1)
  {
    ghost var was := t.tree;
    ok := ApplySubsystem(t, d.subsystems[i]);
    OneMoreName(d.subsystems, i);
    if ok && DistinctNames(d) {
      OneMoreApplied(start, was, t.tree, d.subsystems, i);
    }
  }

  lemma OneMoreName(ss: seq<SubsysSpec>, i: nat)
    requires i < |ss|
    ensures Names(ss[..i + 1]) == Names(ss[..i]) + {ss[i].nqn}
  {
  }

  lemma OneMoreApplied(start: Tree, t: Tree, t': Tree, ss: seq<SubsysSpec>, i: nat)
    requires i < |ss| && AllApplied(start, t, ss[..i])
    requires forall j, k :: 0 <= j < k < |ss| ==> ss[j].nqn != ss[k].nqn
    requires ss[i].nqn in t'.subsystems && Realized(t'.subsystems[ss[i].nqn], ss[i])
    requires KeepsUuids(NamespacesOf(t, ss[i].nqn), NamespacesOf(t', ss[i].nqn))
    requires t'.subsystems == t.subsystems[ss[i].nqn := t'.subsystems[ss[i].nqn]]
    ensures AllApplied(start, t', ss[..i + 1])
  {
    OneMoreName(ss, i);
    assert ss[i].nqn !in Names(ss[..i]);
    assert SameSubsystem(start, t, ss[i].nqn);
    forall j | 0 <= j < i + 1 ensures ss[j].nqn in t'.subsystems && Realized(t'.subsystems[ss[j].nqn], ss[j]) &&
      KeepsUuids(NamespacesOf(start, ss[j].nqn), NamespacesOf(t', ss[j].nqn))
    {
      assert j < i ==> ss[..i][j] == ss[j];
    }
    forall n | n !in Names(ss[..i + 1]) ensures SameSubsystem(start, t', n) {
      assert SameSubsystem(start, t, n);
    }
  }

  /** A port after phase D, given what it was before. */
  ghost predicate Bound(p: Port, before: Port, spec: PortSpec) {
    && p.addr == SetAll(before.addr, AddrFields(spec))
    && p.links == (if AddrMatches(before.addr, spec) then before.links else {}) + Members(spec.subsystems)
  }

  /** The first `n` desired ports are bound, and no other port has changed. */
  ghost predicate BoundUpTo(was: Tree, t: Tree, d: Desired, n: nat)
    requires n <= |d.ports|
  {
    && (forall i :: 0 <= i < n ==>
          d.ports[i].id in t.ports && Bound(t.ports[d.ports[i].id], PortAt(was, d.ports[i].id), d.ports[i]))
    && (forall id :: (forall i :: 0 <= i < n ==> d.ports[i].id != id) ==> SamePort(was, t, id))
  }

  lemma OneMoreBound(was: Tree, t: Tree, t': Tree, d: Desired, n: nat)
    requires n < |d.ports| && Sound(d) && BoundUpTo(was, t, d, n)
    requires var p := d.ports[n];
             && p.id in t'.ports && t'.ports == t.ports[p.id := t'.ports[p.id]]
             && Bound(t'.ports[p.id], PortAt(t, p.id), p)
    ensures BoundUpTo(was, t', d, n + 1)
  {
    var p := d.ports[n];
    assert SamePort(was, t, p.id);
    forall id | forall i :: 0 <= i < n + 1 ==> d.ports[i].id != id ensures SamePort(was, t', id) {
      assert SamePort(was, t, id);
      assert d.ports[n].id != id;
    }
  }

  lemma PortScope(d: Desired, i: nat, csiPort: bool)
    requires Sound(d) && i < |d.ports|
    ensures forall c :: BindEdit(c, d.ports[i], OUR_NQN_PREFIX) ==> InScope(Web(csiPort), OnPort(d.ports[i].id, c))
  {
    var p := d.ports[i];
    forall c | BindEdit(c, p, OUR_NQN_PREFIX) ensures InScope(Web(csiPort), OnPort(p.id, c)) {
      if c.Link? {
        assert c.nqn in Members(p.subsystems);
        var s :| s in d.subsystems && s.nqn == c.nqn;
      }
    }
  }

  /** Phase D comes to a halt at the first port that must be re-addressed while somebody
      else's link holds it: the web's own links are off it by then, the ports before it
      are bound, and no other has changed. */
  ghost predicate Halted(was: Tree, t: Tree, d: Desired, i: nat) {
    && i < |d.ports| && Blocked(was, d.ports[i], OUR_NQN_PREFIX)
    && (forall j :: 0 <= j < i ==> !Blocked(was, d.ports[j], OUR_NQN_PREFIX))
    && (forall j :: 0 <= j < i ==>
          d.ports[j].id in t.ports && Bound(t.ports[d.ports[j].id], PortAt(was, d.ports[j].id), d.ports[j]))
    && d.ports[i].id in t.ports && t.ports[d.ports[i].id] == Freed(PortAt(was, d.ports[i].id), OUR_NQN_PREFIX)
    && (forall id :: (forall j :: 0 <= j <= i ==> d.ports[j].id != id) ==> SamePort(was, t, id))
  }

  lemma HaltsAt(was: Tree, now: Tree, t: Tree, d: Desired, i: nat)
    requires Sound(d) && i < |d.ports| && BoundUpTo(was, now, d, i)
    requires forall j :: 0 <= j < i ==> !Blocked(was, d.ports[j], OUR_NQN_PREFIX)
    requires Blocked(was, d.ports[i], OUR_NQN_PREFIX)
    requires t == WithPort(now, d.ports[i].id, Freed(PortAt(now, d.ports[i].id), OUR_NQN_PREFIX))
    ensures Halted(was, t, d, i)
  {
    assert SamePort(was, now, d.ports[i].id);
    forall id | forall j :: 0 <= j <= i ==> d.ports[j].id != id ensures SamePort(was, t, id) {
      assert SamePort(was, now, id) && d.ports[i].id != id;
    }
  }

  /** Phase D has come as far as the first `i` ports. */
  ghost predicate Binding(was: Tree, t: Tree, d: Desired, i: nat)
    requires i <= |d.ports|
  {
    && t.subsystems == was.subsystems && BoundUpTo(was, t, d, i)
    && forall j :: 0 <= j < i ==> !Blocked(was, d.ports[j], OUR_NQN_PREFIX)
  }

  /** The desired port after the first `i`. */
  method ApplyNextPort(t: Target, ghost was: Tree, d: Desired, i: nat) returns (ok: bool)
    requires t.Valid() && t.actor.Web? && Sound(d) && NqnsOf(d) <= t.tree.subsystems.Keys && i < |d.ports|
    requires Binding(was, t.tree, d, i)
    modifies t`tree, t`live, t`clock, t`trace, t`refusals
    ensures t.Valid() && t.tree.subsystems == was.subsystems
    ensures ok ==> Binding(was, t.tree, d, i + 1)
    ensures NoneBlocked(was, d) ==> t.refusals == old(t.refusals) && (old(t.Quiet()) ==> ok)
    ensures old(t.Quiet()) ==> t.Quiet() && (ok || Halted(was, t.tree, d, i))
  {
    ghost var now := t.tree;
    assert SamePort(was, now, d.ports[i].id);
    assert Blocked(was, d.ports[i], OUR_NQN_PREFIX) == Blocked(now, d.ports[i], OUR_NQN_PREFIX);
    PortScope(d, i, t.actor.csiPort);
    ok := ApplyPort(t, d.ports[i], OUR_NQN_PREFIX);
    if ok {
      ItsOwnPort(t.tree, d.ports[i].id);
      OneMoreBound(was, now, t.tree, d, i);
    } else if old(t.Quiet()) {
      HaltsAt(was, now, t.tree, d, i);
    }
  }

  /** Phase D: creates and updates the desired ports and binds their subsystems. */
  method ApplyPorts(t: Target, d: Desired) returns (ok: bool)
    requires t.Valid() && t.actor.Web? && Sound(d) && NqnsOf(d) <= t.tree.subsystems.Keys
    modifies t`tree, t`live, t`clock, t`trace, t`refusals
    ensures t.Valid()
    ensures t.tree.subsystems == old(t.tree.subsystems)
    ensures ok ==> BoundUpTo(old(t.tree), t.tree, d, |d.ports|)
    ensures NoneBlocked(old(t.tree), d) ==> t.refusals == old(t.refusals) && (old(t.Quiet()) ==> ok)
    ensures old(t.Quiet()) ==> t.Quiet() && (ok || exists i :: Halted(old(t.tree), t.tree, d, i))
  {
    ok := true;
    var i := 0;
    ghost var was := t.tree;
    while ok && i < |d.ports|
      invariant 0 <= i <= |d.ports|
      invariant t.Valid() && t.tree.subsystems == was.subsystems
      invariant ok ==> Binding(was, t.tree, d, i)
      invariant NoneBlocked(was, d) ==> t.refusals == old(t.refusals) && (old(t.Quiet()) ==> ok)
      invariant old(t.Quiet()) ==> t.Quiet() && (ok || (i > 0 && Halted(was, t.tree, d, i - 1)))
      decreases |d.ports| - i, ok
    {
      ok := ApplyNextPort(t, was, d, i);
      i := i + 1;
    }
    assert old(t.Quiet()) && !ok ==> i > 0 && Halted(was, t.tree, d, i - 1);
  }

  /** No port that must be re-addressed is held by somebody else's link. */
  ghost predicate NoneBlocked(t: Tree, d: Desired) {
    forall i :: 0 <= i < |d.ports| ==> !Blocked(t, d.ports[i], OUR_NQN_PREFIX)
  }

  predicate Undesired(d: Desired, id: nat) {
    forall p :: p in d.ports ==> p.id != id
  }

  /** The ports that lost a link, are empty now and are not desired. */
  function Idle(ports: map<nat, Port>, d: Desired, touched: set<nat>): set<nat> {
    set id | id in touched && id in ports && ports[id].links == {} && Undesired(d, id)
  }

  /** Some of these ports are gone and all others are as they were. */
  ghost predicate ReapedFrom(ports: map<nat, Port>, ports': map<nat, Port>, idle: set<nat>) {
    && (forall id :: id in ports' ==> id in ports && ports'[id] == ports[id])
    && ports.Keys - ports'.Keys <= idle
  }

  /** Phase E: reaps those, and whatever fails, no other port changes. */
  method ReapPorts(t: Target, d: Desired, touched: set<nat>) returns (ok: bool)
    requires t.Valid() && t.actor.Web? && (CSI_PORT_ID in touched ==> t.actor.csiPort)
    modifies t`tree, t`live, t`clock, t`trace, t`refusals
    ensures t.Valid() && t.refusals == old(t.refusals)
    ensures old(t.Quiet()) ==> ok && t.Quiet()
    ensures t.tree.subsystems == old(t.tree.subsystems)
    ensures ok ==> t.tree.ports == old(t.tree.ports) - Idle(old(t.tree.ports), d, touched)
    ensures ReapedFrom(old(t.tree.ports), t.tree.ports, Idle(old(t.tree.ports), d, touched))
  {
    ok := true;
    var todo := touched;
    ghost var ports := t.tree.ports;
    while ok && todo != {}
      invariant todo <= touched
      invariant t.Valid() && t.refusals == old(t.refusals)
      invariant old(t.Quiet()) ==> ok && t.Quiet()
      invariant t.tree.subsystems == old(t.tree.subsystems)
      invariant ok ==> t.tree.ports == ports - Idle(ports, d, touched - todo)
      invariant ReapedFrom(ports, t.tree.ports, Idle(ports, d, touched))
      decreases todo, ok
    {
      var id :| id in todo;
      if Undesired(d, id) && Links(t.tree, id) == {} {
        ok := t.Do(OnPort(id, Close));
      }
      todo := todo - {id};
    }
  }

  // ---- The whole pass ----

  function WebLinks(t: Tree, id: nat): set<Nqn> {
    set n | n in Links(t, id) && IsWeb(n)
  }

  function WebNqns(t: Tree): set<Nqn> {
    set n | n in t.subsystems && IsWeb(n)
  }

  /** Where a successful pass leaves the web's objects. */
  ghost predicate Converged(t: Tree, d: Desired) {
    && WebNqns(t) == NqnsOf(d)
    && (DistinctNames(d) ==> AllRealized(t, d.subsystems))
    && (forall id :: WebLinks(t, id) == WantLinks(d, id))
    && (forall i :: 0 <= i < |d.ports| ==>
          d.ports[i].id in t.ports && AddrMatches(t.ports[d.ports[i].id].addr, d.ports[i]))
  }

  lemma WantedAt(d: Desired, i: nat)
    requires Sound(d) && i < |d.ports|
    ensures WantLinks(d, d.ports[i].id) == Members(d.ports[i].subsystems)
  {
  }

  /** After the stale links are gone every remaining web link is wanted. */
  lemma PrunedLinksWanted(t: Tree, t': Tree, d: Desired)
    requires Sound(d) && PrunedFrom(t.ports, t'.ports, d)
    ensures LinksWanted(t', d) && forall id :: WebLinks(t', id) <= WantLinks(d, id)
  {
  }

  /** Phases A, D and E together leave exactly the wanted web links on every port. */
  lemma LinksConverge(a: Tree, b: Tree, e: Tree, d: Desired, touched: set<nat>)
    requires Sound(d) && BoundUpTo(a, b, d, |d.ports|)
    requires forall id :: WebLinks(a, id) <= WantLinks(d, id)
    requires e.ports == b.ports - Idle(b.ports, d, touched)
    ensures forall id :: WebLinks(e, id) == WantLinks(d, id)
    ensures forall i :: 0 <= i < |d.ports| ==>
              d.ports[i].id in e.ports && AddrMatches(e.ports[d.ports[i].id].addr, d.ports[i])
  {
    forall id ensures WebLinks(b, id) == WantLinks(d, id) && WebLinks(e, id) == WebLinks(b, id) {
      if i :| 0 <= i < |d.ports| && d.ports[i].id == id {
        WantedAt(d, i);
        PortIsWeb(d, i);
      } else {
        assert WantLinks(d, id) == {};
        assert SamePort(a, b, id);
      }
    }
    forall i | 0 <= i < |d.ports|
      ensures d.ports[i].id in e.ports && AddrMatches(e.ports[d.ports[i].id].addr, d.ports[i])
    {
      assert d.ports[i] in d.ports;
      AddrWritten(PortAt(a, d.ports[i].id).addr, d.ports[i]);
    }
  }

  /** What a pass makes of one port. */
  function PortAfter(d: Desired, id: nat, before: Option<Port>): Option<Port> {
    var p := if before.Some? then Pruned(d, id, before.value) else NEW_PORT;
    var want := FirstPort(d.ports, id);
    if want.Some? then
      Some(Port(SetAll(p.addr, AddrFields(want.value)),
                (if AddrMatches(p.addr, want.value) then p.links else {}) + Members(want.value.subsystems)))
    else if before.None? || (Stale(d, id, before.value.links) != {} && p.links == {}) then None
    else Some(p)
  }

  ghost predicate PortsSettled(ports: map<nat, Port>, ports': map<nat, Port>, d: Desired) {
    forall id :: Get(ports', id) == PortAfter(d, id, Get(ports, id))
  }

  ghost predicate SubsystemsSettled(was: Tree, t: Tree, d: Desired) {
    && WebNqns(t) == NqnsOf(d)
    && (DistinctNames(d) ==> AllRealized(t, d.subsystems))
    && (DistinctNames(d) ==>
          forall i :: 0 <= i < |d.subsystems| ==>
            KeepsUuids(NamespacesOf(was, d.subsystems[i].nqn), NamespacesOf(t, d.subsystems[i].nqn)))
  }

  /** Where a successful pass leaves everything, given where it found it. */
  ghost predicate Settled(was: Tree, t: Tree, d: Desired) {
    Converged(t, d) && PortsSettled(was.ports, t.ports, d) && SubsystemsSettled(was, t, d)
  }

  /** What a pass that comes to a halt at the i-th port makes of one port. */
  function PortHalted(d: Desired, i: nat, id: nat, before: Option<Port>): Option<Port>
    requires i < |d.ports|
  {
    var p := if before.Some? then Pruned(d, id, before.value) else NEW_PORT;
    var want := FirstPort(d.ports[..i], id);
    if id == d.ports[i].id then Some(Freed(p, OUR_NQN_PREFIX))
    else if want.Some? then
      Some(Port(SetAll(p.addr, AddrFields(want.value)),
                (if AddrMatches(p.addr, want.value) then p.links else {}) + Members(want.value.subsystems)))
    else if before.Some? then Some(p) else None
  }

  /** The i-th port is the first that is blocked, and the pass came to a halt there. */
  ghost predicate StuckAt(was: Tree, t: Tree, d: Desired, i: nat) {
    && i < |d.ports| && Blocked(was, d.ports[i], OUR_NQN_PREFIX)
    && (forall j :: 0 <= j < i ==> !Blocked(was, d.ports[j], OUR_NQN_PREFIX))
    && forall id :: Get(t.ports, id) == PortHalted(d, i, id, Get(was.ports, id))
  }

  /** Where a pass ends that fails though no operation does. */
  ghost predicate Stuck(was: Tree, t: Tree, d: Desired) {
    SubsystemsSettled(was, t, d) && exists i :: StuckAt(was, t, d, i)
  }

  lemma PortSettles(was: Tree, a: Tree, b: Tree, e: Tree, d: Desired, id: nat)
    requires Sound(d) && PrunedFrom(was.ports, a.ports, d) && BoundUpTo(a, b, d, |d.ports|)
    requires e.ports == b.ports - Idle(b.ports, d, Touched(was.ports, d))
    ensures Get(e.ports, id) == PortAfter(d, id, Get(was.ports, id))
  {
    FirstPortAt(d.ports, id);
    var want := FirstPort(d.ports, id);
    if want.Some? {
      var i :| 0 <= i < |d.ports| && d.ports[i] == want.value;
      assert Bound(b.ports[id], PortAt(a, id), d.ports[i]);
      assert !Undesired(d, id);
    } else {
      assert SamePort(a, b, id) && Undesired(d, id);
    }
  }

  lemma PortIsWeb(d: Desired, i: nat)
    requires Sound(d) && i < |d.ports|
    ensures forall n :: n in d.ports[i].subsystems ==> IsWeb(n)
  {
    forall n | n in d.ports[i].subsystems ensures IsWeb(n) {
      assert n in Members(d.ports[i].subsystems);
      var s :| s in d.subsystems && s.nqn == n;
    }
  }

  lemma PruningKeepsBlocked(t: Tree, t': Tree, d: Desired)
    requires PrunedFrom(t.ports, t'.ports, d)
    ensures NoneBlocked(t, d) ==> NoneBlocked(t', d)
  {
  }

  lemma TouchedHasWebLink(t: Tree, d: Desired)
    ensures CSI_PORT_ID in Touched(t.ports, d) ==> HasWebLink(t, CSI_PORT_ID)
  {
    if CSI_PORT_ID in Touched(t.ports, d) {
      var n :| n in Stale(d, CSI_PORT_ID, t.ports[CSI_PORT_ID].links);
      assert n in Links(t, CSI_PORT_ID) && IsWeb(n);
    }
  }

  /** `reconcile`. A failure leaves the work half done, but a success does not depend
      on where it started. */
  method ApplyDesired(t: Target, d: Desired) returns (ok: bool)
    requires t.Valid() && t.actor.Web? && (HasWebLink(t.tree, CSI_PORT_ID) ==> t.actor.csiPort) && Sound(d)
    modifies t`tree, t`live, t`clock, t`trace, t`refusals
    ensures t.Valid()
    ensures ok ==> Settled(old(t.tree), t.tree, d)
    ensures NoneBlocked(old(t.tree), d) ==> t.refusals == old(t.refusals) && (old(t.Quiet()) ==> ok)
    ensures old(t.Quiet()) ==> t.Quiet() && (ok || Stuck(old(t.tree), t.tree, d))
  {
    ghost var was := t.tree;
    TouchedHasWebLink(was, d);
    var touched;
    ok, touched := DropStaleLinks(t, d);
    if !ok {
      return;
    }
    PrunedLinksWanted(was, t.tree, d);
    PruningKeepsBlocked(was, t.tree, d);
    ok := ApplyPruned(t, was, d, touched);
  }

  /** Phases B and C. */
  method PlaceSubsystems(t: Target, d: Desired) returns (ok: bool)
    requires t.Valid() && t.actor.Web? && Sound(d) && LinksWanted(t.tree, d)
    modifies t`tree, t`live, t`clock, t`trace, t`refusals
    ensures t.Valid() && t.refusals == old(t.refusals) && t.tree.ports == old(t.tree.ports)
    ensures ok ==> SubsystemsSettled(old(t.tree), t.tree, d)
    ensures old(t.Quiet()) ==> ok && t.Quiet()
  {
    ghost var was := t.tree;
    ok := DeleteStale(t, d);
    if !ok {
      return;
    }
    ghost var kept := t.tree;
    ok := ApplySubsystems(t, d);
    if ok {
      assert d.subsystems[..|d.subsystems|] == d.subsystems;
      SubsystemsSettle(was, kept, t.tree, d);
    }
  }

  /** Phases B to E, once the stale links are gone. */
  method ApplyPruned(t: Target, ghost was: Tree, d: Desired, touched: set<nat>) returns (ok: bool)
    requires t.Valid() && t.actor.Web? && (CSI_PORT_ID in touched ==> t.actor.csiPort) && Sound(d)
    requires LinksWanted(t.tree, d) && forall id :: WebLinks(t.tree, id) <= WantLinks(d, id)
    requires t.tree.subsystems == was.subsystems && PrunedFrom(was.ports, t.tree.ports, d)
    requires touched == Touched(was.ports, d)
    modifies t`tree, t`live, t`clock, t`trace, t`refusals
    ensures t.Valid()
    ensures ok ==> Settled(was, t.tree, d)
    ensures NoneBlocked(old(t.tree), d) ==> t.refusals == old(t.refusals) && (old(t.Quiet()) ==> ok)
    ensures old(t.Quiet()) ==> t.Quiet() && (ok || Stuck(was, t.tree, d))
  {
    ok := PlaceSubsystems(t, d);
    if !ok {
      return;
    }
    ok := BindPorts(t, was, d, touched);
  }

  lemma PortHalts(was: Tree, a: Tree, t: Tree, d: Desired, i: nat, id: nat)
    requires Sound(d) && PrunedFrom(was.ports, a.ports, d) && Halted(a, t, d, i)
    ensures Get(t.ports, id) == PortHalted(d, i, id, Get(was.ports, id))
  {
    FirstPortAt(d.ports[..i], id);
    var want := FirstPort(d.ports[..i], id);
    if id != d.ports[i].id {
      if want.Some? {
        var j :| 0 <= j < i && d.ports[j] == want.value;
        assert Bound(t.ports[id], PortAt(a, id), d.ports[j]);
      } else {
        assert forall j :: 0 <= j < i ==> d.ports[..i][j] == d.ports[j];
        assert SamePort(a, t, id);
      }
    }
  }

  lemma StuckFromHalted(was: Tree, a: Tree, t: Tree, d: Desired, i: nat)
    requires Sound(d) && PrunedFrom(was.ports, a.ports, d) && Halted(a, t, d, i) && SubsystemsSettled(was, t, d)
    ensures Stuck(was, t, d)
  {
    forall j | 0 <= j <= i
      ensures Blocked(a, d.ports[j], OUR_NQN_PREFIX) == Blocked(was, d.ports[j], OUR_NQN_PREFIX)
    {
      SameHold(was, a, d, j);
    }
    forall id ensures Get(t.ports, id) == PortHalted(d, i, id, Get(was.ports, id)) {
      PortHalts(was, a, t, d, i, id);
    }
    assert StuckAt(was, t, d, i);
  }

  /** Pruning frees no port of a foreign link. */
  lemma SameHold(was: Tree, a: Tree, d: Desired, i: nat)
    requires PrunedFrom(was.ports, a.ports, d) && i < |d.ports|
    ensures Blocked(a, d.ports[i], OUR_NQN_PREFIX) == Blocked(was, d.ports[i], OUR_NQN_PREFIX)
  {
    var id := d.ports[i].id;
    assert forall n :: !IsWeb(n) ==> (n in PortAt(was, id).links <==> n in PortAt(a, id).links);
  }

  /** Phases B and C leave exactly the desired subsystems of the web. */
  lemma SubsystemsSettle(was: Tree, kept: Tree, t: Tree, d: Desired)
    requires Sound(d) && kept.subsystems == was.subsystems - StaleNqns(was, d)
    requires t.subsystems.Keys == kept.subsystems.Keys + NqnsOf(d)
    requires DistinctNames(d) ==> AllApplied(kept, t, d.subsystems)
    ensures SubsystemsSettled(was, t, d)
  {
    forall i | 0 <= i < |d.subsystems|
      ensures NamespacesOf(kept, d.subsystems[i].nqn) == NamespacesOf(was, d.subsystems[i].nqn)
    {
      assert d.subsystems[i].nqn in NqnsOf(d);
    }
  }

  /** Phases D and E. */
  method BindPorts(t: Target, ghost was: Tree, d: Desired, touched: set<nat>) returns (ok: bool)
    requires t.Valid() && t.actor.Web? && (CSI_PORT_ID in touched ==> t.actor.csiPort) && Sound(d)
    requires forall id :: WebLinks(t.tree, id) <= WantLinks(d, id)
    requires SubsystemsSettled(was, t.tree, d)
    requires PrunedFrom(was.ports, t.tree.ports, d) && touched == Touched(was.ports, d)
    modifies t`tree, t`live, t`clock, t`trace, t`refusals
    ensures t.Valid() && t.tree.subsystems == old(t.tree.subsystems)
    ensures ok ==> Settled(was, t.tree, d)
    ensures NoneBlocked(old(t.tree), d) ==> t.refusals == old(t.refusals) && (old(t.Quiet()) ==> ok)
    ensures old(t.Quiet()) ==> t.Quiet() && (ok || Stuck(was, t.tree, d))
  {
    ghost var a := t.tree;
    ok := ApplyPorts(t, d);
    if !ok {
      if old(t.Quiet()) {
        ghost var i :| Halted(a, t.tree, d, i);
        StuckFromHalted(was, a, t.tree, d, i);
      }
      return;
    }
    ghost var b := t.tree;
    ok := ReapPorts(t, d, touched);
    if ok {
      LinksConverge(a, b, t.tree, d, touched);
      forall id ensures Get(t.tree.ports, id) == PortAfter(d, id, Get(was.ports, id)) {
        PortSettles(was, a, b, t.tree, d, id);
      }
    }
  }

  // ---- Is a pass needed? ----

  function FirstNs(nss: seq<NsSpec>, nsid: nat): Option<NsSpec> {
    if nss == [] then None else if nss[0].nsid == nsid then Some(nss[0]) else FirstNs(nss[1..], nsid)
  }

  function FirstPort(ports: seq<PortSpec>, id: nat): Option<PortSpec> {
    if ports == [] then None else if ports[0].id == id then Some(ports[0]) else FirstPort(ports[1..], id)
  }

  predicate SubsysSatisfied(t: Tree, spec: SubsysSpec) {
    spec.nqn in t.subsystems &&
    var s := t.subsystems[spec.nqn];
    var ns := FirstNs(spec.namespaces, 1);
    && s.allowAny == spec.allowAny
    && Members(spec.hosts) == s.hosts
    && 1 in s.namespaces && ns.Some?
    && s.namespaces[1].enabled && s.namespaces[1].devicePath == ns.value.devicePath
  }

  /** The links match; of the address only the transport and, for network ports, the
      IP are compared. */
  predicate PortSatisfied(t: Tree, d: Desired, id: nat) {
    var want := FirstPort(d.ports, id);
    && WebLinks(t, id) == (if want.Some? then Members(want.value.subsystems) else {})
    && (want.Some? && id in t.ports ==>
          && t.ports[id].addr.trtype == Some(want.value.trtype)
          && (want.value.trtype != Loop ==> t.ports[id].addr.traddr == Some(want.value.traddr)))
  }

  function PortIds(d: Desired): set<nat> {
    set p | p in d.ports :: p.id
  }

  /** `nvmet_satisfied`. */
  predicate Satisfied(d: Desired, t: Tree) {
    && WebNqns(t) == NqnsOf(d)
    && (forall i :: 0 <= i < |d.subsystems| ==> SubsysSatisfied(t, d.subsystems[i]))
    && (forall id :: id in PortIds(d) + t.ports.Keys ==> PortSatisfied(t, d, id))
  }

  /** No export is open to any host and lists hosts all the same. */
  predicate NoIdleHosts(d: Desired) {
    forall i :: 0 <= i < |d.subsystems| ==> !(d.subsystems[i].allowAny && d.subsystems[i].hosts != [])
  }

  /** Every subsystem has just namespace 1, as rendered. */
  ghost predicate OneNamespace(d: Desired) {
    forall i :: 0 <= i < |d.subsystems| ==>
      |d.subsystems[i].namespaces| == 1 && d.subsystems[i].namespaces[0].nsid == 1
  }

  lemma {:induction false} FirstPortAt(ports: seq<PortSpec>, id: nat)
    ensures match FirstPort(ports, id)
            case None => forall p :: p in ports ==> p.id != id
            case Some(p) => p in ports && p.id == id
  {
    if ports != [] {
      FirstPortAt(ports[1..], id);
      assert forall p :: p in ports <==> p == ports[0] || p in ports[1..];
    }
  }

  lemma ConvergedPort(t: Tree, d: Desired, id: nat)
    requires Sound(d) && Converged(t, d)
    ensures PortSatisfied(t, d, id)
  {
    FirstPortAt(d.ports, id);
    var want := FirstPort(d.ports, id);
    if want.Some? {
      var i :| 0 <= i < |d.ports| && d.ports[i] == want.value;
      WantedAt(d, i);
      var fields := AddrFields(d.ports[i]);
      assert fields[|fields| - 1] in fields;
      assert d.ports[i].trtype != Loop ==> fields[1] in fields;
    } else {
      assert WantLinks(d, id) == {};
    }
  }

  lemma ConvergedSubsys(t: Tree, d: Desired, i: nat)
    requires Converged(t, d) && DistinctNames(d) && OneNamespace(d) && i < |d.subsystems|
    ensures var s := d.subsystems[i];
            SubsysSatisfied(t, s) <==> !(s.allowAny && s.hosts != [])
  {
    var s := d.subsystems[i];
    assert s.nqn in t.subsystems && Realized(t.subsystems[s.nqn], s);
    assert DistinctNs(s.namespaces) && FirstNs(s.namespaces, 1) == Some(s.namespaces[0]);
    assert s.hosts != [] ==> s.hosts[0] in Members(s.hosts);
  }

  /** A pass that succeeded is recognized as done, except that an open export which
      still lists hosts can never be: the pass empties the ACL, the check wants it. */
  lemma ConvergedIsSatisfied(t: Tree, d: Desired)
    requires Sound(d) && DistinctNames(d) && OneNamespace(d) && Converged(t, d)
    ensures Satisfied(d, t) <==> NoIdleHosts(d)
  {
    forall id | id in PortIds(d) + t.ports.Keys ensures PortSatisfied(t, d, id) {
      ConvergedPort(t, d, id);
    }
    forall i | 0 <= i < |d.subsystems|
      ensures SubsysSatisfied(t, d.subsystems[i]) <==> !(d.subsystems[i].allowAny && d.subsystems[i].hosts != [])
    {
      ConvergedSubsys(t, d, i);
    }
  }

  lemma SatisfiedPort(t: Tree, d: Desired, id: nat)
    requires Sound(d) && Satisfied(d, t)
    ensures WebLinks(t, id) == WantLinks(d, id)
  {
    FirstPortAt(d.ports, id);
    var want := FirstPort(d.ports, id);
    if want.Some? {
      assert id in PortIds(d);
      assert PortSatisfied(t, d, id);
      var i :| 0 <= i < |d.ports| && d.ports[i] == want.value;
      WantedAt(d, i);
    } else {
      assert WantLinks(d, id) == {};
      assert id in t.ports ==> PortSatisfied(t, d, id);
    }
  }

  /** What the check does not compare of a network port. */
  predicate SameService(a: Addr, p: PortSpec) {
    p.trtype != Loop ==> a.v6 == Some(p.traddr.V6?) && a.trsvcid == Some(p.trsvcid)
  }

  lemma SatisfiedAddr(t: Tree, d: Desired, i: nat)
    requires Sound(d) && Satisfied(d, t) && i < |d.ports|
    ensures var p := d.ports[i];
            && (p.subsystems != [] ==> p.id in t.ports)
            && (p.id in t.ports ==> (AddrMatches(t.ports[p.id].addr, p) <==> SameService(t.ports[p.id].addr, p)))
  {
    var p := d.ports[i];
    SatisfiedPort(t, d, p.id);
    WantedAt(d, i);
    PortIsWeb(d, i);
    assert p.subsystems != [] ==> p.subsystems[0] in Members(p.subsystems);
    FirstPortAt(d.ports, p.id);
    var j :| 0 <= j < |d.ports| && d.ports[j] == FirstPort(d.ports, p.id).value;
    assert p.id in PortIds(d);
    assert PortSatisfied(t, d, p.id);
    if p.id in t.ports {
      ServiceCompletes(t.ports[p.id].addr, p);
    }
  }

  lemma ServiceCompletes(a: Addr, p: PortSpec)
    requires a.trtype == Some(p.trtype) && (p.trtype != Loop ==> a.traddr == Some(p.traddr))
    ensures AddrMatches(a, p) <==> SameService(a, p)
  {
    var fields := AddrFields(p);
    if p.trtype != Loop {
      assert fields[0] in fields && fields[2] in fields;
    }
  }

  /** What the check does not look at: the service id and address family of a network
      port, a wanted port without links, and namespaces other than 1. A tree that passes
      it is converged if and only if these are right too. */
  lemma SatisfiedIsConvergedIff(t: Tree, d: Desired)
    requires Sound(d) && DistinctNames(d) && OneNamespace(d) && Coherent(t) && Satisfied(d, t)
    ensures Converged(t, d) <==>
            && (forall i :: 0 <= i < |d.ports| ==>
                  && (d.ports[i].subsystems == [] ==> d.ports[i].id in t.ports)
                  && (d.ports[i].id in t.ports ==> SameService(t.ports[d.ports[i].id].addr, d.ports[i])))
            && (forall i, k :: 0 <= i < |d.subsystems| && k in t.subsystems[d.subsystems[i].nqn].namespaces ==> k == 1)
  {
    forall id ensures WebLinks(t, id) == WantLinks(d, id) {
      SatisfiedPort(t, d, id);
    }
    forall i | 0 <= i < |d.ports| {
      SatisfiedAddr(t, d, i);
    }
    forall i | 0 <= i < |d.subsystems|
      ensures SubsysSatisfied(t, d.subsystems[i])
      ensures Realized(t.subsystems[d.subsystems[i].nqn], d.subsystems[i]) <==>
              forall k :: k in t.subsystems[d.subsystems[i].nqn].namespaces ==> k == 1
    {
      SatisfiedSubsys(t, d.subsystems[i]);
    }
  }

  lemma SatisfiedSubsys(t: Tree, s: SubsysSpec)
    requires SubsysSatisfied(t, s) && Coherent(t) && |s.namespaces| == 1 && s.namespaces[0].nsid == 1
    ensures Realized(t.subsystems[s.nqn], s) <==> forall k :: k in t.subsystems[s.nqn].namespaces ==> k == 1
  {
  }

  // ---- Trees on which check and pass differ ----

  /** One export on one TCP port. */
  function OneExport(nqn: Nqn, path: string, allowAny: bool, hosts: seq<Nqn>, ip: Ip): Desired {
    Desired([SubsysSpec(nqn, allowAny, hosts, [NsSpec(1, path)])], [PortSpec(1, Tcp, ip, TRSVCID, [nqn])])
  }

  /** The tree with that export, its hosts and its service id as given. */
  function OneTree(nqn: Nqn, path: string, allowAny: bool, hosts: set<Nqn>, ip: Ip, service: nat): Tree {
    Tree(map[nqn := Subsys(allowAny, hosts, map[1 := Namespace(path, None, true)])],
         map[1 := Port(Addr(Some(Tcp), Some(ip.V6?), Some(ip), Some(service)), {nqn})],
         hosts)
  }

  lemma OneExportIsSound(nqn: Nqn, path: string, allowAny: bool, hosts: seq<Nqn>, ip: Ip)
    requires IsWeb(nqn)
    ensures var d := OneExport(nqn, path, allowAny, hosts, ip);
            && Sound(d) && DistinctNames(d) && OneNamespace(d)
            && NqnsOf(d) == {nqn} && PortIds(d) == {1} && WantLinks(d, 1) == {nqn}
            && forall id :: id != 1 ==> WantLinks(d, id) == {}
  {
    var d := OneExport(nqn, path, allowAny, hosts, ip);
    assert d.subsystems[0] in d.subsystems && d.ports[0] in d.ports && nqn in d.ports[0].subsystems;
  }

  lemma OneTreeLinks(nqn: Nqn, path: string, allowAny: bool, hosts: set<Nqn>, ip: Ip, service: nat)
    requires IsWeb(nqn)
    ensures var t := OneTree(nqn, path, allowAny, hosts, ip, service);
            && WebNqns(t) == {nqn} && WebLinks(t, 1) == {nqn}
            && forall id :: id != 1 ==> WebLinks(t, id) == {}
  {
  }

  /** The check is satisfied with a port that listens on the wrong service id. */
  lemma WrongServiceIsSatisfied(nqn: Nqn, path: string, ip: Ip, service: nat)
    requires IsWeb(nqn) && service != TRSVCID
    ensures var d, t := OneExport(nqn, path, true, [], ip), OneTree(nqn, path, true, {}, ip, service);
            Sound(d) && Coherent(t) && Satisfied(d, t) && !Converged(t, d)
  {
    var d, t := OneExport(nqn, path, true, [], ip), OneTree(nqn, path, true, {}, ip, service);
    OneExportIsSound(nqn, path, true, [], ip);
    OneTreeLinks(nqn, path, true, {}, ip, service);
    FirstPortAt(d.ports, 1);
    assert Members<Nqn>([]) == {} && Members([nqn]) == {nqn};
    SatisfiedIsConvergedIff(t, d);
  }

  /** And never with an open export that lists a host, though a pass left it as it
      should be. */
  lemma IdleHostIsNeverSatisfied(nqn: Nqn, path: string, ip: Ip, host: Nqn)
    requires IsWeb(nqn)
    ensures var d, t := OneExport(nqn, path, true, [host], ip), OneTree(nqn, path, true, {}, ip, TRSVCID);
            Sound(d) && Converged(t, d) && !Satisfied(d, t)
  {
    var d, t := OneExport(nqn, path, true, [host], ip), OneTree(nqn, path, true, {}, ip, TRSVCID);
    OneExportIsSound(nqn, path, true, [host], ip);
    OneTreeLinks(nqn, path, true, {}, ip, TRSVCID);
    var s := d.subsystems[0];
    assert Nsids(s.namespaces) == {1} by {
      assert s.namespaces[0] in s.namespaces;
    }
    assert host in Members(s.hosts);
  }
}
