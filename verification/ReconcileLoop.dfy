/** Render, check and apply chained into a loop: one successful pass is a fixpoint. */
module ReconcileLoop {
  import opened Options
  import opened Nvmet
  import opened Machine
  import opened Frames
  import opened Fencing
  import opened Targets
  import opened Sorting
  import opened NvmetOps
  import opened Render
  import opened Reconcile
  import opened Statuses

  // ---- What rendering guarantees ----

  /** An NQN is linked at a key exactly when an export that wants the key carries it. */
  lemma {:induction false} WantedIff(es: seq<NvmeExport>, k: Key, net: Net, n: Nqn)
    ensures n in Wanting(es, k, net) <==>
            exists i :: 0 <= i < |es| && Wants(es[i], k, net) && ExportNqn(es[i]) == n
  {
    if es != [] {
      var rest, last := es[..|es| - 1], |es| - 1;
      WantedIff(rest, k, net, n);
      if i :| 0 <= i < |rest| && Wants(rest[i], k, net) && ExportNqn(rest[i]) == n {
        assert es[i] == rest[i];
      }
      if i :| 0 <= i < |es| && Wants(es[i], k, net) && ExportNqn(es[i]) == n {
        assert i < last ==> rest[i] == es[i];
      }
    }
  }

  ghost predicate DistinctExports(es: seq<NvmeExport>) {
    forall i, j :: 0 <= i < j < |es| ==> es[i].name != es[j].name
  }

  lemma NqnInjective(e: NvmeExport, f: NvmeExport)
    ensures ExportNqn(e) == ExportNqn(f) ==> e.name == f.name
  {
    assert e.name == ExportNqn(e)[|OUR_NQN_PREFIX|..] && f.name == ExportNqn(f)[|OUR_NQN_PREFIX|..];
  }

  /** With distinct names no NQN is linked twice on one port. */
  lemma {:induction false} LinkedOnce(es: seq<NvmeExport>, k: Key, net: Net)
    requires DistinctExports(es)
    ensures forall i, j :: 0 <= i < j < |Wanting(es, k, net)| ==> Wanting(es, k, net)[i] != Wanting(es, k, net)[j]
  {
    if es != [] {
      var rest, last := es[..|es| - 1], es[|es| - 1];
      LinkedOnce(rest, k, net);
      WantedIff(rest, k, net, ExportNqn(last));
      forall i | 0 <= i < |rest| ensures ExportNqn(rest[i]) != ExportNqn(last) {
        NqnInjective(rest[i], last);
      }
    }
  }

  lemma {:induction false} SpecsIff(es: seq<NvmeExport>, s: SubsysSpec)
    ensures s in Specs(es) <==> exists i :: 0 <= i < |es| && Renderable(es[i]) && s == SpecOf(es[i])
  {
    if es != [] {
      SpecsIff(es[1..], s);
      if i :| 0 <= i < |es[1..]| && Renderable(es[1..][i]) && s == SpecOf(es[1..][i]) {
        assert es[i + 1] == es[1..][i];
      }
      if i :| 0 <= i < |es| && Renderable(es[i]) && s == SpecOf(es[i]) {
        assert i > 0 ==> es[1..][i - 1] == es[i];
      }
    }
  }

  lemma {:induction false} DistinctSpecs(es: seq<NvmeExport>)
    requires DistinctExports(es)
    ensures forall i, j :: 0 <= i < j < |Specs(es)| ==> Specs(es)[i].nqn != Specs(es)[j].nqn
  {
    if es != [] {
      DistinctSpecs(es[1..]);
      forall s | s in Specs(es[1..]) ensures s.nqn != ExportNqn(es[0]) {
        SpecsIff(es[1..], s);
        var i :| 0 <= i < |es[1..]| && Renderable(es[1..][i]) && s == SpecOf(es[1..][i]);
        assert es[i + 1] == es[1..][i] && es[0].name != es[i + 1].name;
        NqnInjective(es[0], es[i + 1]);
      }
    }
  }

  lemma RenderedIsSound(d: Desired, es: seq<NvmeExport>, net: Net, reserved: set<nat>)
    requires IsRendered(d, es, net, reserved) && CSI_PORT_ID in reserved
    ensures Sound(d) && OneNamespace(d) && (DistinctExports(es) ==> DistinctNames(d))
  {
    forall i | 0 <= i < |d.subsystems|
      ensures IsWeb(d.subsystems[i].nqn)
      ensures |d.subsystems[i].namespaces| == 1 && d.subsystems[i].namespaces[0].nsid == 1
    {
      SpecsIff(es, d.subsystems[i]);
      assert d.subsystems[i] in Specs(es);
    }
    forall i | 0 <= i < |d.ports|
      ensures d.ports[i].id != CSI_PORT_ID && Members(d.ports[i].subsystems) <= NqnsOf(d)
    {
      assert IdsOf(d.ports)[i] == d.ports[i].id;
      RenderedPortLinks(d, es, net, reserved, i);
    }
    forall i, j | 0 <= i < j < |d.ports| ensures d.ports[i].id != d.ports[j].id {
      assert IdsOf(d.ports)[i] < IdsOf(d.ports)[j];
    }
    if DistinctExports(es) {
      DistinctSpecs(es);
    }
  }

  /** In terms of the exports: an open one must list no initiator with a valid name. */
  lemma NoIdleHostsIff(d: Desired, es: seq<NvmeExport>, net: Net, reserved: set<nat>)
    requires IsRendered(d, es, net, reserved)
    ensures NoIdleHosts(d) <==>
            forall i :: 0 <= i < |es| && Renderable(es[i]) && es[i].allowAny ==> ValidHosts(es[i].initiators) == []
  {
    forall i | 0 <= i < |d.subsystems|
      ensures exists j :: 0 <= j < |es| && Renderable(es[j]) && d.subsystems[i] == SpecOf(es[j])
    {
      SpecsIff(es, d.subsystems[i]);
      assert d.subsystems[i] in Specs(es);
    }
    forall j | 0 <= j < |es| && Renderable(es[j]) ensures SpecOf(es[j]) in d.subsystems {
      SpecsIff(es, SpecOf(es[j]));
    }
  }

  lemma RenderedPortLinks(d: Desired, es: seq<NvmeExport>, net: Net, reserved: set<nat>, i: nat)
    requires IsRendered(d, es, net, reserved) && i < |d.ports|
    ensures Members(d.ports[i].subsystems) <= NqnsOf(d) && d.ports[i].subsystems != []
  {
    assert PortFits(d.ports[i], es, net);
    var k := KeyOf(d.ports[i]);
    assert KeysOf(d.ports)[i] in KeysOf(d.ports);
    forall n | n in d.ports[i].subsystems ensures n in NqnsOf(d) {
      WantedIff(es, k, net, n);
      var j :| 0 <= j < |es| && Wants(es[j], k, net) && ExportNqn(es[j]) == n;
      SpecsIff(es, SpecOf(es[j]));
    }
  }

  // ---- Foreign ports ----

  /** The ids of ports with links of others only, and always the CSI port's. */
  function ForeignPortIds(t: Tree): set<nat> {
    (set id | id in t.ports && t.ports[id].links != {} && !HasWebLink(t, id)) + {CSI_PORT_ID}
  }

  function TopId(ports: seq<PortSpec>): (top: nat)
    ensures forall p :: p in ports ==> p.id <= top
    ensures top == 0 || exists p :: p in ports && p.id == top
  {
    if ports == [] then 0
    else
      var rest := TopId(ports[1..]);
      assert forall p :: p in ports <==> p == ports[0] || p in ports[1..];
      if ports[0].id > rest then ports[0].id else rest
  }

  /** Up to the largest id in use, a converged tree reserves the same ids as the tree
      it was rendered from: a foreign port stays one, and every other id is ours. */
  lemma ReservedIsStable(t: Tree, t': Tree, d: Desired, es: seq<NvmeExport>, net: Net)
    requires IsRendered(d, es, net, ForeignPortIds(t)) && SparesForeign(t, t') && Converged(t', d)
    ensures AgreeUpTo(ForeignPortIds(t), ForeignPortIds(t'), TopId(d.ports))
  {
    forall x | 1 <= x <= TopId(d.ports) ensures x in ForeignPortIds(t) <==> x in ForeignPortIds(t') {
      if x in ForeignPortIds(t) && x != CSI_PORT_ID {
        ForeignStays(t, t', d, es, net, x);
      } else if x !in ForeignPortIds(t) {
        TakenIsOurs(t, t', d, es, net, x);
      }
    }
  }

  lemma ForeignStays(t: Tree, t': Tree, d: Desired, es: seq<NvmeExport>, net: Net, x: nat)
    requires IsRendered(d, es, net, ForeignPortIds(t)) && SparesForeign(t, t') && Converged(t', d)
    requires x in ForeignPortIds(t) && x != CSI_PORT_ID
    ensures x in ForeignPortIds(t')
  {
    var n :| n in t.ports[x].links;
    assert !IsWeb(n) && Linked(t, x, n) && Linked(t', x, n);
    forall p | p in d.ports ensures p.id != x {
      var i :| 0 <= i < |d.ports| && d.ports[i] == p;
      assert IdsOf(d.ports)[i] == p.id;
    }
    assert WantLinks(d, x) == {} && WebLinks(t', x) == {};
    assert forall m :: m in Links(t', x) && IsWeb(m) ==> m in WebLinks(t', x);
  }

  /** Every unreserved id up to the largest one in use is in use. */
  lemma IdInUse(ports: seq<PortSpec>, reserved: set<nat>, x: nat) returns (j: nat)
    requires SmallestFree(IdsOf(ports), reserved) && 1 <= x <= TopId(ports) && x !in reserved
    ensures j < |ports| && ports[j].id == x
  {
    var ids := IdsOf(ports);
    var p :| p in ports && p.id == TopId(ports);
    var i :| 0 <= i < |ports| && ports[i] == p;
    assert ids[i] == p.id;
    if x == p.id {
      j := i;
    } else {
      LastId(ids, reserved, i);
      assert x in ids[..i];
      j :| 0 <= j < i && ids[..i][j] == x;
    }
  }

  lemma TakenIsOurs(t: Tree, t': Tree, d: Desired, es: seq<NvmeExport>, net: Net, x: nat)
    requires IsRendered(d, es, net, ForeignPortIds(t)) && Converged(t', d)
    requires 1 <= x <= TopId(d.ports) && x !in ForeignPortIds(t)
    ensures x !in ForeignPortIds(t')
  {
    var j := IdInUse(d.ports, ForeignPortIds(t), x);
    RenderedPortLinks(d, es, net, ForeignPortIds(t), j);
    var n := d.ports[j].subsystems[0];
    var p := d.ports[j];
    assert p in d.ports && p.id == x && n in p.subsystems;
    assert n in WantLinks(d, x);
    assert n in WebLinks(t', x);
  }

  // ---- Decisions ----

  /** Nothing of the web's is linked on the CSI port. */
  ghost predicate WebOffCsiPort(t: Tree) {
    !HasWebLink(t, CSI_PORT_ID)
  }

  lemma SameForeignPorts(t: Tree, t': Tree)
    requires SameForWeb(t, t') && WebOffCsiPort(t) && WebOffCsiPort(t')
    ensures ForeignPortIds(t) == ForeignPortIds(t')
  {
    forall id: nat | id != CSI_PORT_ID ensures id in ForeignPortIds(t) <==> id in ForeignPortIds(t') {
      assert SamePort(t, t', id);
    }
  }

  lemma SameCheckOfPort(t: Tree, t': Tree, d: Desired, id: nat)
    requires SameForWeb(t, t') && WebOffCsiPort(t) && WebOffCsiPort(t') && Sound(d)
    ensures WebLinks(t, id) == WebLinks(t', id) && PortSatisfied(t, d, id) == PortSatisfied(t', d, id)
  {
    if id == CSI_PORT_ID {
      FirstPortAt(d.ports, id);
      assert WebLinks(t, id) == {} && WebLinks(t', id) == {};
    } else {
      assert SamePort(t, t', id);
    }
  }

  lemma SameCheck(t: Tree, t': Tree, d: Desired)
    requires SameForWeb(t, t') && WebOffCsiPort(t) && WebOffCsiPort(t') && Sound(d)
    ensures Satisfied(d, t) ==> Satisfied(d, t')
  {
    if Satisfied(d, t) {
      forall n | IsWeb(n) ensures SameSubsystem(t, t', n) {
        RealmsDisjoint(n);
      }
      assert WebNqns(t) == WebNqns(t');
      forall i | 0 <= i < |d.subsystems| ensures SubsysSatisfied(t', d.subsystems[i]) {
        assert SameSubsystem(t, t', d.subsystems[i].nqn);
      }
      forall id | id in PortIds(d) + t'.ports.Keys ensures PortSatisfied(t', d, id) {
        SameCheckOfPort(t, t', d, id);
        if id == CSI_PORT_ID {
          FirstPortAt(d.ports, id);
          assert WebLinks(t', id) == {};
        } else {
          assert SamePort(t, t', id);
        }
      }
    }
  }

  lemma SameBlocked(t: Tree, t': Tree, d: Desired)
    requires SameForWeb(t, t') && Sound(d)
    ensures NoneBlocked(t, d) <==> NoneBlocked(t', d)
  {
    forall i | 0 <= i < |d.ports|
      ensures Blocked(t, d.ports[i], OUR_NQN_PREFIX) == Blocked(t', d.ports[i], OUR_NQN_PREFIX)
    {
      assert SamePort(t, t', d.ports[i].id);
    }
  }

  /** What a pass decides depends on the web's side only: the state it renders, whether
      it skips, and whether some port is blocked. */
  lemma WebDecidesAlike(t: Tree, t': Tree, d: Desired, d': Desired, es: seq<NvmeExport>, net: Net)
    requires SameForWeb(t, t') && WebOffCsiPort(t) && WebOffCsiPort(t')
    requires IsRendered(d, es, net, ForeignPortIds(t)) && IsRendered(d', es, net, ForeignPortIds(t'))
    ensures d == d' && (Satisfied(d, t) <==> Satisfied(d', t')) && (NoneBlocked(t, d) <==> NoneBlocked(t', d'))
  {
    SameForeignPorts(t, t');
    RenderUnique(d, d', es, net, ForeignPortIds(t), ForeignPortIds(t'), TopId(d.ports));
    RenderedIsSound(d, es, net, ForeignPortIds(t));
    SameCheck(t, t', d);
    Flip(t, t');
    SameCheck(t', t, d);
    SameBlocked(t, t', d);
  }

  // ---- The pass ----

  /** Applies only when the tree does not already satisfy what is desired. */
  method ApplyOnDrift(t: Target, d: Desired) returns (status: Status)
    requires t.Valid() && t.actor.Web? && (HasWebLink(t.tree, CSI_PORT_ID) ==> t.actor.csiPort) && Sound(d)
    modifies t`tree, t`live, t`clock, t`trace, t`refusals
    ensures t.Valid()
    ensures status == Skipped <==> Satisfied(d, old(t.tree))
    ensures status == Skipped ==> t.tree == old(t.tree)
    ensures status == Success ==> Settled(old(t.tree), t.tree, d)
    ensures NoneBlocked(old(t.tree), d) ==> t.refusals == old(t.refusals) && (old(t.Quiet()) ==> status != Failed)
    ensures old(t.Quiet()) ==> t.Quiet() && (status == Failed ==> Stuck(old(t.tree), t.tree, d))
  {
    if Satisfied(d, t.tree) {
      status := Skipped;
    } else {
      var ok := ApplyDesired(t, d);
      status := if ok then Success else Failed;
    }
  }

  /** One reconcile pass over the nvmet area: render from the exports and the live
      tree, compare, and apply only on drift. */
  method ReconcilePass(t: Target, es: seq<NvmeExport>, net: Net) returns (status: Status, d: Desired)
    requires t.Valid()
    modifies t
    ensures t.Valid() && t.files == old(t.files)
    ensures t.served == old(t.served) + {Web(HasWebLink(old(t.tree), CSI_PORT_ID))}
    ensures IsRendered(d, es, net, ForeignPortIds(old(t.tree)))
    // Finished or not, nothing of anybody else's is touched.
    ensures SparesForeign(old(t.tree), t.tree)
    ensures !HasWebLink(old(t.tree), CSI_PORT_ID) ==> SameForCsi(old(t.tree), t.tree)
    ensures status == Skipped <==> Satisfied(d, old(t.tree))
    ensures status == Skipped ==> t.tree == old(t.tree)
    ensures status == Success ==> Settled(old(t.tree), t.tree, d)
    ensures status == Success && DistinctExports(es) ==> (Satisfied(d, t.tree) <==> NoIdleHosts(d))
    ensures status != Failed ==>
              AgreeUpTo(ForeignPortIds(old(t.tree)), ForeignPortIds(t.tree), TopId(d.ports))
    ensures NoneBlocked(old(t.tree), d) ==> t.refusals == old(t.refusals) && (old(t.Quiet()) ==> status != Failed)
    ensures old(t.Quiet()) ==> t.Quiet() && (status == Failed ==> Stuck(old(t.tree), t.tree, d))
  {
    var csiPort := HasWebLink(t.tree, CSI_PORT_ID);
    t.Serve(Web(csiPort));
    ghost var was := t.tree;
    d := RenderNvmet(es, net, ForeignPortIds(t.tree));
    RenderedIsSound(d, es, net, ForeignPortIds(t.tree));
    status := ApplyOnDrift(t, d);
    RequestSpares(t.began, t.trace, t.actor);
    if status == Success {
      PassSettles(was, t.tree, d, es, net);
    }
  }

  lemma PassSettles(was: Tree, t: Tree, d: Desired, es: seq<NvmeExport>, net: Net)
    requires IsRendered(d, es, net, ForeignPortIds(was)) && SparesForeign(was, t) && Settled(was, t, d)
    ensures AgreeUpTo(ForeignPortIds(was), ForeignPortIds(t), TopId(d.ports))
    ensures DistinctExports(es) ==> (Satisfied(d, t) <==> NoIdleHosts(d))
  {
    RenderedIsSound(d, es, net, ForeignPortIds(was));
    ReservedIsStable(was, t, d, es, net);
    if DistinctExports(es) {
      ConvergedIsSatisfied(t, d);
    }
  }

  /** The loop settles: after a pass that did not fail, the next one renders the same
      state again and finds nothing to do, unless an open export lists hosts. */
  method PassTwice(t: Target, es: seq<NvmeExport>, net: Net)
    returns (first: Status, second: Status, d: Desired, d': Desired)
    requires t.Valid() && DistinctExports(es)
    modifies t
    ensures t.Valid()
    ensures first != Failed ==> d' == d
    ensures first == Skipped ==> second == Skipped
    ensures first == Success ==> (second == Skipped <==> NoIdleHosts(d))
    ensures NoIdleHosts(d) <==>
            forall i :: 0 <= i < |es| && Renderable(es[i]) && es[i].allowAny ==> ValidHosts(es[i].initiators) == []
  {
    ghost var was := t.tree;
    first, d := ReconcilePass(t, es, net);
    NoIdleHostsIff(d, es, net, ForeignPortIds(was));
    ghost var now := t.tree;
    second, d' := ReconcilePass(t, es, net);
    if first != Failed {
      RenderUnique(d, d', es, net, ForeignPortIds(was), ForeignPortIds(now), TopId(d.ports));
    }
  }

  // ---- Passes beside different neighbours ----

  /** Two namespaces-and-ACLs as specified, with the same uuids, are the same. */
  lemma SameRealized(s: Subsys, s': Subsys, spec: SubsysSpec, m: map<nat, Namespace>)
    requires Realized(s, spec) && Realized(s', spec) && |spec.namespaces| == 1 && spec.namespaces[0].nsid == 1
    requires KeepsUuids(m, s.namespaces) && KeepsUuids(m, s'.namespaces)
    ensures s == s'
  {
    assert DistinctNs(spec.namespaces) && Nsids(spec.namespaces) == {1} by {
      assert spec.namespaces[0] in spec.namespaces;
    }
    assert s.namespaces[1] == s'.namespaces[1];
    assert s.namespaces == s'.namespaces;
  }

  lemma SameSettledSubsystem(t: Tree, t': Tree, u: Tree, u': Tree, d: Desired, n: Nqn)
    requires SameForWeb(t, u) && SparesForeign(t, t') && SparesForeign(u, u') && !IsCsi(n)
    requires SubsystemsSettled(t, t', d) && SubsystemsSettled(u, u', d) && DistinctNames(d) && OneNamespace(d)
    ensures SameSubsystem(t', u', n)
  {
    assert SameSubsystem(t, u, n);
    if !IsWeb(n) {
      assert SameSubsystem(t, t', n) && SameSubsystem(u, u', n);
    } else {
      assert n in t'.subsystems <==> n in WebNqns(t');
      assert n in u'.subsystems <==> n in WebNqns(u');
      if n in NqnsOf(d) {
        var s :| s in d.subsystems && s.nqn == n;
        var i :| 0 <= i < |d.subsystems| && d.subsystems[i] == s;
        assert NamespacesOf(t, n) == NamespacesOf(u, n);
        SameRealized(t'.subsystems[n], u'.subsystems[n], s, NamespacesOf(t, n));
      }
    }
  }

  /** Where passes start alike they end alike, whatever else is in the tree. */
  lemma SettledAlike(t: Tree, t': Tree, u: Tree, u': Tree, d: Desired)
    requires SameForWeb(t, u) && SparesForeign(t, t') && SparesForeign(u, u')
    requires Settled(t, t', d) && Settled(u, u', d) && DistinctNames(d) && OneNamespace(d)
    ensures SameForWeb(t', u')
  {
    forall n | !IsCsi(n) ensures SameSubsystem(t', u', n) {
      SameSettledSubsystem(t, t', u, u', d, n);
    }
    forall id: nat | id != CSI_PORT_ID ensures SamePort(t', u', id) {
      assert SamePort(t, u, id) && Get(t.ports, id) == Get(u.ports, id);
      assert Get(t'.ports, id) == Get(u'.ports, id);
    }
  }

  lemma MovedIsWeb(was: Tree, t: Tree, d: Desired, i: nat)
    requires Sound(d) && Settled(was, t, d) && i < |d.ports|
    requires !AddrMatches(PortAt(was, d.ports[i].id).addr, d.ports[i])
    ensures forall n :: n in Links(t, d.ports[i].id) ==> IsWeb(n)
  {
    var p := d.ports[i];
    FirstPortAt(d.ports, p.id);
    PortIsWeb(d, i);
    assert Get(t.ports, p.id) == PortAfter(d, p.id, Get(was.ports, p.id));
    assert Links(t, p.id) == Members(p.subsystems);
  }

  /** A pass that succeeds had no port to move away from under a foreign link. */
  lemma SettledWasFree(was: Tree, t: Tree, d: Desired)
    requires Sound(d) && SparesForeign(was, t) && Settled(was, t, d)
    ensures NoneBlocked(was, d)
  {
    forall i | 0 <= i < |d.ports| ensures !Blocked(was, d.ports[i], OUR_NQN_PREFIX) {
      var p := d.ports[i];
      if !AddrMatches(PortAt(was, p.id).addr, p) {
        MovedIsWeb(was, t, d, i);
        forall n | n in PortAt(was, p.id).links ensures IsWeb(n) {
          assert Linked(was, p.id, n) && (!IsWeb(n) ==> Linked(t, p.id, n));
        }
      }
    }
  }

  lemma SameHalt(t: Tree, t': Tree, u: Tree, u': Tree, d: Desired, i: nat, k: nat)
    requires SameForWeb(t, u) && Sound(d) && StuckAt(t, t', d, i) && StuckAt(u, u', d, k)
    ensures i == k
  {
    assert SamePort(t, u, d.ports[i].id) && SamePort(t, u, d.ports[k].id);
    assert Blocked(u, d.ports[i], OUR_NQN_PREFIX) && Blocked(t, d.ports[k], OUR_NQN_PREFIX);
  }

  /** And where they come to a halt they do so alike. */
  lemma StuckAlike(t: Tree, t': Tree, u: Tree, u': Tree, d: Desired)
    requires SameForWeb(t, u) && SparesForeign(t, t') && SparesForeign(u, u')
    requires Stuck(t, t', d) && Stuck(u, u', d) && Sound(d) && DistinctNames(d) && OneNamespace(d)
    ensures SameForWeb(t', u')
  {
    var i: nat, k: nat :| StuckAt(t, t', d, i) && StuckAt(u, u', d, k);
    SameHalt(t, t', u, u', d, i, k);
    forall n | !IsCsi(n) ensures SameSubsystem(t', u', n) {
      SameSettledSubsystem(t, t', u, u', d, n);
    }
    forall id: nat | id != CSI_PORT_ID ensures SamePort(t', u', id) {
      assert SamePort(t, u, id) && Get(t.ports, id) == Get(u.ports, id);
      assert Get(t'.ports, id) == Get(u'.ports, id);
    }
  }

  /** Two targets on which the web's objects agree and the CSI side's need not: a pass on
      each renders the same state and skips on both or on neither, and where neither
      fails the web's objects agree again. Where no operation fails they agree in any
      case, and the passes end with the same status, refused by the kernel or not. */
  method PassesAgree(t: Target, u: Target, es: seq<NvmeExport>, net: Net)
    returns (first: Status, second: Status, d: Desired, d': Desired)
    requires t != u && t.Valid() && u.Valid() && t.origin == INITIAL && u.origin == INITIAL
    requires SameForWeb(t.tree, u.tree) && DistinctExports(es)
    modifies t, u
    ensures t.Valid() && u.Valid()
    ensures d' == d && (first == Skipped <==> second == Skipped)
    ensures first != Failed && second != Failed ==> SameForWeb(t.tree, u.tree)
    ensures old(t.Quiet() && u.Quiet()) ==> first == second && SameForWeb(t.tree, u.tree)
    ensures old(t.Quiet() && u.Quiet()) && NoneBlocked(old(t.tree), d) ==> first != Failed
  {
    ghost var w, x := t.tree, u.tree;
    NoWebLinkOnCsiPort(t.trace);
    NoWebLinkOnCsiPort(u.trace);
    first, d := ReconcilePass(t, es, net);
    second, d' := ReconcilePass(u, es, net);
    WebDecidesAlike(w, x, d, d', es, net);
    EndAlike(w, t.tree, x, u.tree, d, es, net);
  }

  /** What two passes with the same beginning have in common at their ends. */
  lemma EndAlike(w: Tree, w': Tree, x: Tree, x': Tree, d: Desired, es: seq<NvmeExport>, net: Net)
    requires SameForWeb(w, x) && SparesForeign(w, w') && SparesForeign(x, x')
    requires IsRendered(d, es, net, ForeignPortIds(w)) && DistinctExports(es)
    ensures Settled(w, w', d) ==> NoneBlocked(w, d)
    ensures Settled(x, x', d) ==> NoneBlocked(x, d)
    ensures Settled(w, w', d) && Settled(x, x', d) ==> SameForWeb(w', x')
    ensures Stuck(w, w', d) && Stuck(x, x', d) ==> SameForWeb(w', x')
  {
    RenderedIsSound(d, es, net, ForeignPortIds(w));
    if Settled(w, w', d) {
      SettledWasFree(w, w', d);
    }
    if Settled(x, x', d) {
      SettledWasFree(x, x', d);
    }
    if Settled(w, w', d) && Settled(x, x', d) {
      SettledAlike(w, w', x, x', d);
    }
    if Stuck(w, w', d) && Stuck(x, x', d) {
      StuckAlike(w, w', x, x', d);
    }
  }
}
