/** How many reconcile passes it takes: a pass can come to a halt at a port that a
    foreign link holds, but then that port is out of the way for good. */
module Settling {
  import opened Nvmet
  import opened Machine
  import opened Frames
  import opened Sorting
  import opened Targets
  import opened NvmetOps
  import opened Render
  import opened Reconcile
  import opened ReconcileLoop
  import opened Statuses

  /** The ports with links of the web and of others. */
  function Mixed(t: Tree): set<nat> {
    set id | id in t.ports && HasWebLink(t, id) && HoldsForeign(t, id)
  }

  lemma DesiredIsNotForeign(d: Desired, es: seq<NvmeExport>, net: Net, reserved: set<nat>, i: nat)
    requires IsRendered(d, es, net, reserved) && i < |d.ports|
    ensures d.ports[i].id !in reserved
  {
    assert IdsOf(d.ports)[i] == d.ports[i].id;
  }

  lemma AloneIsUndesired(was: Tree, d: Desired, es: seq<NvmeExport>, net: Net, id: nat)
    requires IsRendered(d, es, net, ForeignPortIds(was)) && HoldsForeign(was, id) && !HasWebLink(was, id)
    ensures Undesired(d, id)
  {
    forall p | p in d.ports ensures p.id != id {
      var i :| 0 <= i < |d.ports| && d.ports[i] == p;
      DesiredIsNotForeign(d, es, net, ForeignPortIds(was), i);
    }
  }

  /** Ports that are not desired have gained nothing, and the one it halted at has lost
      every web link. */
  lemma StuckLinks(was: Tree, t: Tree, d: Desired, i: nat)
    requires StuckAt(was, t, d, i)
    ensures WebLinks(t, d.ports[i].id) == {}
    ensures forall id :: Undesired(d, id) ==> WebLinks(t, id) <= WebLinks(was, id)
  {
    assert Get(t.ports, d.ports[i].id) == PortHalted(d, i, d.ports[i].id, Get(was.ports, d.ports[i].id));
    forall id | Undesired(d, id) ensures WebLinks(t, id) <= WebLinks(was, id) {
      assert d.ports[i] in d.ports;
      FirstPortAt(d.ports[..i], id);
      assert forall p :: p in d.ports[..i] ==> p in d.ports;
      assert Get(t.ports, id) == PortHalted(d, i, id, Get(was.ports, id));
    }
  }

  /** A pass puts no web link beside a foreign one that stood alone. */
  lemma NoneMixedAnew(was: Tree, t: Tree, d: Desired, es: seq<NvmeExport>, net: Net, id: nat)
    requires IsRendered(d, es, net, ForeignPortIds(was)) && SparesForeign(was, t) && Stuck(was, t, d)
    requires id in Mixed(t)
    ensures id in Mixed(was)
  {
    var f :| f in Links(t, id) && !IsWeb(f);
    assert Linked(was, id, f);
    if Undesired(d, id) {
      var i: nat :| StuckAt(was, t, d, i);
      StuckLinks(was, t, d, i);
      var n :| n in Links(t, id) && IsWeb(n);
      assert n in WebLinks(t, id) && n in WebLinks(was, id);
      assert n in Links(was, id);
    } else if !HasWebLink(was, id) {
      AloneIsUndesired(was, d, es, net, id);
    }
  }

  /** The port it halted at was one of them and is so no more. */
  lemma HaltUnmixes(was: Tree, t: Tree, d: Desired, es: seq<NvmeExport>, net: Net, i: nat)
    requires IsRendered(d, es, net, ForeignPortIds(was)) && StuckAt(was, t, d, i)
    ensures d.ports[i].id in Mixed(was) && d.ports[i].id !in Mixed(t)
  {
    StuckLinks(was, t, d, i);
    var id := d.ports[i].id;
    DesiredIsNotForeign(d, es, net, ForeignPortIds(was), i);
    var f :| f in PortAt(was, id).links && !IsWeb(f);
    assert id in was.ports && f in Links(was, id);
    assert forall n :: n in Links(t, id) && IsWeb(n) ==> n in WebLinks(t, id);
  }

  /** A pass that comes to a halt leaves one such port fewer. */
  lemma StuckShrinks(was: Tree, t: Tree, d: Desired, es: seq<NvmeExport>, net: Net)
    requires IsRendered(d, es, net, ForeignPortIds(was)) && SparesForeign(was, t) && Stuck(was, t, d)
    ensures Mixed(t) < Mixed(was)
  {
    forall id | id in Mixed(t) ensures id in Mixed(was) {
      NoneMixedAnew(was, t, d, es, net, id);
    }
    var i: nat :| StuckAt(was, t, d, i);
    HaltUnmixes(was, t, d, es, net, i);
  }

  /** Where no operation fails, a pass fails if and only if there is something to do and
      some port is blocked. */
  method QuietPass(t: Target, es: seq<NvmeExport>, net: Net) returns (status: Status, d: Desired)
    requires t.Valid() && t.Quiet()
    modifies t
    ensures t.Valid() && t.Quiet() && SparesForeign(old(t.tree), t.tree)
    ensures IsRendered(d, es, net, ForeignPortIds(old(t.tree)))
    ensures status == Failed <==> !Satisfied(d, old(t.tree)) && !NoneBlocked(old(t.tree), d)
    ensures status == Failed ==> Mixed(t.tree) < Mixed(old(t.tree))
    ensures status == Success ==> Converged(t.tree, d)
    ensures status == Skipped ==> Satisfied(d, t.tree)
  {
    ghost var was := t.tree;
    status, d := ReconcilePass(t, es, net);
    RenderedIsSound(d, es, net, ForeignPortIds(was));
    if status == Success {
      SettledWasFree(was, t.tree, d);
    }
    if status == Failed {
      StuckShrinks(was, t.tree, d, es, net);
    }
  }

  lemma StillSpared(a: Tree, b: Tree, c: Tree)
    requires SparesForeign(a, b) && SparesForeign(b, c)
    ensures SparesForeign(a, c)
  {
    forall n | !IsWeb(n) ensures SameSubsystem(a, c, n) {
      assert SameSubsystem(a, b, n) && SameSubsystem(b, c, n);
    }
    forall id | HoldsForeign(a, id) ensures HoldsForeign(b, id) {
      var f :| f in Links(a, id) && !IsWeb(f);
      assert Linked(b, id, f);
    }
  }

  lemma FewerLeft(a: set<nat>, b: set<nat>)
    requires a < b
    ensures |a| < |b|
  {
    var x :| x in b && x !in a;
    SubsetSize(a, b - {x});
  }

  /** From any tree, once nothing fails: at most one pass more than there are ports with
      links of both, and the web's objects are as desired. */
  method PassesUntilDone(t: Target, es: seq<NvmeExport>, net: Net) returns (status: Status, d: Desired, passes: nat)
    requires t.Valid() && t.Quiet()
    modifies t
    ensures t.Valid() && status != Failed && 1 <= passes <= |Mixed(old(t.tree))| + 1
    ensures SparesForeign(old(t.tree), t.tree)
    ensures status == Success ==> Converged(t.tree, d)
    ensures status == Skipped ==> Satisfied(d, t.tree)
    decreases Mixed(t.tree)
  {
    ghost var was := t.tree;
    status, d := QuietPass(t, es, net);
    passes := 1;
    if status == Failed {
      ghost var now := t.tree;
      FewerLeft(Mixed(now), Mixed(was));
      status, d, passes := PassesUntilDone(t, es, net);
      passes := passes + 1;
      StillSpared(was, now, t.tree);
    }
  }

  /** One pass is not always enough: a port that the web shares with somebody else, at an
      address no longer wanted. */
  lemma HeldPort(nqn: Nqn, path: string, ip: Ip, before: Ip, other: Nqn)
    requires IsWeb(nqn) && !IsWeb(other) && ip != before
    ensures var d, one := OneExport(nqn, path, true, [], ip), OneTree(nqn, path, true, {}, before, TRSVCID);
            var t := one.(ports := one.ports[1 := one.ports[1].(links := {nqn, other})]);
            Sound(d) && !Satisfied(d, t) && !NoneBlocked(t, d) && Mixed(t) == {1}
  {
    var d, one := OneExport(nqn, path, true, [], ip), OneTree(nqn, path, true, {}, before, TRSVCID);
    var t := one.(ports := one.ports[1 := one.ports[1].(links := {nqn, other})]);
    OneExportIsSound(nqn, path, true, [], ip);
    FirstPortAt(d.ports, 1);
    assert nqn in Links(t, 1) && other in Links(t, 1);
    assert !PortSatisfied(t, d, 1) && 1 in PortIds(d);
    assert TrAddr(ip) == AddrFields(d.ports[0])[1] && TrAddr(ip) in AddrFields(d.ports[0]);
    assert Blocked(t, d.ports[0], OUR_NQN_PREFIX);
  }
}
