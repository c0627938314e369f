/** What one side's operations leave alone. */
module Frames {
  import opened Options
  import opened Nvmet
  import opened Machine

  ghost predicate SameSubsystem(t: Tree, t': Tree, n: Nqn) {
    && (n in t.subsystems <==> n in t'.subsystems)
    && (n in t.subsystems ==> t.subsystems[n] == t'.subsystems[n])
  }

  ghost predicate SamePort(t: Tree, t': Tree, id: nat) {
    && (id in t.ports <==> id in t'.ports)
    && (id in t.ports ==> t.ports[id] == t'.ports[id])
  }

  /** The trees agree outside the CSI subsystems and the CSI port. */
  ghost predicate SameForWeb(t: Tree, t': Tree) {
    && (forall n :: !IsCsi(n) ==> SameSubsystem(t, t', n))
    && (forall id :: id != CSI_PORT_ID ==> SamePort(t, t', id))
  }

  /** The trees agree on the CSI subsystems and the CSI port. */
  ghost predicate SameForCsi(t: Tree, t': Tree) {
    && (forall n :: IsCsi(n) ==> SameSubsystem(t, t', n))
    && SamePort(t, t', CSI_PORT_ID)
  }

  predicate HoldsForeign(t: Tree, id: nat) {
    exists n :: n in Links(t, id) && !IsWeb(n)
  }

  /** Subsystems and links outside the web prefix are as they were, and a port that
      holds such a link is still there with its address. */
  ghost predicate SparesForeign(t: Tree, t': Tree) {
    && (forall n :: !IsWeb(n) ==> SameSubsystem(t, t', n))
    && (forall id, n :: !IsWeb(n) ==> (Linked(t, id, n) <==> Linked(t', id, n)))
    && (forall id :: HoldsForeign(t, id) ==> id in t'.ports && t'.ports[id].addr == t.ports[id].addr)
  }

  /** What a request has left alone since it began on tree `t`. */
  ghost predicate Spares(actor: Actor, t: Tree, t': Tree) {
    match actor
    case Web(csiPort) => SparesForeign(t, t') && (!csiPort ==> SameForCsi(t, t'))
    case _ => SameForWeb(t, t')
  }

  lemma WebStepForCsi(t: Tree, op: KernelOp)
    requires WebOp(false, op)
    ensures SameForCsi(t, Effect(t, op))
  {
    forall n | IsCsi(n) ensures SameSubsystem(t, Effect(t, op), n) {
      RealmsDisjoint(n);
    }
  }

  lemma CsiStepForWeb(t: Tree, actor: Actor, op: KernelOp)
    requires InScope(actor, op) && !actor.Web?
    ensures SameForWeb(t, Effect(t, op))
  {
  }

  lemma WebStepForForeign(t: Tree, t': Tree, csiPort: bool, op: KernelOp)
    requires SparesForeign(t, t') && WebOp(csiPort, op) && Accepts(t', op)
    ensures SparesForeign(t, Effect(t', op))
  {
    var t'' := Effect(t', op);
    forall id, n | !IsWeb(n) ensures Linked(t', id, n) <==> Linked(t'', id, n) {
    }
    forall id | HoldsForeign(t, id)
      ensures id in t''.ports && t''.ports[id].addr == t.ports[id].addr
    {
      var n :| n in Links(t, id) && !IsWeb(n);
      assert Linked(t', id, n);
    }
  }

  lemma Compose(t: Tree, u: Tree, w: Tree)
    ensures SameForWeb(t, u) && SameForWeb(u, w) ==> SameForWeb(t, w)
    ensures SameForCsi(t, u) && SameForCsi(u, w) ==> SameForCsi(t, w)
  {
    assert forall n :: SameSubsystem(t, u, n) && SameSubsystem(u, w, n) ==> SameSubsystem(t, w, n);
    assert forall id: nat :: SamePort(t, u, id) && SamePort(u, w, id) ==> SamePort(t, w, id);
  }

  lemma Flip(t: Tree, u: Tree)
    requires SameForWeb(t, u)
    ensures SameForWeb(u, t)
  {
    forall n | !IsCsi(n) ensures SameSubsystem(u, t, n) {
      assert SameSubsystem(t, u, n);
    }
    forall id: nat | id != CSI_PORT_ID ensures SamePort(u, t, id) {
      assert SamePort(t, u, id);
    }
  }

  lemma SparesStep(t: Tree, t': Tree, actor: Actor, op: KernelOp)
    requires Spares(actor, t, t') && InScope(actor, op) && Accepts(t', op)
    ensures Spares(actor, t, Effect(t', op))
  {
    if actor.Web? {
      WebStepForForeign(t, t', actor.csiPort, op);
      if !actor.csiPort {
        WebStepForCsi(t', op);
        Compose(t, t', Effect(t', op));
      }
    } else {
      CsiStepForWeb(t', actor, op);
      Compose(t, t', Effect(t', op));
    }
  }

  /** Whatever a request has done so far, finished or not, it has spared the rest. */
  lemma {:induction false} RequestSpares(p: Trace, tr: Trace, actor: Actor)
    requires Legal(tr) && Since(p, tr, actor)
    ensures Spares(actor, Last(p).tree, Last(tr).tree)
  {
    if tr != p {
      RequestSpares(p, tr.before, actor);
      if tr.act.Kernel? {
        SparesStep(Last(p).tree, Last(tr.before).tree, actor, tr.act.op);
      }
    }
  }
}
