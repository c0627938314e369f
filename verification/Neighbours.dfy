/** Each side of the target as if the other were not there: what its operations alone
    would have made, what its requests decide, and where they end. The reconcile pass's
    half of the last two is in ReconcileLoop. */
module Neighbours {
  import opened Options
  import opened Nvmet
  import opened Machine
  import opened Frames
  import opened Fencing
  import opened Interference
  import opened Targets
  import opened NvmetOps
  import opened Statuses
  import opened Csi
  import opened Handover

  lemma {:induction false} CleanRun(tr: Trace, who: set<Actor>)
    requires ActedBy(tr, who) && Web(true) !in who
    ensures CleanPasses(tr)
  {
    if tr.Then? {
      CleanRun(tr.before, who);
    }
  }

  /** Of every target that started empty, whatever it served and however that failed:
      each side's operations alone would have been accepted all the way, and would have
      made its subsystems and ports what they are. */
  lemma EitherSideOfTarget(t: Target)
    requires t.Valid() && t.origin == INITIAL
    ensures AcceptedAlone(t.trace, true) && SameForWeb(Replay(t.trace, true), t.tree)
    ensures AcceptedAlone(t.trace, false) && SameForCsi(Replay(t.trace, false), t.tree)
  {
    CleanRun(t.trace, t.served);
    NonInterference(t.trace);
    EitherSideAlone(t.trace, true);
    EitherSideAlone(t.trace, false);
  }

  /** What a CSI request decides depends on its own side only. */
  lemma CsiDecidesAlike(s: State, s': State, e: Export, host: Nqn, uid: string)
    requires IsCsi(e.nqn) && s'.files == s.files && SameForCsi(s.tree, s'.tree)
    ensures Admits(s, e.nqn, host, uid) == Admits(s', e.nqn, host, uid)
    ensures Load(s.files, e.nqn).Some? ==>
              Tombstoned(s, e.nqn, host, uid) == Tombstoned(s', e.nqn, host, uid)
    ensures Blocked(s.tree, CsiPort(e), CSI_NQN_PREFIX) == Blocked(s'.tree, CsiPort(e), CSI_NQN_PREFIX)
    ensures KeptLinks(s.tree, e) == KeptLinks(s'.tree, e)
  {
    assert SamePort(s.tree, s'.tree, CSI_PORT_ID) && SameSubsystem(s.tree, s'.tree, e.nqn);
  }

  /** Two targets with the same records on which the CSI side's objects agree and the
      web's need not: a publish on each is admitted on both or on neither, and where
      neither fails the objects agree again. Where no operation fails they agree in any
      case, and both publishes fail or neither does. */
  method PublishesAgree(t: Target, u: Target, e: Export, host: Nqn, uid: string) returns (first: Status, second: Status)
    requires t != u && t.Valid() && u.Valid() && t.origin == INITIAL && u.origin == INITIAL
    requires IsCsi(e.nqn) && t.files == u.files && SameForCsi(t.tree, u.tree)
    modifies t, u
    ensures t.Valid() && u.Valid()
    ensures !Admits(old(t.Now()), e.nqn, host, uid) ==> first == Failed && second == Failed
    ensures first != Failed && second != Failed ==>
              SameForCsi(t.tree, u.tree) && Load(t.files, e.nqn) == Load(u.files, e.nqn)
    ensures old(t.Quiet() && u.Quiet()) ==>
              && (first == Failed <==> !Admits(old(t.Now()), e.nqn, host, uid))
              && (second == Failed <==> first == Failed)
              && SameForCsi(t.tree, u.tree) && Load(t.files, e.nqn) == Load(u.files, e.nqn)
  {
    CsiDecidesAlike(t.Now(), u.Now(), e, host, uid);
    ShapedRun(t.trace);
    ShapedIsFree(t.Now(), e);
    ghost var w, x := t.tree, u.tree;
    first := Publish(t, e, host, uid);
    second := Publish(u, e, host, uid);
    if first != Failed && second != Failed {
      PublishedAlike(w, t.tree, x, u.tree, e, host);
    }
  }

  lemma PublishedAlike(w: Tree, w': Tree, x: Tree, x': Tree, e: Export, host: Nqn)
    requires IsCsi(e.nqn) && SameForCsi(w, x)
    requires w'.subsystems == w.subsystems[e.nqn := ExportedSubsys(w, e).(hosts := {host})]
    requires x'.subsystems == x.subsystems[e.nqn := ExportedSubsys(x, e).(hosts := {host})]
    requires w'.ports == w.ports[CSI_PORT_ID := CsiPortAfter(w, e)]
    requires x'.ports == x.ports[CSI_PORT_ID := CsiPortAfter(x, e)]
    ensures SameForCsi(w', x')
  {
    assert SamePort(w, x, CSI_PORT_ID) && SameSubsystem(w, x, e.nqn);
    forall n | IsCsi(n) ensures SameSubsystem(w', x', n) {
      assert SameSubsystem(w, x, n);
    }
  }

  lemma OnlyThere(t: Target, nqn: Nqn)
    requires t.Valid() && IsCsi(nqn)
    ensures t.origin == INITIAL ==> OnlyOnCsiPort(t.tree, nqn)
  {
    if t.origin == INITIAL {
      ShapedRun(t.trace);
    }
  }

  /** Likewise a detach. */
  method UnpublishesAgree(t: Target, u: Target, nqn: Nqn, host: Nqn, uid: string)
    returns (first: Status, second: Status)
    requires t != u && t.Valid() && u.Valid()
    requires IsCsi(nqn) && t.files == u.files && SameForCsi(t.tree, u.tree)
    modifies t, u
    ensures t.Valid() && u.Valid()
    ensures !Detachable(old(t.files), nqn, host, uid) ==> first == Failed && second == Failed
    ensures first != Failed && second != Failed ==>
              SameForCsi(t.tree, u.tree) && Load(t.files, nqn) == Load(u.files, nqn)
    ensures old(t.Quiet() && u.Quiet()) && t.origin == INITIAL && u.origin == INITIAL ==>
              && (first == Failed <==> !Detachable(old(t.files), nqn, host, uid))
              && (second == Failed <==> first == Failed)
              && SameForCsi(t.tree, u.tree) && Load(t.files, nqn) == Load(u.files, nqn)
  {
    OnlyThere(t, nqn);
    OnlyThere(u, nqn);
    ghost var w, x := t.Now(), u.Now();
    assert SameSubsystem(w.tree, x.tree, nqn);
    first := Unpublish(t, nqn, host, uid);
    second := Unpublish(u, nqn, host, uid);
    if first != Failed && second != Failed {
      assert Tombstoned(w, nqn, host, uid) == Tombstoned(x, nqn, host, uid);
      if Tombstoned(w, nqn, host, uid).owner == Some(Owner(host, uid)) {
        TornDownAlike(w.tree, t.tree, x.tree, u.tree, nqn);
      }
    }
  }

  lemma TornDownAlike(w: Tree, w': Tree, x: Tree, x': Tree, nqn: Nqn)
    requires IsCsi(nqn) && SameForCsi(w, x) && TornDown(w, w', nqn) && TornDown(x, x', nqn)
    ensures SameForCsi(w', x')
  {
    assert SamePort(w, x, CSI_PORT_ID);
    forall n | IsCsi(n) ensures SameSubsystem(w', x', n) {
      assert SameSubsystem(w, x, n);
    }
  }
}
