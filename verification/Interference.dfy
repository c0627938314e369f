/** Who can disturb whom: reconcile passes and CSI requests do not see each other, and
    CSI volumes share only the port's address and a temporary file name. */
module Interference {
  import opened Options
  import opened Nvmet
  import opened Machine
  import opened Frames
  import opened Fencing

  // ---- Web and CSI ----

  /** No pass in the run began with a web link on the CSI port. */
  predicate CleanPasses(tr: Trace) {
    match tr
    case Start(_) => true
    case Then(p, a) => CleanPasses(p) && (a.Kernel? ==> a.actor != Web(true))
  }

  /** The operation belongs to one side. Host objects belong to both. */
  predicate OnSide(actor: Actor, op: KernelOp, web: bool) {
    actor.Web? == web || op.CreateHost?
  }

  /** Replays only the tree operations of one side; reboots hit both. */
  function Replay(tr: Trace, web: bool): Tree {
    match tr
    case Start(s) => s.tree
    case Then(p, a) =>
      match a
      case Reboot => EMPTY_TREE
      case Kernel(actor, op) =>
        if OnSide(actor, op, web) then Effect(Replay(p, web), op) else Replay(p, web)
      case _ => Replay(p, web)
  }

  /** The subsystem or port an operation is about evolves from its own value only. */
  lemma LocalEffect(t: Tree, t': Tree, op: KernelOp, n: Nqn, id: nat)
    ensures SameSubsystem(t, t', n) ==> SameSubsystem(Effect(t, op), Effect(t', op), n)
    ensures SamePort(t, t', id) ==> SamePort(Effect(t, op), Effect(t', op), id)
  {
  }

  lemma OwnStep(t: Tree, t': Tree, op: KernelOp)
    ensures SameForWeb(t, t') ==> SameForWeb(Effect(t, op), Effect(t', op))
    ensures SameForCsi(t, t') ==> SameForCsi(Effect(t, op), Effect(t', op))
  {
    forall n ensures SameSubsystem(t, t', n) ==> SameSubsystem(Effect(t, op), Effect(t', op), n) {
      LocalEffect(t, t', op, n, 0);
    }
    forall id: nat ensures SamePort(t, t', id) ==> SamePort(Effect(t, op), Effect(t', op), id) {
      LocalEffect(t, t', op, "", id);
    }
  }

  /** In any interleaving, each side's objects are exactly what its own operations
      alone would have made them. */
  lemma {:induction false} NonInterference(tr: Trace)
    requires Legal(tr) && CleanPasses(tr)
    ensures SameForWeb(Replay(tr, true), Last(tr).tree)
    ensures SameForCsi(Replay(tr, false), Last(tr).tree)
  {
    match tr
    case Start(_) =>
    case Then(p, a) =>
      NonInterference(p);
      if a.Kernel? {
        if a.actor.Web? {
          WebStepForCsi(Last(p).tree, a.op);
        } else {
          CsiStepForWeb(Last(p).tree, a.actor, a.op);
        }
        OwnStep(Replay(p, a.actor.Web?), Last(p).tree, a.op);
        OwnStep(Replay(p, !a.actor.Web?), Last(p).tree, a.op);
        Compose(Replay(p, !a.actor.Web?), Last(p).tree, Last(tr).tree);
      }
  }

  /** The kernel accepts every operation of one side when it acts alone. */
  ghost predicate AcceptedAlone(tr: Trace, web: bool) {
    match tr
    case Start(_) => true
    case Then(p, a) =>
      AcceptedAlone(p, web) &&
      (a.Kernel? && OnSide(a.actor, a.op, web) ==> Accepts(Replay(p, web), a.op))
  }

  /** Alone, the web never has the CSI port and the CSI side has no other. */
  ghost predicate OwnPorts(t: Tree, web: bool) {
    forall id :: id in t.ports ==> (id != CSI_PORT_ID <==> web)
  }

  lemma WebAcceptsAlone(s: State, t: Tree, op: KernelOp)
    requires Shaped(s) && Accepts(s.tree, op) && WebOp(false, op)
    requires SameForWeb(t, s.tree) && t.hosts == s.tree.hosts && OwnPorts(t, true)
    ensures Accepts(t, op)
  {
    if op.OnSubsys? {
      RealmsDisjoint(op.nqn);
      assert SameSubsystem(t, s.tree, op.nqn);
      if LinkedAnywhere(t, op.nqn) {
        var id :| id in t.ports && op.nqn in t.ports[id].links;
        assert SamePort(t, s.tree, id);
      }
    } else if op.OnPort? {
      assert op.id != CSI_PORT_ID ==> SamePort(t, s.tree, op.id);
      if op.change.Link? {
        RealmsDisjoint(op.change.nqn);
        assert SameSubsystem(t, s.tree, op.change.nqn);
      }
    }
  }

  lemma CsiAcceptsAlone(s: State, t: Tree, actor: Actor, op: KernelOp)
    requires Shaped(s) && Accepts(s.tree, op) && InScope(actor, op) && !actor.Web?
    requires SameForCsi(t, s.tree) && t.hosts == s.tree.hosts && OwnPorts(t, false)
    ensures Accepts(t, op)
  {
    if op.OnSubsys? {
      assert SameSubsystem(t, s.tree, op.nqn);
      if LinkedAnywhere(t, op.nqn) {
        var id :| id in t.ports && op.nqn in t.ports[id].links;
        assert id == CSI_PORT_ID;
      }
    } else if op.OnPort? && op.change.Link? {
      assert SameSubsystem(t, s.tree, op.change.nqn);
    }
  }

  /** From an empty target on, each side acting alone would have been accepted by the
      kernel all the way, and would have the objects it has now. */
  lemma {:induction false} EitherSideAlone(tr: Trace, web: bool)
    requires Legal(tr) && First(tr) == INITIAL && CleanPasses(tr)
    ensures AcceptedAlone(tr, web)
    ensures Replay(tr, web).hosts == Last(tr).tree.hosts && OwnPorts(Replay(tr, web), web)
  {
    if tr.Then? {
      EitherSideAlone(tr.before, web);
      NonInterference(tr.before);
      ShapedRun(tr.before);
      if tr.act.Kernel? && tr.act.actor.Web? == web {
        if web {
          WebAcceptsAlone(Last(tr.before), Replay(tr.before, web), tr.act.op);
        } else {
          CsiAcceptsAlone(Last(tr.before), Replay(tr.before, web), tr.act.actor, tr.act.op);
        }
      }
    }
  }

  // ---- CSI volumes among themselves ----

  predicate ActsFor(a: Action, w: Nqn) {
    (a.Kernel? || a.WriteTmp? || a.Rename?) && !a.actor.Web? && a.actor.nqn == w
  }

  /** A request on one volume leaves another's subsystem as it was, and can only
      take its port link away, never give it one. */
  lemma OtherVolumeKept(s: State, a: Action, v: Nqn, w: Nqn)
    requires Enabled(s, a) && ActsFor(a, w) && v != w
    ensures SameSubsystem(s.tree, Next(s, a).tree, v)
    ensures Linked(Next(s, a).tree, CSI_PORT_ID, v) ==> Linked(s.tree, CSI_PORT_ID, v)
    ensures Linked(s.tree, CSI_PORT_ID, v) && !Linked(Next(s, a).tree, CSI_PORT_ID, v) ==>
              a.op == OnPort(CSI_PORT_ID, Unlink(v)) && (a.actor.Publishing? || a.actor.LegacyApply?)
  {
  }

  /** What one volume keeps through requests on others. */
  ghost predicate Kept(s: State, s': State, v: Nqn) {
    && SameSubsystem(s.tree, s'.tree, v)
    && Get(s.files, v) == Get(s'.files, v)
    && (Linked(s'.tree, CSI_PORT_ID, v) ==> Linked(s.tree, CSI_PORT_ID, v))
  }

  /** A whole request on one volume, finished or cut off anywhere, keeps every volume
      it does not share a file name with, and the link too unless it exports. */
  lemma {:induction false} OtherVolumeRun(p: Trace, tr: Trace, actor: Actor, v: Nqn)
    requires Legal(tr) && Since(p, tr, actor) && !actor.Web?
    requires v != actor.nqn && (Saves(actor) ==> v != Tmp(actor.nqn))
    ensures Kept(Last(p), Last(tr), v)
    ensures !actor.Publishing? && !actor.LegacyApply? ==>
              Linked(Last(tr).tree, CSI_PORT_ID, v) == Linked(Last(p).tree, CSI_PORT_ID, v)
  {
    if tr != p {
      OtherVolumeRun(p, tr.before, actor, v);
      if HasActor(tr.act) {
        OtherVolumeKept(Last(tr.before), tr.act, v, actor.nqn);
      }
    }
  }

  /** The state file of `v` is in reach of another volume's requests exactly when it
      is that volume's temporary file. */
  lemma OtherRecordKeptIff(v: Nqn, w: Nqn)
    requires IsCsi(w) && v != w
    ensures v != Tmp(w) <==>
            forall s, a :: Enabled(s, a) && ActsFor(a, w) ==>
              (v in Next(s, a).files <==> v in s.files) && (v in s.files ==> Next(s, a).files[v] == s.files[v])
  {
    if v == Tmp(w) {
      var a := WriteTmp(Publishing(w, "", ""), Partial);
      assert Enabled(INITIAL, a) && ActsFor(a, w);
      assert v in Next(INITIAL, a).files && v !in INITIAL.files;
    }
  }
}
