/** Safety of the attachment protocol over whole runs: for any interleaving of
    requests, failures, crashes, reboots, initiators and reconcile passes, a volume
    is only ever open to the host whose generation is on record. */
module Fencing {
  import opened Options
  import opened Nvmet
  import opened Machine
  import opened Frames

  // ---- Runs ----

  predicate IsLegacy(actor: Actor) {
    actor.LegacyApply? || actor.LegacyGrant? || actor.LegacyRevoke?
  }

  /** The action belongs to a request of the host-only protocol. */
  predicate LegacyAction(a: Action) {
    a.Kernel? && IsLegacy(a.actor)
  }

  /** The action writes the state file of `v` as the temporary file of another volume. */
  predicate Clobbers(a: Action, v: Nqn) {
    (a.WriteTmp? || a.Rename?) && Saves(a.actor) && Tmp(a.actor.nqn) == v
  }

  /** No request in the run used the host-only protocol. */
  predicate GenerationOnly(tr: Trace) {
    match tr
    case Start(_) => true
    case Then(p, a) => GenerationOnly(p) && !LegacyAction(a)
  }

  /** No volume `w` with `w.tmp == v` was saved in the run. */
  predicate Undisturbed(tr: Trace, v: Nqn) {
    match tr
    case Start(_) => true
    case Then(p, a) => Undisturbed(p, v) && !Clobbers(a, v)
  }

  // ---- Shape of the tree in every run ----

  /** CSI subsystems are closed and linked on the CSI port only, the CSI port links
      nothing else, and a controller lives only on an existing link. */
  ghost predicate Shaped(s: State) {
    && Coherent(s.tree)
    && (forall id, n :: id in s.tree.ports && n in s.tree.ports[id].links ==>
          (IsCsi(n) <==> id == CSI_PORT_ID))
    && (forall n :: n in s.tree.subsystems && IsCsi(n) ==> !s.tree.subsystems[n].allowAny)
    && (forall c :: c in s.live ==> Linked(s.tree, c.port, c.nqn))
  }

  lemma ShapedStep(s: State, a: Action)
    requires Shaped(s) && Enabled(s, a)
    ensures Shaped(Next(s, a))
  {
    if a.Kernel? {
      ScopeKeepsRealms(a.actor, a.op);
      ShapedKernelStep(s, a.op);
    }
  }

  /** No actor opens a CSI subsystem to any host, and only CSI links reach the CSI port. */
  lemma ScopeKeepsRealms(actor: Actor, op: KernelOp)
    requires InScope(actor, op)
    ensures op.OnSubsys? && IsCsi(op.nqn) ==> op.edit != AllowAny(true)
    ensures op.OnPort? && op.change.Link? ==> (IsCsi(op.change.nqn) <==> op.id == CSI_PORT_ID)
  {
    if op.OnSubsys? {
      RealmsDisjoint(op.nqn);
    } else if op.OnPort? && op.change.Link? {
      RealmsDisjoint(op.change.nqn);
    }
  }

  lemma ShapedKernelStep(s: State, op: KernelOp)
    requires Shaped(s) && Accepts(s.tree, op)
    requires op.OnSubsys? && IsCsi(op.nqn) ==> op.edit != AllowAny(true)
    requires op.OnPort? && op.change.Link? ==> (IsCsi(op.change.nqn) <==> op.id == CSI_PORT_ID)
    ensures Shaped(s.(tree := Effect(s.tree, op), live := Survivors(s.live, op)))
  {
    AcceptedKeepsCoherent(s.tree, op);
    var live := Survivors(s.live, op);
    forall c | c in live ensures Linked(Effect(s.tree, op), c.port, c.nqn) {
      assert Linked(s.tree, c.port, c.nqn);
    }
  }

  lemma {:induction false} ShapedRun(tr: Trace)
    requires Legal(tr) && First(tr) == INITIAL
    ensures Shaped(Last(tr))
  {
    match tr
    case Start(_) =>
    case Then(p, a) =>
      ShapedRun(p);
      ShapedStep(Last(p), a);
  }

  /** So no pass ever begins with a web link on the CSI port. */
  lemma NoWebLinkOnCsiPort(tr: Trace)
    requires Legal(tr) && First(tr) == INITIAL
    ensures !HasWebLink(Last(tr).tree, CSI_PORT_ID)
  {
    ShapedRun(tr);
    forall n | n in Links(Last(tr).tree, CSI_PORT_ID) ensures !IsWeb(n) {
      RealmsDisjoint(n);
    }
  }

  // ---- The fence ----

  /** While a generation is on record, only its host is granted and only its host
      has controllers; while none is, there is no export. */
  ghost predicate Fenced(s: State, v: Nqn) {
    var r := Load(s.files, v);
    && r.Some?
    && match r.value.owner
       case Some(o) =>
         && Acl(s.tree, v) <= {o.host}
         && (forall c :: c in s.live && c.nqn == v ==> c.host == o.host)
       case None =>
         && v !in s.tree.subsystems
         && !LinkedAnywhere(s.tree, v)
         && (forall c :: c in s.live ==> c.nqn != v)
  }

  /** A request touches only its own volume's subsystem, and links only its own volume. */
  lemma ScopeIsOwnVolume(actor: Actor, op: KernelOp, v: Nqn)
    requires IsCsi(v) && InScope(actor, op)
    ensures op.OnSubsys? && op.nqn == v ==> !actor.Web? && actor.nqn == v
    ensures op.OnPort? && op.change == Link(v) ==> op.id == CSI_PORT_ID && !actor.Web? && actor.nqn == v
  {
    RealmsDisjoint(v);
  }

  lemma FencedKernelStep(s: State, actor: Actor, op: KernelOp, v: Nqn)
    requires IsCsi(v) && Shaped(s) && Fenced(s, v)
    requires Enabled(s, Kernel(actor, op)) && !IsLegacy(actor)
    ensures Fenced(Next(s, Kernel(actor, op)), v)
  {
    ScopeIsOwnVolume(actor, op, v);
    var t := Effect(s.tree, op);
    if LinkedAnywhere(t, v) && !LinkedAnywhere(s.tree, v) {
      assert op == OnPort(CSI_PORT_ID, Link(v));
    }
  }

  lemma FencedRename(s: State, actor: Actor, v: Nqn)
    requires IsCsi(v) && Shaped(s) && Fenced(s, v)
    requires Enabled(s, Rename(actor)) && !Clobbers(Rename(actor), v)
    ensures Fenced(Next(s, Rename(actor)), v)
  {
  }

  lemma FencedEnvironment(s: State, arrive: set<Conn>, leave: set<Conn>, v: Nqn)
    requires IsCsi(v) && Shaped(s) && Fenced(s, v)
    requires Enabled(s, Environment(arrive, leave))
    ensures Fenced(Next(s, Environment(arrive, leave)), v)
  {
  }

  lemma FencedStep(s: State, a: Action, v: Nqn)
    requires IsCsi(v) && Shaped(s) && Fenced(s, v)
    requires Enabled(s, a) && !LegacyAction(a) && !Clobbers(a, v)
    ensures Fenced(Next(s, a), v)
  {
    match a
    case Environment(arrive, leave) => FencedEnvironment(s, arrive, leave, v);
    case Reboot =>
    case Kernel(actor, op) => FencedKernelStep(s, actor, op, v);
    case WriteTmp(actor, f) =>
    case Rename(actor) => FencedRename(s, actor, v);
  }

  /** The fencing theorem. */
  lemma {:induction false} FencingTheorem(tr: Trace, v: Nqn)
    requires Legal(tr) && First(tr) == INITIAL
    requires IsCsi(v) && GenerationOnly(tr) && Undisturbed(tr, v)
    ensures Fenced(Last(tr), v)
  {
    match tr
    case Start(_) =>
    case Then(p, a) =>
      FencingTheorem(p, v);
      ShapedRun(p);
      FencedStep(Last(p), a, v);
  }

  /** No two hosts ever hold live controllers on one volume. */
  lemma OneWriter(tr: Trace, v: Nqn, c: Conn, d: Conn)
    requires Legal(tr) && First(tr) == INITIAL
    requires IsCsi(v) && GenerationOnly(tr) && Undisturbed(tr, v)
    requires c in Last(tr).live && d in Last(tr).live && c.nqn == d.nqn == v
    ensures c.host == d.host
  {
    FencingTheorem(tr, v);
  }

  // ---- Generations over time ----

  /** `tr` continues the run `p`. */
  predicate Continues(p: Trace, tr: Trace) {
    tr == p || (tr.Then? && Continues(p, tr.before))
  }

  lemma {:induction false} ContinuesRun(p: Trace, tr: Trace, v: Nqn)
    requires Continues(p, tr) && Legal(tr)
    requires GenerationOnly(tr) && Undisturbed(tr, v)
    ensures Legal(p) && First(p) == First(tr) && GenerationOnly(p) && Undisturbed(p, v)
  {
    if tr != p {
      ContinuesRun(p, tr.before, v);
    }
  }

  /** The record of an undisturbed volume. */
  function RecordOf(s: State, v: Nqn): Record {
    var r := Load(s.files, v);
    if r.Some? then r.value else NO_RECORD
  }

  /** One action keeps the tombstones, and moves the owner only from none to an
      unfenced generation, or from a fenced generation whose export is gone to none. */
  lemma RecordStep(s: State, a: Action, v: Nqn)
    requires IsCsi(v) && Fenced(s, v)
    requires Enabled(s, a) && !Clobbers(a, v)
    ensures
      var r, r' := RecordOf(s, v), RecordOf(Next(s, a), v);
      && r.fenced <= r'.fenced
      && (r.owner != r'.owner ==>
            || (r.owner == None && r'.owner.value.attachment !in r'.fenced)
            || (r'.owner == None && r.owner.value.attachment in r.fenced))
  {
  }

  /** Tombstones are never dropped, and a fenced generation that does not own the
      volume never owns it again. */
  lemma {:induction false} NoResurrection(p: Trace, tr: Trace, v: Nqn, u: string)
    requires Continues(p, tr) && Legal(tr) && First(tr) == INITIAL
    requires IsCsi(v) && GenerationOnly(tr) && Undisturbed(tr, v)
    requires u in RecordOf(Last(p), v).fenced
    ensures u in RecordOf(Last(tr), v).fenced
    ensures
      var before, after := RecordOf(Last(p), v).owner, RecordOf(Last(tr), v).owner;
      (before == None || before.value.attachment != u) ==>
        (after == None || after.value.attachment != u)
  {
    if tr != p {
      NoResurrection(p, tr.before, v, u);
      FencingTheorem(tr.before, v);
      RecordStep(Last(tr.before), tr.act, v);
    }
  }

  /** A publish of generation `u` touches the tree or claims the record. */
  predicate PublishActs(a: Action, v: Nqn, u: string) {
    (a.Kernel? || a.Rename?) && a.actor.Publishing? && a.actor.nqn == v && a.actor.uid == u
  }

  predicate Silent(p: Trace, tr: Trace, v: Nqn, u: string)
    requires Continues(p, tr)
  {
    tr != p ==> Silent(p, tr.before, v, u) && !PublishActs(tr.act, v, u)
  }

  /** Once a generation is fenced none of its publishes, for whatever host and however
      late, touches the tree or the record again. */
  lemma {:induction false} FencedPublishIsInert(p: Trace, tr: Trace, v: Nqn, u: string)
    requires Continues(p, tr) && Legal(tr) && First(tr) == INITIAL
    requires IsCsi(v) && GenerationOnly(tr) && Undisturbed(tr, v)
    requires u in RecordOf(Last(p), v).fenced
    ensures Silent(p, tr, v, u)
  {
    if tr != p {
      FencedPublishIsInert(p, tr.before, v, u);
      NoResurrection(p, tr.before, v, u);
      FencingTheorem(tr.before, v);
    }
  }

  /** Ownership passes from one generation to another only through a state in which
      the old generation is fenced, nobody owns the volume, and subsystem, link and
      controllers are gone. */
  lemma {:induction false} OrderedTransfer(p: Trace, tr: Trace, v: Nqn) returns (mid: Trace)
    requires Continues(p, tr) && Legal(tr) && First(tr) == INITIAL
    requires IsCsi(v) && GenerationOnly(tr) && Undisturbed(tr, v)
    requires RecordOf(Last(p), v).owner.Some?
    requires RecordOf(Last(tr), v).owner != RecordOf(Last(p), v).owner
    ensures Continues(p, mid) && Continues(mid, tr)
    ensures RecordOf(Last(mid), v).owner == None
    ensures RecordOf(Last(p), v).owner.value.attachment in RecordOf(Last(mid), v).fenced
    ensures v !in Last(mid).tree.subsystems && !LinkedAnywhere(Last(mid).tree, v)
    ensures forall c :: c in Last(mid).live ==> c.nqn != v
  {
    var q := tr.before;
    if RecordOf(Last(q), v).owner != RecordOf(Last(p), v).owner {
      mid := OrderedTransfer(p, q, v);
    } else {
      mid := tr;
      FencingTheorem(q, v);
      RecordStep(Last(q), tr.act, v);
      FencingTheorem(tr, v);
    }
  }

  /** The action is a request of generation `o` on `v`. */
  predicate OfGeneration(a: Action, v: Nqn, o: Owner) {
    && (a.Kernel? || a.WriteTmp? || a.Rename?)
    && (a.actor == Publishing(v, o.host, o.attachment) || a.actor == Unpublishing(v, o.host, o.attachment))
  }

  /** A publish of another volume unlinks `v` to re-address the shared CSI port. */
  predicate Readdresses(a: Action, v: Nqn) {
    a.Kernel? && a.actor.Publishing? && a.actor.nqn != v && a.op == OnPort(CSI_PORT_ID, Unlink(v))
  }

  /** The continuation after `p` holds no request of generation `o`, and no
      re-addressing of the port under `v`. */
  predicate Bystanders(p: Trace, tr: Trace, v: Nqn, o: Owner)
    requires Continues(p, tr)
  {
    tr != p ==>
      Bystanders(p, tr.before, v, o) && !OfGeneration(tr.act, v, o) && !Readdresses(tr.act, v)
  }

  predicate Rebooted(p: Trace, tr: Trace)
    requires Continues(p, tr)
  {
    tr != p && (tr.act.Reboot? || Rebooted(p, tr.before))
  }

  ghost predicate SameExport(s: State, s': State, v: Nqn) {
    SameSubsystem(s.tree, s'.tree, v) && Linked(s.tree, CSI_PORT_ID, v) == Linked(s'.tree, CSI_PORT_ID, v)
  }

  ghost predicate NoExport(s: State, v: Nqn) {
    v !in s.tree.subsystems && !Linked(s.tree, CSI_PORT_ID, v)
  }

  /** However stale, delayed or repeated, and across crashes and reboots, requests of
      other generations leave the current owner on record, and its subsystem and link
      as they are. A reboot takes the export away, and nobody else brings one back. */
  lemma {:induction false} StaleRequestsHarmless(p: Trace, tr: Trace, v: Nqn, o: Owner)
    requires Continues(p, tr) && Legal(tr) && First(tr) == INITIAL
    requires IsCsi(v) && GenerationOnly(tr) && Undisturbed(tr, v)
    requires RecordOf(Last(p), v).owner == Some(o) && Bystanders(p, tr, v, o)
    ensures RecordOf(Last(tr), v).owner == Some(o)
    ensures if Rebooted(p, tr) then NoExport(Last(tr), v) else SameExport(Last(p), Last(tr), v)
  {
    if tr != p {
      StaleRequestsHarmless(p, tr.before, v, o);
      FencingTheorem(tr.before, v);
      StaleStep(Last(tr.before), tr.act, v, o);
    }
  }

  lemma StaleStep(s: State, a: Action, v: Nqn, o: Owner)
    requires IsCsi(v) && Fenced(s, v) && RecordOf(s, v).owner == Some(o)
    requires Enabled(s, a) && !LegacyAction(a) && !Clobbers(a, v)
    requires !OfGeneration(a, v, o) && !Readdresses(a, v)
    ensures RecordOf(Next(s, a), v).owner == Some(o)
    ensures if a.Reboot? then NoExport(Next(s, a), v) else SameExport(s, Next(s, a), v)
  {
    RealmsDisjoint(v);
  }

  // ---- What a detach leaves ----

  /** Since `p` a record without owner was renamed into place for `v`. */
  predicate ReleasedSince(p: Trace, tr: Trace, v: Nqn) {
    tr != p && tr.Then? &&
    (ReleasedSince(p, tr.before, v) ||
     (tr.act.Rename? && Saves(tr.act.actor) && tr.act.actor.nqn == v &&
      var tmp := Get(Last(tr.before).files, Tmp(v));
      tmp.Some? && tmp.value.Doc? && tmp.value.record.owner == None))
  }

  /** At every point of the owner's detach, however it fails: the owner is on record
      until the rename of the release takes effect, and from then on there is no owner
      and no export. */
  lemma {:induction false} ReleaseDecides(p: Trace, tr: Trace, v: Nqn, h: Nqn, u: string)
    requires Legal(tr) && Since(p, tr, Unpublishing(v, h, u))
    requires Load(Last(p).files, v).Some? && RecordOf(Last(p), v).owner == Some(Owner(h, u))
    ensures Load(Last(tr).files, v).Some?
    ensures if ReleasedSince(p, tr, v) then RecordOf(Last(tr), v).owner == None && NoExport(Last(tr), v)
            else RecordOf(Last(tr), v).owner == Some(Owner(h, u))
  {
    if tr != p {
      ReleaseDecides(p, tr.before, v, h, u);
    }
  }
}
