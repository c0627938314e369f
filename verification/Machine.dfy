/** The storage target as an action system: the durable attachment records, the
    configfs tree and the live controllers, changed by single file operations of
    the daemon, by initiators and by reboots.

    An action is enabled by what is on disk and in the tree when it happens, not
    by a program counter. A crash therefore needs no action of its own: it is a
    run in which the interrupted request issues nothing more.
 */
module Machine {
  import opened Options
  import opened Nvmet

  datatype Owner = Owner(host: Nqn, attachment: string)

  /** The durable record of one volume (crates/greendotctl/src/csi.rs:14-23). */
  datatype Record = Record(owner: Option<Owner>, fenced: set<string>)

  const NO_RECORD := Record(None, {})

  /** A file of the state directory: `Partial` is one that was truncated or only
      partly written, so it does not parse. */
  datatype File = Partial | Doc(record: Record)

  /** A live controller of `host` on `nqn`, made through `port`. */
  datatype Conn = Conn(port: nat, nqn: Nqn, host: Nqn)

  datatype State = State(files: map<string, File>, tree: Tree, live: set<Conn>)

  const INITIAL := State(map[], EMPTY_TREE, {})

  /** On whose behalf the daemon acts. `Web` is a reconcile pass; its flag says
      that the pass began with a web link on the CSI port. */
  datatype Actor =
    | Publishing(nqn: Nqn, host: Nqn, uid: string)
    | Unpublishing(nqn: Nqn, host: Nqn, uid: string)
    | Deleting(nqn: Nqn)
    | LegacyApply(nqn: Nqn)
    | LegacyGrant(nqn: Nqn, host: Nqn)
    | LegacyRevoke(nqn: Nqn, host: Nqn)
    | Web(csiPort: bool)

  datatype Action =
    | Environment(arrive: set<Conn>, leave: set<Conn>)
    | Reboot
    | Kernel(actor: Actor, op: KernelOp)
    | WriteTmp(actor: Actor, file: File)
    | Rename(actor: Actor)

  /** Where `save` writes before it renames (crates/greendotctl/src/csi.rs:37). */
  function Tmp(nqn: Nqn): string {
    nqn + ".tmp"
  }

  /** `load`: a missing file is the empty record, a partial one an error. */
  function Load(files: map<string, File>, nqn: Nqn): Option<Record> {
    if nqn !in files then Some(NO_RECORD)
    else match files[nqn]
      case Partial => None
      case Doc(r) => Some(r)
  }

  /** The kernel checks the ACL when an initiator connects, and only then. */
  predicate MayConnect(t: Tree, c: Conn) {
    && Linked(t, c.port, c.nqn)
    && c.nqn in t.subsystems
    && (t.subsystems[c.nqn].allowAny || c.host in t.subsystems[c.nqn].hosts)
  }

  /** What must be on disk while a request changes the tree. */
  predicate Authorized(files: map<string, File>, actor: Actor) {
    match actor
    case Publishing(n, h, u) =>
      var r := Load(files, n);
      r.Some? && r.value.owner == Some(Owner(h, u)) && u !in r.value.fenced
    case Unpublishing(n, h, u) =>
      var r := Load(files, n);
      r.Some? && r.value.owner == Some(Owner(h, u)) && u in r.value.fenced
    case Deleting(n) =>
      var r := Load(files, n);
      r.Some? && r.value.owner == None
    case LegacyApply(n) => n !in files
    case LegacyGrant(n, _) => n !in files
    case LegacyRevoke(n, _) => n !in files
    case Web(_) => true
  }

  predicate ExportOp(nqn: Nqn, op: KernelOp) {
    match op
    case OnSubsys(n, e) =>
      n == nqn &&
      (match e
       case Create => true
       case AllowAny(any) => !any
       case CreateNs(id) => id == 1
       case SetDevice(id, _) => id == 1
       case SetUuid(id, _) => id == 1
       case SetEnable(id, _) => id == 1
       case _ => false)
    case OnPort(id, c) =>
      id == CSI_PORT_ID &&
      (match c
       case Open => true
       case SetAddr(_) => true
       case Unlink(n) => IsCsi(n)
       case Link(n) => n == nqn
       case Close => false)
    case CreateHost(_) => false
  }

  predicate GrantOp(nqn: Nqn, host: Nqn, op: KernelOp) {
    op == CreateHost(host) || op == OnSubsys(nqn, LinkHost(host))
  }

  predicate TeardownOp(nqn: Nqn, op: KernelOp) {
    match op
    case OnSubsys(n, e) => n == nqn && (e.RemoveNs? || e.UnlinkHost? || e.Remove?)
    case OnPort(id, c) => id == CSI_PORT_ID && (c == Unlink(nqn) || c == Close)
    case CreateHost(_) => false
  }

  predicate RevokeOp(nqn: Nqn, host: Nqn, op: KernelOp) {
    || op == OnSubsys(nqn, UnlinkHost(host))
    || op == OnPort(CSI_PORT_ID, Unlink(nqn))
    || op == OnPort(CSI_PORT_ID, Link(nqn))
  }

  /** What a reconcile pass may touch: objects under the web prefix, and ports
      other than the CSI one. */
  predicate WebOp(csiPort: bool, op: KernelOp) {
    match op
    case OnSubsys(n, _) => IsWeb(n)
    case OnPort(id, c) =>
      match c {
        case Open => id != CSI_PORT_ID
        case SetAddr(_) => id != CSI_PORT_ID
        case Link(n) => id != CSI_PORT_ID && IsWeb(n)
        case Unlink(n) => IsWeb(n) && (id != CSI_PORT_ID || csiPort)
        case Close => id != CSI_PORT_ID || csiPort
      }
    case CreateHost(_) => true
  }

  predicate InScope(actor: Actor, op: KernelOp) {
    match actor
    case Publishing(n, h, _) => IsCsi(n) && (ExportOp(n, op) || GrantOp(n, h, op))
    case Unpublishing(n, _, _) => IsCsi(n) && TeardownOp(n, op)
    case Deleting(n) => IsCsi(n) && TeardownOp(n, op)
    case LegacyApply(n) => IsCsi(n) && ExportOp(n, op)
    case LegacyGrant(n, h) => IsCsi(n) && GrantOp(n, h, op)
    case LegacyRevoke(n, h) => IsCsi(n) && RevokeOp(n, h, op)
    case Web(b) => WebOp(b, op)
  }

  /** A CSI grant is made only while no other host is listed. */
  predicate SoleGrant(t: Tree, actor: Actor, op: KernelOp) {
    op.OnSubsys? && op.edit.LinkHost? && !actor.Web? ==> Acl(t, op.nqn) <= {op.edit.host}
  }

  predicate Permits(s: State, actor: Actor, op: KernelOp) {
    Authorized(s.files, actor) && InScope(actor, op) && SoleGrant(s.tree, actor, op)
  }

  /** The claim of a publish: its generation is not fenced, no other generation
      owns the volume, and no other host is granted. */
  predicate IsClaim(s: State, n: Nqn, h: Nqn, u: string, r': Record) {
    var r := Load(s.files, n);
    && r.Some?
    && u !in r.value.fenced
    && (r.value.owner == None || r.value.owner == Some(Owner(h, u)))
    && Acl(s.tree, n) <= {h}
    && (r.value.owner == None && n in s.tree.subsystems ==> Acl(s.tree, n) == {h})
    && r' == r.value.(owner := Some(Owner(h, u)))
  }

  /** The tombstone of an unpublish, which adopts a legacy export whose only host
      is the one detaching. */
  predicate IsTombstone(s: State, n: Nqn, h: Nqn, u: string, r': Record) {
    var r := Load(s.files, n);
    && r.Some?
    && (r.value.owner.Some? && r.value.owner.value.attachment == u ==> r.value.owner.value.host == h)
    && r' == Record(
         if r.value.owner == None && Acl(s.tree, n) == {h} then Some(Owner(h, u)) else r.value.owner,
         r.value.fenced + {u})
  }

  /** The release that ends an unpublish: the generation is fenced and its export
      is gone. */
  predicate IsRelease(s: State, n: Nqn, h: Nqn, u: string, r': Record) {
    var r := Load(s.files, n);
    && r.Some?
    && r.value.owner == Some(Owner(h, u))
    && u in r.value.fenced
    && n !in s.tree.subsystems
    && !Linked(s.tree, CSI_PORT_ID, n)
    && r' == r.value.(owner := None)
  }

  predicate MayCommit(s: State, actor: Actor, r': Record) {
    match actor
    case Publishing(n, h, u) => IsClaim(s, n, h, u, r')
    case Unpublishing(n, h, u) => IsTombstone(s, n, h, u, r') || IsRelease(s, n, h, u, r')
    case _ => false
  }

  predicate Saves(actor: Actor) {
    actor.Publishing? || actor.Unpublishing?
  }

  ghost predicate Enabled(s: State, a: Action) {
    match a
    case Environment(arrive, _) => forall c :: c in arrive ==> MayConnect(s.tree, c)
    case Reboot => true
    case Kernel(actor, op) => Permits(s, actor, op) && Accepts(s.tree, op)
    case WriteTmp(actor, _) => Saves(actor) && IsCsi(actor.nqn)
    case Rename(actor) =>
      && Saves(actor)
      && IsCsi(actor.nqn)
      && Tmp(actor.nqn) in s.files
      && s.files[Tmp(actor.nqn)].Doc?
      && MayCommit(s, actor, s.files[Tmp(actor.nqn)].record)
  }

  /** Unlinking a subsystem from a port is the one operation that ends live
      controllers (crates/greendotctl/src/nvmet.rs:391-401). */
  function Survivors(live: set<Conn>, op: KernelOp): set<Conn> {
    if op.OnPort? && op.change.Unlink?
    then set c | c in live && !(c.port == op.id && c.nqn == op.change.nqn)
    else live
  }

  function Next(s: State, a: Action): State {
    match a
    case Environment(arrive, leave) => s.(live := s.live - leave + arrive)
    case Reboot => s.(tree := EMPTY_TREE, live := {})
    case Kernel(_, op) => s.(tree := Effect(s.tree, op), live := Survivors(s.live, op))
    case WriteTmp(actor, f) => if Saves(actor) then s.(files := s.files[Tmp(actor.nqn) := f]) else s
    case Rename(actor) =>
      if Saves(actor) && Tmp(actor.nqn) in s.files
      then s.(files := (s.files - {Tmp(actor.nqn)})[actor.nqn := s.files[Tmp(actor.nqn)]])
      else s
  }

  /** A finite run: a starting state and the actions taken since. */
  datatype Trace = Start(state: State) | Then(before: Trace, act: Action)

  function Last(tr: Trace): State {
    match tr
    case Start(s) => s
    case Then(p, a) => Next(Last(p), a)
  }

  ghost predicate Legal(tr: Trace) {
    match tr
    case Start(_) => true
    case Then(p, a) => Legal(p) && Enabled(Last(p), a)
  }

  function First(tr: Trace): State {
    match tr
    case Start(s) => s
    case Then(p, _) => First(p)
  }

  predicate HasActor(a: Action) {
    a.Kernel? || a.WriteTmp? || a.Rename?
  }

  /** Every daemon action of the run was taken for one of `who`. */
  predicate ActedBy(tr: Trace, who: set<Actor>) {
    match tr
    case Start(_) => true
    case Then(p, a) => ActedBy(p, who) && (HasActor(a) ==> a.actor in who)
  }

  /** `tr` continues `p` with actions for `actor` and the environment's only. */
  predicate Since(p: Trace, tr: Trace, actor: Actor) {
    tr == p ||
    (tr.Then? && Since(p, tr.before, actor) && !tr.act.Reboot? && (HasActor(tr.act) ==> tr.act.actor == actor))
  }

  lemma {:induction false} ActedByMore(tr: Trace, who: set<Actor>, more: set<Actor>)
    requires ActedBy(tr, who) && who <= more
    ensures ActedBy(tr, more)
  {
    if tr.Then? {
      ActedByMore(tr.before, who, more);
    }
  }
}
