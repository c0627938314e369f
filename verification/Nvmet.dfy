/** The kernel's nvmet configfs tree: its objects, the file operations the daemon
    issues against them, and the guards under which the kernel refuses them.

    Operations are at the level of the daemon's own helpers: creating a directory
    that exists and removing an entry that is absent both succeed and do nothing
    (crates/greendotctl/src/nvmet.rs:559-601).
 */
module Nvmet {
  import opened Options

  type Nqn = string

  const OUR_NQN_PREFIX: string := "nqn.2026-06.io.greendot:"
  const CSI_NQN_PREFIX: string := "nqn.2026-06.io.greendot.csi:"
  const CSI_PORT_ID: nat := 61000

  predicate IsWeb(nqn: Nqn) {
    OUR_NQN_PREFIX <= nqn
  }

  predicate IsCsi(nqn: Nqn) {
    CSI_NQN_PREFIX <= nqn
  }

  /** The two prefixes diverge at the same byte, so no name belongs to both realms. */
  lemma RealmsDisjoint(nqn: Nqn)
    ensures !(IsWeb(nqn) && IsCsi(nqn))
  {
    assert OUR_NQN_PREFIX[23] == ':' && CSI_NQN_PREFIX[23] == '.';
  }

  datatype Transport = Rdma | Tcp | Loop

  /** An IP address as its numeric value; V4 sorts before V6. */
  datatype Ip = V4(bits: nat) | V6(bits: nat)

  datatype Namespace = Namespace(devicePath: string, uuid: Option<string>, enabled: bool)

  datatype Subsys = Subsys(allowAny: bool, hosts: set<Nqn>, namespaces: map<nat, Namespace>)

  /** The port's `addr_*` attributes; `None` is the value of a fresh port. */
  datatype Addr = Addr(trtype: Option<Transport>, v6: Option<bool>, traddr: Option<Ip>, trsvcid: Option<nat>)

  datatype AddrField = TrType(trtype: Transport) | AdrFam(v6: bool) | TrAddr(ip: Ip) | TrSvcId(service: nat)

  datatype Port = Port(addr: Addr, links: set<Nqn>)

  /** `hosts` holds the host objects ACL links point at. */
  datatype Tree = Tree(subsystems: map<Nqn, Subsys>, ports: map<nat, Port>, hosts: set<Nqn>)

  const EMPTY_TREE := Tree(map[], map[], {})
  const NEW_SUBSYS := Subsys(false, {}, map[])
  const NEW_NAMESPACE := Namespace("", None, false)
  const NEW_PORT := Port(Addr(None, None, None, None), {})

  function SetField(a: Addr, f: AddrField): Addr {
    match f
    case TrType(t) => a.(trtype := Some(t))
    case AdrFam(v6) => a.(v6 := Some(v6))
    case TrAddr(ip) => a.(traddr := Some(ip))
    case TrSvcId(s) => a.(trsvcid := Some(s))
  }

  predicate HasField(a: Addr, f: AddrField) {
    match f
    case TrType(t) => a.trtype == Some(t)
    case AdrFam(v6) => a.v6 == Some(v6)
    case TrAddr(ip) => a.traddr == Some(ip)
    case TrSvcId(s) => a.trsvcid == Some(s)
  }

  function Get<K, V>(m: map<K, V>, k: K): Option<V> {
    if k in m then Some(m[k]) else None
  }

  function Put<K, V>(m: map<K, V>, k: K, v: Option<V>): map<K, V> {
    if v.Some? then m[k := v.value] else m - {k}
  }

  /** The subsystem's ACL; empty when there is no such subsystem. */
  function Acl(t: Tree, nqn: Nqn): set<Nqn> {
    if nqn in t.subsystems then t.subsystems[nqn].hosts else {}
  }

  function Links(t: Tree, id: nat): set<Nqn> {
    if id in t.ports then t.ports[id].links else {}
  }

  predicate Linked(t: Tree, id: nat, nqn: Nqn) {
    nqn in Links(t, id)
  }

  predicate HasWebLink(t: Tree, id: nat) {
    exists n :: n in Links(t, id) && IsWeb(n)
  }

  predicate LinkedAnywhere(t: Tree, nqn: Nqn) {
    exists id :: id in t.ports && nqn in t.ports[id].links
  }

  // ---- Operations ----

  datatype SubsysEdit =
    | Create
    | Remove
    | AllowAny(any: bool)
    | CreateNs(nsid: nat)
    | RemoveNs(nsid: nat)
    | SetDevice(nsid: nat, path: string)
    | SetUuid(nsid: nat, uuid: string)
    | SetEnable(nsid: nat, on: bool)
    | LinkHost(host: Nqn)
    | UnlinkHost(host: Nqn)

  datatype PortEdit =
    | Open
    | Close
    | SetAddr(field: AddrField)
    | Link(nqn: Nqn)
    | Unlink(nqn: Nqn)

  datatype KernelOp =
    | OnSubsys(nqn: Nqn, edit: SubsysEdit)
    | OnPort(id: nat, change: PortEdit)
    | CreateHost(host: Nqn)

  /** The kernel's guard on a subsystem that exists: `device_path` and `device_uuid`
      are read-only while the namespace is enabled, `attr_allow_any_host` cannot be
      set while a host is listed, and no host can be listed while it is set. */
  predicate AcceptsSubsys(s: Subsys, linked: bool, hosts: set<Nqn>, e: SubsysEdit) {
    match e
    case Create => true
    case Remove => !linked && s.hosts == {} && s.namespaces == map[]
    case AllowAny(any) => any ==> s.hosts == {}
    case CreateNs(_) => true
    case RemoveNs(_) => true
    case SetDevice(id, _) => id in s.namespaces && !s.namespaces[id].enabled
    case SetUuid(id, _) => id in s.namespaces && !s.namespaces[id].enabled
    case SetEnable(id, _) => id in s.namespaces
    case LinkHost(h) => h in hosts && !s.allowAny && h !in s.hosts
    case UnlinkHost(_) => true
  }

  /** The kernel's guard on a port that exists: `addr_*` are read-only while a
      subsystem is linked. */
  predicate AcceptsPort(p: Port, subsystems: set<Nqn>, c: PortEdit) {
    match c
    case Open => true
    case Close => p.links == {}
    case SetAddr(_) => p.links == {}
    case Link(n) => n in subsystems && n !in p.links
    case Unlink(_) => true
  }

  /** An operation the kernel does not accept is refused and changes nothing. */
  predicate Accepts(t: Tree, op: KernelOp) {
    match op
    case OnSubsys(n, e) =>
      if n in t.subsystems
      then AcceptsSubsys(t.subsystems[n], LinkedAnywhere(t, n), t.hosts, e)
      else e.Create? || e.Remove? || e.RemoveNs? || e.UnlinkHost?
    case OnPort(id, c) =>
      if id in t.ports
      then AcceptsPort(t.ports[id], t.subsystems.Keys, c)
      else c.Open? || c.Close? || c.Unlink?
    case CreateHost(_) => true
  }

  function SetNs(s: Subsys, nsid: nat, ns: Namespace): Subsys {
    s.(namespaces := s.namespaces[nsid := ns])
  }

  function EditSubsys(s: Subsys, e: SubsysEdit): Option<Subsys> {
    match e
    case Create => Some(s)
    case Remove => None
    case AllowAny(any) => Some(s.(allowAny := any))
    case CreateNs(id) => Some(if id in s.namespaces then s else SetNs(s, id, NEW_NAMESPACE))
    case RemoveNs(id) => Some(s.(namespaces := s.namespaces - {id}))
    case SetDevice(id, path) =>
      Some(if id in s.namespaces then SetNs(s, id, s.namespaces[id].(devicePath := path)) else s)
    case SetUuid(id, uuid) =>
      Some(if id in s.namespaces then SetNs(s, id, s.namespaces[id].(uuid := Some(uuid))) else s)
    case SetEnable(id, on) =>
      Some(if id in s.namespaces then SetNs(s, id, s.namespaces[id].(enabled := on)) else s)
    case LinkHost(h) => Some(s.(hosts := s.hosts + {h}))
    case UnlinkHost(h) => Some(s.(hosts := s.hosts - {h}))
  }

  function EditPort(p: Port, c: PortEdit): Option<Port> {
    match c
    case Open => Some(p)
    case Close => None
    case SetAddr(f) => Some(p.(addr := SetField(p.addr, f)))
    case Link(n) => Some(p.(links := p.links + {n}))
    case Unlink(n) => Some(p.(links := p.links - {n}))
  }

  function NextSubsys(s: Option<Subsys>, e: SubsysEdit): Option<Subsys> {
    if s.Some? then EditSubsys(s.value, e) else if e.Create? then Some(NEW_SUBSYS) else None
  }

  function NextPort(p: Option<Port>, c: PortEdit): Option<Port> {
    if p.Some? then EditPort(p.value, c) else if c.Open? then Some(NEW_PORT) else None
  }

  /** What an accepted operation does to the tree. */
  function Effect(t: Tree, op: KernelOp): Tree {
    match op
    case OnSubsys(n, e) => t.(subsystems := Put(t.subsystems, n, NextSubsys(Get(t.subsystems, n), e)))
    case OnPort(id, c) => t.(ports := Put(t.ports, id, NextPort(Get(t.ports, id), c)))
    case CreateHost(h) => t.(hosts := t.hosts + {h})
  }

  /** What the kernel itself guarantees of any tree: a port links only subsystems
      that exist, and an open subsystem lists no host. */
  ghost predicate Coherent(t: Tree) {
    && (forall id, n :: id in t.ports && n in t.ports[id].links ==> n in t.subsystems)
    && (forall n :: n in t.subsystems && t.subsystems[n].allowAny ==> t.subsystems[n].hosts == {})
  }

  lemma AcceptedKeepsCoherent(t: Tree, op: KernelOp)
    requires Coherent(t) && Accepts(t, op)
    ensures Coherent(Effect(t, op))
  {
  }
}
