/** The configfs edits that reconcile and the CSI requests share. */
module NvmetOps {
  import opened Options
  import opened Nvmet
  import opened Machine
  import opened Sorting
  import opened Targets

  // ---- Namespaces ----

  predicate NsEdit(e: SubsysEdit, nsid: nat) {
    e == CreateNs(nsid) ||
    ((e.SetDevice? || e.SetUuid? || e.SetEnable?) && e.nsid == nsid)
  }

  function WithNs(t: Tree, v: Nqn, nsid: nat, ns: Namespace): Tree
    requires v in t.subsystems
  {
    t.(subsystems := t.subsystems[v := SetNs(t.subsystems[v], nsid, ns)])
  }

  /** An edit of a namespace that exists replaces that namespace and nothing else. */
  lemma NsEffect(t: Tree, v: Nqn, nsid: nat, ns: Namespace, e: SubsysEdit)
    requires v in t.subsystems && NsEdit(e, nsid) && !e.CreateNs?
    ensures
      var t' := WithNs(t, v, nsid, ns);
      var ns' := match e
        case SetDevice(_, path) => ns.(devicePath := path)
        case SetUuid(_, uuid) => ns.(uuid := Some(uuid))
        case SetEnable(_, on) => ns.(enabled := on);
      Effect(t', OnSubsys(v, e)) == WithNs(t, v, nsid, ns')
  {
    var s := SetNs(t.subsystems[v], nsid, ns);
    var ns' := EditSubsys(s, e).value.namespaces[nsid];
    assert s.namespaces[nsid := ns'] == t.subsystems[v].namespaces[nsid := ns'];
  }

  lemma CreateNsEffect(t: Tree, v: Nqn, nsid: nat)
    requires v in t.subsystems
    ensures
      var s := t.subsystems[v];
      Effect(t, OnSubsys(v, CreateNs(nsid))) ==
        WithNs(t, v, nsid, if nsid in s.namespaces then s.namespaces[nsid] else NEW_NAMESPACE)
  {
    var s := t.subsystems[v];
    if nsid in s.namespaces {
      assert s.namespaces[nsid := s.namespaces[nsid]] == s.namespaces;
    }
  }

  predicate NsMatches(ns: Namespace, path: string, uuid: Option<string>) {
    ns.devicePath == path && ns.enabled && (uuid.Some? ==> ns.uuid == uuid)
  }

  /** The uuid a namespace has; a new one is given none here. */
  function UuidAt(m: map<nat, Namespace>, nsid: nat): Option<string> {
    if nsid in m then m[nsid].uuid else None
  }

  /** `apply_namespace`: a namespace that already matches is left alone; otherwise it
      is disabled, rewritten and enabled, in that order. */
  method ApplyNamespace(t: Target, v: Nqn, nsid: nat, path: string, uuid: Option<string>) returns (ok: bool)
    requires t.Valid() && Authorized(t.files, t.actor) && v in t.tree.subsystems
    requires forall e :: NsEdit(e, nsid) ==> InScope(t.actor, OnSubsys(v, e))
    modifies t`tree, t`live, t`clock, t`trace, t`refusals
    ensures t.Valid() && t.refusals == old(t.refusals)
    ensures old(t.Quiet()) ==> ok && t.Quiet()
    ensures v in t.tree.subsystems
    ensures t.tree == old(t.tree) ||
            (nsid in t.tree.subsystems[v].namespaces &&
             t.tree == WithNs(old(t.tree), v, nsid, t.tree.subsystems[v].namespaces[nsid]))
    ensures ok ==> nsid in t.tree.subsystems[v].namespaces &&
                   NsMatches(t.tree.subsystems[v].namespaces[nsid], path, uuid)
    ensures ok && uuid.None? ==>
              t.tree.subsystems[v].namespaces[nsid].uuid == UuidAt(old(t.tree.subsystems)[v].namespaces, nsid)
    // One that matches is never taken down, whatever fails.
    ensures nsid in old(t.tree.subsystems)[v].namespaces &&
            NsMatches(old(t.tree.subsystems)[v].namespaces[nsid], path, uuid) ==>
              t.tree == old(t.tree)
  {
    ghost var was := t.tree;
    CreateNsEffect(was, v, nsid);
    ok := t.Do(OnSubsys(v, CreateNs(nsid)));
    if !ok {
      return;
    }
    var ns := t.tree.subsystems[v].namespaces[nsid];
    if !NsMatches(ns, path, uuid) {
      ok := RewriteNs(t, was, v, nsid, path, uuid);
    }
  }

  method RewriteNs(t: Target, ghost was: Tree, v: Nqn, nsid: nat, path: string, uuid: Option<string>)
    returns (ok: bool)
    requires t.Valid() && Authorized(t.files, t.actor) && v in t.tree.subsystems && v in was.subsystems
    requires forall e :: NsEdit(e, nsid) ==> InScope(t.actor, OnSubsys(v, e))
    requires nsid in t.tree.subsystems[v].namespaces
    requires t.tree == WithNs(was, v, nsid, t.tree.subsystems[v].namespaces[nsid])
    modifies t`tree, t`live, t`clock, t`trace, t`refusals
    ensures t.Valid() && t.refusals == old(t.refusals)
    ensures old(t.Quiet()) ==> ok && t.Quiet()
    ensures v in t.tree.subsystems && nsid in t.tree.subsystems[v].namespaces
    ensures t.tree == WithNs(was, v, nsid, t.tree.subsystems[v].namespaces[nsid])
    ensures ok ==> NsMatches(t.tree.subsystems[v].namespaces[nsid], path, uuid)
    ensures ok && uuid.None? ==>
              t.tree.subsystems[v].namespaces[nsid].uuid == old(t.tree.subsystems[v].namespaces[nsid].uuid)
  {
    ok := DisableNs(t, was, v, nsid);
    if ok {
      ok := WriteNs(t, was, v, nsid, SetDevice(nsid, path));
    }
    if ok && uuid.Some? {
      ok := WriteNs(t, was, v, nsid, SetUuid(nsid, uuid.value));
    }
    if ok {
      ok := WriteNs(t, was, v, nsid, SetEnable(nsid, true));
    }
  }

  /** Device and uuid can only be written while the namespace is off. */
  method DisableNs(t: Target, ghost was: Tree, v: Nqn, nsid: nat) returns (ok: bool)
    requires t.Valid() && Authorized(t.files, t.actor) && v in t.tree.subsystems && v in was.subsystems
    requires forall e :: NsEdit(e, nsid) ==> InScope(t.actor, OnSubsys(v, e))
    requires nsid in t.tree.subsystems[v].namespaces
    requires t.tree == WithNs(was, v, nsid, t.tree.subsystems[v].namespaces[nsid])
    modifies t`tree, t`live, t`clock, t`trace, t`refusals
    ensures t.Valid() && t.refusals == old(t.refusals)
    ensures old(t.Quiet()) ==> ok && t.Quiet()
    ensures v in t.tree.subsystems && nsid in t.tree.subsystems[v].namespaces
    ensures t.tree == WithNs(was, v, nsid, t.tree.subsystems[v].namespaces[nsid])
    ensures ok ==> !t.tree.subsystems[v].namespaces[nsid].enabled
    ensures ok ==> t.tree.subsystems[v].namespaces[nsid].uuid == old(t.tree.subsystems[v].namespaces[nsid].uuid)
  {
    ok := true;
    if t.tree.subsystems[v].namespaces[nsid].enabled {
      ok := WriteNs(t, was, v, nsid, SetEnable(nsid, false));
    }
  }

  /** One attribute of one namespace. */
  method WriteNs(t: Target, ghost was: Tree, v: Nqn, nsid: nat, e: SubsysEdit) returns (ok: bool)
    requires t.Valid() && Authorized(t.files, t.actor) && v in t.tree.subsystems && v in was.subsystems
    requires NsEdit(e, nsid) && !e.CreateNs? && InScope(t.actor, OnSubsys(v, e))
    requires nsid in t.tree.subsystems[v].namespaces
    requires t.tree == WithNs(was, v, nsid, t.tree.subsystems[v].namespaces[nsid])
    requires e.SetEnable? || !t.tree.subsystems[v].namespaces[nsid].enabled
    modifies t`tree, t`live, t`clock, t`trace, t`refusals
    ensures t.Valid() && t.refusals == old(t.refusals)
    ensures old(t.Quiet()) ==> ok && t.Quiet()
    ensures v in t.tree.subsystems && nsid in t.tree.subsystems[v].namespaces
    ensures t.tree == WithNs(was, v, nsid, t.tree.subsystems[v].namespaces[nsid])
    ensures
      var ns := old(t.tree.subsystems[v].namespaces[nsid]);
      var ns' := t.tree.subsystems[v].namespaces[nsid];
      ok ==> match e
        case SetDevice(_, path) => ns' == ns.(devicePath := path)
        case SetUuid(_, uuid) => ns' == ns.(uuid := Some(uuid))
        case SetEnable(_, on) => ns' == ns.(enabled := on)
  {
    NsEffect(was, v, nsid, t.tree.subsystems[v].namespaces[nsid], e);
    ok := t.Do(OnSubsys(v, e));
  }

  // ---- Ports ----

  datatype PortSpec = PortSpec(id: nat, trtype: Transport, traddr: Ip, trsvcid: nat, subsystems: seq<Nqn>)

  /** Loop ports carry only a transport; the others the full address. */
  function AddrFields(p: PortSpec): (r: seq<AddrField>)
    ensures |r| > 0
  {
    if p.trtype == Loop then [TrType(Loop)]
    else [AdrFam(p.traddr.V6?), TrAddr(p.traddr), TrSvcId(p.trsvcid), TrType(p.trtype)]
  }

  predicate AddrMatches(a: Addr, p: PortSpec) {
    forall f :: f in AddrFields(p) ==> HasField(a, f)
  }

  /** The address with these fields written, one after the other. */
  function SetAll(a: Addr, fields: seq<AddrField>): Addr {
    if fields == [] then a else SetField(SetAll(a, fields[..|fields| - 1]), fields[|fields| - 1])
  }

  /** Writing the fields of a port makes the address match, and a match is left as it is. */
  lemma AddrWritten(a: Addr, p: PortSpec)
    ensures AddrMatches(SetAll(a, AddrFields(p)), p)
    ensures AddrMatches(a, p) ==> SetAll(a, AddrFields(p)) == a
  {
    var fs := AddrFields(p);
    if p.trtype == Loop {
      assert fs[..0] == [] && fs[0] in fs;
    } else {
      assert fs[..3][..2] == fs[..2] && fs[..2][..1] == fs[..1] && fs[..1][..0] == [];
      assert SetAll(a, fs[..1]) == SetField(a, fs[0]);
      assert SetAll(a, fs[..2]) == SetField(SetAll(a, fs[..1]), fs[1]);
      assert SetAll(a, fs[..3]) == SetField(SetAll(a, fs[..2]), fs[2]);
      assert fs[0] in fs && fs[1] in fs && fs[2] in fs && fs[3] in fs;
    }
  }

  function PortAt(t: Tree, id: nat): Port {
    if id in t.ports then t.ports[id] else NEW_PORT
  }

  function WithPort(t: Tree, id: nat, p: Port): Tree {
    t.(ports := t.ports[id := p])
  }

  lemma PortEffect(t: Tree, id: nat, p: Port, c: PortEdit)
    requires EditPort(p, c).Some?
    ensures Effect(WithPort(t, id, p), OnPort(id, c)) == WithPort(t, id, EditPort(p, c).value)
  {
  }

  /** What binding a port may do to it; `managed` scopes the links that may go. */
  predicate BindEdit(c: PortEdit, p: PortSpec, managed: string) {
    match c
    case Open => true
    case Close => false
    case SetAddr(_) => true
    case Link(n) => n in p.subsystems
    case Unlink(n) => managed <= n
  }

  /** The port must be re-addressed although a link outside `managed` holds it. */
  predicate Blocked(t: Tree, p: PortSpec, managed: string) {
    && !AddrMatches(PortAt(t, p.id).addr, p)
    && exists n :: n in PortAt(t, p.id).links && !(managed <= n)
  }

  /** Applies an edit that neither removes the port nor is refused. */
  method EditLink(t: Target, ghost was: Tree, id: nat, c: PortEdit) returns (ok: bool)
    requires t.Valid() && Authorized(t.files, t.actor) && InScope(t.actor, OnPort(id, c))
    requires id in t.tree.ports && t.tree == WithPort(was, id, t.tree.ports[id])
    requires c.Unlink? || (c.Link? && c.nqn !in t.tree.ports[id].links)
    modifies t`tree, t`live, t`clock, t`trace, t`refusals
    ensures t.Valid()
    ensures id in t.tree.ports && t.tree == WithPort(was, id, t.tree.ports[id])
    ensures t.tree.ports[id] == if ok then EditPort(old(t.tree.ports[id]), c).value else old(t.tree.ports[id])
    ensures c.Unlink? || c.nqn in was.subsystems ==> t.refusals == old(t.refusals)
    ensures old(t.Quiet()) ==> t.Quiet() && (c.Unlink? || c.nqn in was.subsystems ==> ok)
  {
    PortEffect(was, id, t.tree.ports[id], c);
    ok := t.Do(OnPort(id, c));
  }

  /** Removes the given links of one port, one by one. */
  method DropLinks(t: Target, ghost was: Tree, id: nat, drop: set<Nqn>) returns (ok: bool)
    requires t.Valid() && Authorized(t.files, t.actor)
    requires forall n :: n in drop ==> InScope(t.actor, OnPort(id, Unlink(n)))
    requires id in t.tree.ports && t.tree == WithPort(was, id, t.tree.ports[id])
    modifies t`tree, t`live, t`clock, t`trace, t`refusals
    ensures t.Valid() && t.refusals == old(t.refusals)
    ensures old(t.Quiet()) ==> ok && t.Quiet()
    ensures id in t.tree.ports && t.tree == WithPort(was, id, t.tree.ports[id])
    ensures t.tree.ports[id].addr == old(t.tree.ports[id].addr)
    ensures ok ==> t.tree.ports[id].links == old(t.tree.ports[id].links) - drop
  {
    ok := true;
    var todo := drop;
    ghost var port := t.tree.ports[id];
    while ok && todo != {}
      invariant todo <= drop
      invariant t.Valid() && t.refusals == old(t.refusals)
      invariant old(t.Quiet()) ==> ok && t.Quiet()
      invariant id in t.tree.ports && t.tree == WithPort(was, id, t.tree.ports[id])
      invariant t.tree.ports[id].addr == port.addr
      invariant ok ==> t.tree.ports[id].links == port.links - (drop - todo)
      decreases todo, ok
    {
      var n :| n in todo;
      ok := EditLink(t, was, id, Unlink(n));
      todo := todo - {n};
    }
  }

  /** Writes the address of a port. */
  method WriteAddr(t: Target, ghost was: Tree, p: PortSpec) returns (ok: bool)
    requires t.Valid() && Authorized(t.files, t.actor)
    requires forall f :: InScope(t.actor, OnPort(p.id, SetAddr(f)))
    requires p.id in t.tree.ports && t.tree == WithPort(was, p.id, t.tree.ports[p.id])
    modifies t`tree, t`live, t`clock, t`trace, t`refusals
    ensures t.Valid()
    ensures p.id in t.tree.ports && t.tree == WithPort(was, p.id, t.tree.ports[p.id])
    ensures t.tree.ports[p.id].links == old(t.tree.ports[p.id].links)
    ensures ok ==> t.tree.ports[p.id].addr == SetAll(old(t.tree.ports[p.id].addr), AddrFields(p))
    ensures ok ==> t.tree.ports[p.id].links == {}
    ensures old(t.tree.ports[p.id].links) == {} ==> t.refusals == old(t.refusals)
    ensures old(t.tree.ports[p.id].links) != {} ==> t.tree.ports[p.id] == old(t.tree.ports[p.id])
    ensures old(t.Quiet()) ==> t.Quiet() && (old(t.tree.ports[p.id].links) == {} ==> ok)
  {
    ok := true;
    var fields := AddrFields(p);
    ghost var links := t.tree.ports[p.id].links;
    var i := 0;
    while ok && i < |fields|
      invariant 0 <= i <= |fields|
      invariant t.Valid()
      invariant p.id in t.tree.ports && t.tree == WithPort(was, p.id, t.tree.ports[p.id])
      invariant t.tree.ports[p.id].links == links
      invariant ok ==> t.tree.ports[p.id].addr == SetAll(old(t.tree.ports[p.id].addr), fields[..i])
      invariant ok && i > 0 ==> links == {}
      invariant links != {} ==> t.tree.ports[p.id] == old(t.tree.ports[p.id])
      invariant links == {} ==> t.refusals == old(t.refusals)
      invariant old(t.Quiet()) ==> t.Quiet() && (links == {} ==> ok)
      decreases |fields| - i, ok
    {
      PortEffect(was, p.id, t.tree.ports[p.id], SetAddr(fields[i]));
      ok := t.Do(OnPort(p.id, SetAddr(fields[i])));
      assert fields[..i + 1][..i] == fields[..i];
      i := i + 1;
    }
    assert fields[..|fields|] == fields;
  }

  /** Links one subsystem unless it is linked already. */
  method BindOne(t: Target, ghost was: Tree, id: nat, n: Nqn) returns (ok: bool)
    requires t.Valid() && Authorized(t.files, t.actor) && InScope(t.actor, OnPort(id, Link(n)))
    requires id in t.tree.ports && t.tree == WithPort(was, id, t.tree.ports[id])
    modifies t`tree, t`live, t`clock, t`trace, t`refusals
    ensures t.Valid()
    ensures id in t.tree.ports && t.tree == WithPort(was, id, t.tree.ports[id])
    ensures t.tree.ports[id].addr == old(t.tree.ports[id].addr)
    ensures old(t.tree.ports[id].links) <= t.tree.ports[id].links
    ensures ok ==> t.tree.ports[id].links == old(t.tree.ports[id].links) + {n}
    ensures n in was.subsystems ==> t.refusals == old(t.refusals)
    ensures old(t.Quiet()) ==> t.Quiet() && (n in was.subsystems ==> ok)
  {
    ok := true;
    if n !in t.tree.ports[id].links {
      ok := EditLink(t, was, id, Link(n));
    }
  }

  /** Links the subsystems of a port that are not linked yet. */
  method BindAll(t: Target, ghost was: Tree, p: PortSpec) returns (ok: bool)
    requires t.Valid() && Authorized(t.files, t.actor)
    requires forall n :: n in p.subsystems ==> InScope(t.actor, OnPort(p.id, Link(n)))
    requires p.id in t.tree.ports && t.tree == WithPort(was, p.id, t.tree.ports[p.id])
    modifies t`tree, t`live, t`clock, t`trace, t`refusals
    ensures t.Valid()
    ensures p.id in t.tree.ports && t.tree == WithPort(was, p.id, t.tree.ports[p.id])
    ensures t.tree.ports[p.id].addr == old(t.tree.ports[p.id].addr)
    ensures old(t.tree.ports[p.id].links) <= t.tree.ports[p.id].links
    ensures ok ==> t.tree.ports[p.id].links == old(t.tree.ports[p.id].links) + Members(p.subsystems)
    ensures Members(p.subsystems) <= was.subsystems.Keys ==> t.refusals == old(t.refusals)
    ensures old(t.Quiet()) ==> t.Quiet() && (Members(p.subsystems) <= was.subsystems.Keys ==> ok)
  {
    ok := true;
    ghost var known := Members(p.subsystems) <= was.subsystems.Keys;
    var i := 0;
    while ok && i < |p.subsystems|
      invariant 0 <= i <= |p.subsystems|
      invariant t.Valid()
      invariant p.id in t.tree.ports && t.tree == WithPort(was, p.id, t.tree.ports[p.id])
      invariant t.tree.ports[p.id].addr == old(t.tree.ports[p.id].addr)
      invariant old(t.tree.ports[p.id].links) <= t.tree.ports[p.id].links
      invariant ok ==> t.tree.ports[p.id].links == old(t.tree.ports[p.id].links) + Members(p.subsystems[..i])
      invariant known ==> t.refusals == old(t.refusals)
      invariant old(t.Quiet()) ==> t.Quiet() && (known ==> ok)
      decreases |p.subsystems| - i, ok
    {
      ok := BindOne(t, was, p.id, p.subsystems[i]);
      assert p.subsystems[..i + 1] == p.subsystems[..i] + [p.subsystems[i]];
      i := i + 1;
    }
    assert p.subsystems[..|p.subsystems|] == p.subsystems;
  }

  /** The port without its managed links. */
  function Freed(p: Port, managed: string): Port {
    p.(links := set n | n in p.links && !(managed <= n))
  }

  /** Frees a port of its managed links and rewrites its address. */
  method Readdress(t: Target, ghost was: Tree, p: PortSpec, managed: string) returns (ok: bool)
    requires t.Valid() && Authorized(t.files, t.actor)
    requires forall c :: BindEdit(c, p, managed) ==> InScope(t.actor, OnPort(p.id, c))
    requires p.id in t.tree.ports && t.tree == WithPort(was, p.id, t.tree.ports[p.id])
    modifies t`tree, t`live, t`clock, t`trace, t`refusals
    ensures t.Valid()
    ensures p.id in t.tree.ports && t.tree == WithPort(was, p.id, t.tree.ports[p.id])
    ensures ok ==> t.tree.ports[p.id].addr == SetAll(old(t.tree.ports[p.id].addr), AddrFields(p))
    ensures ok ==> t.tree.ports[p.id].links == {}
    ensures (forall n :: n in old(t.tree.ports[p.id].links) ==> managed <= n) ==>
              t.refusals == old(t.refusals) && (old(t.Quiet()) ==> ok)
    ensures old(t.Quiet()) ==> t.Quiet()
    ensures ok ==> forall n :: n in old(t.tree.ports[p.id].links) ==> managed <= n
    ensures old(t.Quiet()) && !ok ==> t.tree.ports[p.id] == Freed(old(t.tree.ports[p.id]), managed)
  {
    var drop := set n | n in t.tree.ports[p.id].links && managed <= n;
    ghost var freed := Freed(t.tree.ports[p.id], managed);
    assert t.tree.ports[p.id].links - drop == freed.links;
    assert forall n :: n in t.tree.ports[p.id].links && !(managed <= n) ==> n in freed.links;
    ok := DropLinks(t, was, p.id, drop);
    if ok {
      ok := WriteAddr(t, was, p);
    }
  }

  /** `apply_port`: on address drift the managed links go first, since the kernel
      does not re-address a linked port; then the wanted subsystems are bound. */
  method ApplyPort(t: Target, p: PortSpec, managed: string) returns (ok: bool)
    requires t.Valid() && Authorized(t.files, t.actor)
    requires forall c :: BindEdit(c, p, managed) ==> InScope(t.actor, OnPort(p.id, c))
    modifies t`tree, t`live, t`clock, t`trace, t`refusals
    ensures t.Valid()
    ensures t.tree == old(t.tree) ||
            (p.id in t.tree.ports && t.tree == WithPort(old(t.tree), p.id, t.tree.ports[p.id]))
    // A port at the right address keeps its links, whatever fails.
    ensures AddrMatches(PortAt(old(t.tree), p.id).addr, p) ==> old(Links(t.tree, p.id)) <= Links(t.tree, p.id)
    ensures ok ==>
              && p.id in t.tree.ports
              && AddrMatches(t.tree.ports[p.id].addr, p)
              && t.tree.ports[p.id].addr == SetAll(PortAt(old(t.tree), p.id).addr, AddrFields(p))
              && t.tree.ports[p.id].links ==
                   (if AddrMatches(PortAt(old(t.tree), p.id).addr, p) then PortAt(old(t.tree), p.id).links else {})
                   + Members(p.subsystems)
    ensures !Blocked(old(t.tree), p, managed) && Members(p.subsystems) <= old(t.tree).subsystems.Keys ==>
              t.refusals == old(t.refusals) && (old(t.Quiet()) ==> ok)
    ensures old(t.Quiet()) ==> t.Quiet()
    // Where no operation fails, the one that is refused comes after the managed links went.
    ensures ok ==> !Blocked(old(t.tree), p, managed)
    ensures old(t.Quiet()) && !ok && Members(p.subsystems) <= old(t.tree).subsystems.Keys ==>
              t.tree == WithPort(old(t.tree), p.id, Freed(PortAt(old(t.tree), p.id), managed))
  {
    ghost var was := t.tree;
    ok := t.Do(OnPort(p.id, Open));
    if !ok {
      return;
    }
    assert t.tree == WithPort(was, p.id, PortAt(was, p.id));
    AddrWritten(PortAt(was, p.id).addr, p);
    if !AddrMatches(t.tree.ports[p.id].addr, p) {
      ok := Readdress(t, was, p, managed);
    }
    if ok {
      ok := BindAll(t, was, p);
    }
  }

  // ---- Teardown ----

  function WithSubsys(t: Tree, v: Nqn, s: Option<Subsys>): Tree {
    t.(subsystems := Put(t.subsystems, v, s))
  }

  lemma SubsysEffect(t: Tree, v: Nqn, s: Subsys, e: SubsysEdit)
    ensures Effect(WithSubsys(t, v, Some(s)), OnSubsys(v, e)) == WithSubsys(t, v, EditSubsys(s, e))
  {
  }

  predicate DeleteEdit(e: SubsysEdit) {
    e.RemoveNs? || e.UnlinkHost? || e.Remove?
  }

  /** Applies an edit that is never refused. */
  method EditOne(t: Target, ghost was: Tree, v: Nqn, e: SubsysEdit) returns (ok: bool)
    requires t.Valid() && Authorized(t.files, t.actor) && InScope(t.actor, OnSubsys(v, e))
    requires v in t.tree.subsystems && t.tree == WithSubsys(was, v, Some(t.tree.subsystems[v]))
    requires e.RemoveNs? || e.UnlinkHost?
    modifies t`tree, t`live, t`clock, t`trace, t`refusals
    ensures t.Valid() && t.refusals == old(t.refusals)
    ensures old(t.Quiet()) ==> ok && t.Quiet()
    ensures v in t.tree.subsystems && t.tree == WithSubsys(was, v, Some(t.tree.subsystems[v]))
    ensures t.tree.subsystems[v] ==
              if ok then EditSubsys(old(t.tree.subsystems[v]), e).value else old(t.tree.subsystems[v])
  {
    SubsysEffect(was, v, t.tree.subsystems[v], e);
    ok := t.Do(OnSubsys(v, e));
  }

  /** Removes the given namespaces of one subsystem. */
  method DropNamespaces(t: Target, ghost was: Tree, v: Nqn, drop: set<nat>) returns (ok: bool)
    requires t.Valid() && Authorized(t.files, t.actor)
    requires forall id :: id in drop ==> InScope(t.actor, OnSubsys(v, RemoveNs(id)))
    requires v in t.tree.subsystems && t.tree == WithSubsys(was, v, Some(t.tree.subsystems[v]))
    modifies t`tree, t`live, t`clock, t`trace, t`refusals
    ensures t.Valid() && t.refusals == old(t.refusals)
    ensures old(t.Quiet()) ==> ok && t.Quiet()
    ensures v in t.tree.subsystems && t.tree == WithSubsys(was, v, Some(t.tree.subsystems[v]))
    ensures t.tree.subsystems[v] == old(t.tree.subsystems[v]).(namespaces := t.tree.subsystems[v].namespaces)
    ensures ok ==> t.tree.subsystems[v].namespaces == old(t.tree.subsystems[v].namespaces) - drop
  {
    ok := true;
    var todo := drop;
    ghost var s := t.tree.subsystems[v];
    while ok && todo != {}
      invariant todo <= drop
      invariant t.Valid() && t.refusals == old(t.refusals)
      invariant old(t.Quiet()) ==> ok && t.Quiet()
      invariant v in t.tree.subsystems && t.tree == WithSubsys(was, v, Some(t.tree.subsystems[v]))
      invariant t.tree.subsystems[v] == s.(namespaces := t.tree.subsystems[v].namespaces)
      invariant ok ==> t.tree.subsystems[v].namespaces == s.namespaces - (drop - todo)
      decreases todo, ok
    {
      var id :| id in todo;
      ok := EditOne(t, was, v, RemoveNs(id));
      todo := todo - {id};
    }
  }

  /** Removes the given hosts from one ACL. */
  method DropHosts(t: Target, ghost was: Tree, v: Nqn, drop: set<Nqn>) returns (ok: bool)
    requires t.Valid() && Authorized(t.files, t.actor)
    requires forall h :: h in drop ==> InScope(t.actor, OnSubsys(v, UnlinkHost(h)))
    requires v in t.tree.subsystems && t.tree == WithSubsys(was, v, Some(t.tree.subsystems[v]))
    modifies t`tree, t`live, t`clock, t`trace, t`refusals
    ensures t.Valid() && t.refusals == old(t.refusals)
    ensures old(t.Quiet()) ==> ok && t.Quiet()
    ensures v in t.tree.subsystems && t.tree == WithSubsys(was, v, Some(t.tree.subsystems[v]))
    ensures t.tree.subsystems[v] == old(t.tree.subsystems[v]).(hosts := t.tree.subsystems[v].hosts)
    ensures ok ==> t.tree.subsystems[v].hosts == old(t.tree.subsystems[v].hosts) - drop
  {
    ok := true;
    var todo := drop;
    ghost var s := t.tree.subsystems[v];
    while ok && todo != {}
      invariant todo <= drop
      invariant t.Valid() && t.refusals == old(t.refusals)
      invariant old(t.Quiet()) ==> ok && t.Quiet()
      invariant v in t.tree.subsystems && t.tree == WithSubsys(was, v, Some(t.tree.subsystems[v]))
      invariant t.tree.subsystems[v] == s.(hosts := t.tree.subsystems[v].hosts)
      invariant ok ==> t.tree.subsystems[v].hosts == s.hosts - (drop - todo)
      decreases todo, ok
    {
      var h :| h in todo;
      ok := EditOne(t, was, v, UnlinkHost(h));
      todo := todo - {h};
    }
  }

  /** `delete_subsystem`: namespaces, then hosts, then the subsystem itself. */
  method DeleteSubsystem(t: Target, v: Nqn) returns (ok: bool)
    requires t.Valid() && Authorized(t.files, t.actor) && v in t.tree.subsystems
    requires forall e :: DeleteEdit(e) ==> InScope(t.actor, OnSubsys(v, e))
    modifies t`tree, t`live, t`clock, t`trace, t`refusals
    ensures t.Valid()
    ensures t.tree == WithSubsys(old(t.tree), v, Get(t.tree.subsystems, v))
    ensures ok ==> v !in t.tree.subsystems && !LinkedAnywhere(old(t.tree), v)
    ensures !LinkedAnywhere(old(t.tree), v) ==> t.refusals == old(t.refusals) && (old(t.Quiet()) ==> ok)
    ensures old(t.Quiet()) ==> t.Quiet()
  {
    ghost var was := t.tree;
    assert t.tree == WithSubsys(was, v, Some(t.tree.subsystems[v]));
    ok := DropNamespaces(t, was, v, t.tree.subsystems[v].namespaces.Keys);
    if ok {
      ok := DropHosts(t, was, v, t.tree.subsystems[v].hosts);
    }
    if ok {
      SubsysEffect(was, v, t.tree.subsystems[v], Remove);
      ok := t.Do(OnSubsys(v, Remove));
    }
  }
}
