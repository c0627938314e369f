/** The CSI requests of the daemon: publish and unpublish with durable attachment
    generations, delete, and the older host-only requests. Every request runs under
    the daemon's mutate lock, so requests do not interleave; failures, crashes and
    initiators do. */
module Csi {
  import opened Options
  import opened Nvmet
  import opened Machine
  import opened Targets
  import opened NvmetOps
  import opened Statuses

  datatype Export = Export(nqn: Nqn, devicePath: string, uuid: string, traddr: Ip, trsvcid: nat, transport: Transport)

  function CsiPort(e: Export): PortSpec {
    PortSpec(CSI_PORT_ID, e.transport, e.traddr, e.trsvcid, [e.nqn])
  }

  // ---- Durable records ----

  /** A save that starts at this tick gets as far as its rename. */
  predicate RenameWorks(env: nat -> Tick, c: nat) {
    StageWorks(env, c) && !env(c + 3).fails
  }

  predicate StageWorks(env: nat -> Tick, c: nat) {
    !env(c).fails && !env(c + 1).fails && !env(c + 2).fails
  }

  /** The part of a save before its rename: the temporary file, cut and then written. */
  method Stage(t: Target, nqn: Nqn, r: Record) returns (ok: bool)
    requires t.Valid() && Saves(t.actor) && t.actor.nqn == nqn && IsCsi(nqn)
    modifies t`files, t`live, t`clock, t`trace
    ensures t.Valid()
    ensures ok <==> StageWorks(t.env, old(t.clock))
    ensures ok ==> t.clock == old(t.clock) + 3 && Get(t.files, Tmp(nqn)) == Some(Doc(r))
    ensures forall f :: f != Tmp(nqn) ==> Get(t.files, f) == old(Get(t.files, f))
    ensures old(t.Quiet()) ==> ok && t.Quiet()
  {
    ok := t.Pass();
    if ok {
      ok := t.PutTmp(nqn, Partial);
    }
    if ok {
      ok := t.PutTmp(nqn, Doc(r));
    }
  }

  /** `save`: temporary file, then rename, then sync. The record is the new one exactly
      when everything up to the rename worked, and the old one otherwise; a sync that
      fails after the rename is reported as a failure all the same. */
  method Save(t: Target, nqn: Nqn, r: Record) returns (ok: bool)
    requires t.Valid() && Saves(t.actor) && t.actor.nqn == nqn && IsCsi(nqn)
    requires MayCommit(t.Now(), t.actor, r)
    modifies t`files, t`live, t`clock, t`trace
    ensures t.Valid()
    ensures if RenameWorks(t.env, old(t.clock))
            then Load(t.files, nqn) == Some(r) && ok == !t.env(old(t.clock) + 4).fails && t.clock == old(t.clock) + 5
            else Load(t.files, nqn) == old(Load(t.files, nqn)) && !ok
    ensures StageWorks(t.env, old(t.clock)) && !RenameWorks(t.env, old(t.clock)) ==>
              Get(t.files, Tmp(nqn)) == Some(Doc(r))
    ensures forall f :: f != nqn && f != Tmp(nqn) ==> Get(t.files, f) == old(Get(t.files, f))
    ensures old(t.Quiet()) ==> ok && t.Quiet()
  {
    assert nqn != Tmp(nqn);
    ok := Stage(t, nqn, r);
    assert Get(t.files, nqn) == old(Get(t.files, nqn));
    if !ok {
      return;
    }
    ok := t.Commit(nqn, r);
    if ok {
      ok := t.Pass();
    }
  }

  // ---- Export, teardown and grant ----

  /** The export is up: closed, backed by the right device, bound and addressed. */
  ghost predicate Exported(t: Tree, e: Export) {
    && e.nqn in t.subsystems
    && !t.subsystems[e.nqn].allowAny
    && 1 in t.subsystems[e.nqn].namespaces
    && NsMatches(t.subsystems[e.nqn].namespaces[1], e.devicePath, Some(e.uuid))
    && Linked(t, CSI_PORT_ID, e.nqn)
    && AddrMatches(t.ports[CSI_PORT_ID].addr, CsiPort(e))
  }

  function SubsysAt(t: Tree, nqn: Nqn): Subsys {
    if nqn in t.subsystems then t.subsystems[nqn] else NEW_SUBSYS
  }

  /** What an export makes of its subsystem: closed, with namespace 1 on its device. Other
      namespaces and the ACL stay. */
  function ExportedSubsys(t: Tree, e: Export): Subsys {
    var s := SubsysAt(t, e.nqn);
    s.(allowAny := false, namespaces := s.namespaces[1 := Namespace(e.devicePath, Some(e.uuid), true)])
  }

  /** Creates the subsystem closed, leaving an existing ACL alone. */
  method CreateClosed(t: Target, nqn: Nqn) returns (ok: bool)
    requires t.Valid() && Authorized(t.files, t.actor)
    requires InScope(t.actor, OnSubsys(nqn, Create)) && InScope(t.actor, OnSubsys(nqn, AllowAny(false)))
    modifies t`tree, t`live, t`clock, t`trace, t`refusals
    ensures t.Valid() && t.refusals == old(t.refusals)
    ensures old(t.Quiet()) ==> ok && t.Quiet()
    ensures Acl(t.tree, nqn) == old(Acl(t.tree, nqn))
    ensures t.tree == WithSubsys(old(t.tree), nqn, Get(t.tree.subsystems, nqn))
    ensures ok ==> Get(t.tree.subsystems, nqn) == Some(SubsysAt(old(t.tree), nqn).(allowAny := false))
  {
    ok := t.Do(OnSubsys(nqn, Create));
    if ok {
      ok := t.Do(OnSubsys(nqn, AllowAny(false)));
    }
  }

  method EnsureSubsystem(t: Target, e: Export) returns (ok: bool)
    requires t.Valid() && Authorized(t.files, t.actor)
    requires forall op :: ExportOp(e.nqn, op) ==> InScope(t.actor, op)
    modifies t`tree, t`live, t`clock, t`trace, t`refusals
    ensures t.Valid() && t.refusals == old(t.refusals)
    ensures old(t.Quiet()) ==> ok && t.Quiet()
    ensures Acl(t.tree, e.nqn) == old(Acl(t.tree, e.nqn))
    ensures t.tree == WithSubsys(old(t.tree), e.nqn, Get(t.tree.subsystems, e.nqn))
    ensures ok ==> Get(t.tree.subsystems, e.nqn) == Some(ExportedSubsys(old(t.tree), e))
  {
    ok := CreateClosed(t, e.nqn);
    if ok {
      ghost var m := t.tree.subsystems[e.nqn].namespaces;
      ok := ApplyNamespace(t, e.nqn, 1, e.devicePath, Some(e.uuid));
      assert ok ==> 1 in m && t.tree.subsystems[e.nqn].namespaces == m ==> m == m[1 := m[1]];
    }
  }

  /** The links of the shared port that an export leaves: all of them, unless the port
      has to move to another address. */
  function KeptLinks(t: Tree, e: Export): set<Nqn> {
    if AddrMatches(PortAt(t, CSI_PORT_ID).addr, CsiPort(e)) then Links(t, CSI_PORT_ID) else {}
  }

  function CsiPortAfter(t: Tree, e: Export): Port {
    Port(SetAll(PortAt(t, CSI_PORT_ID).addr, AddrFields(CsiPort(e))), KeptLinks(t, e) + {e.nqn})
  }

  /** The port half of an export. */
  method BindExport(t: Target, e: Export) returns (ok: bool)
    requires t.Valid() && Authorized(t.files, t.actor) && e.nqn in t.tree.subsystems
    requires forall op :: ExportOp(e.nqn, op) ==> InScope(t.actor, op)
    modifies t`tree, t`live, t`clock, t`trace, t`refusals
    ensures t.Valid() && t.tree.subsystems == old(t.tree.subsystems)
    ensures KeptLinks(old(t.tree), e) <= Links(t.tree, CSI_PORT_ID)
    ensures ok ==> t.tree.ports == old(t.tree.ports)[CSI_PORT_ID := CsiPortAfter(old(t.tree), e)]
    ensures ok ==> AddrMatches(t.tree.ports[CSI_PORT_ID].addr, CsiPort(e))
    ensures !Blocked(old(t.tree), CsiPort(e), CSI_NQN_PREFIX) ==>
              t.refusals == old(t.refusals) && (old(t.Quiet()) ==> ok)
    ensures old(t.Quiet()) ==> t.Quiet()
  {
    ghost var was := t.tree;
    ok := ApplyPort(t, CsiPort(e), CSI_NQN_PREFIX);
    if ok {
      assert t.tree.ports[CSI_PORT_ID] == CsiPortAfter(was, e);
      assert was.ports == t.tree.ports ==> was.ports == was.ports[CSI_PORT_ID := was.ports[CSI_PORT_ID]];
    }
  }

  /** `csi_apply_checked`. Grants survive it. */
  method CsiApply(t: Target, e: Export) returns (status: Status)
    requires t.Valid() && Authorized(t.files, t.actor)
    requires forall op :: ExportOp(e.nqn, op) ==> InScope(t.actor, op)
    modifies t`tree, t`live, t`clock, t`trace, t`refusals
    ensures t.Valid()
    ensures Acl(t.tree, e.nqn) == old(Acl(t.tree, e.nqn))
    ensures status != Failed ==> Exported(t.tree, e)
    ensures KeptLinks(old(t.tree), e) <= Links(t.tree, CSI_PORT_ID)
    ensures status != Failed ==>
              && t.tree.subsystems == old(t.tree.subsystems)[e.nqn := ExportedSubsys(old(t.tree), e)]
              && t.tree.ports == old(t.tree.ports)[CSI_PORT_ID := CsiPortAfter(old(t.tree), e)]
    ensures !Blocked(old(t.tree), CsiPort(e), CSI_NQN_PREFIX) ==>
              t.refusals == old(t.refusals) && (old(t.Quiet()) ==> status != Failed)
    ensures old(t.Quiet()) ==> t.Quiet()
  {
    var ok := EnsureSubsystem(t, e);
    if ok {
      ok := BindExport(t, e);
    }
    status := if ok then Success else Failed;
  }

  /** Lists a host that is not listed yet. */
  method AddHost(t: Target, nqn: Nqn, host: Nqn) returns (ok: bool)
    requires t.Valid() && Authorized(t.files, t.actor)
    requires forall op :: GrantOp(nqn, host, op) ==> InScope(t.actor, op)
    requires nqn in t.tree.subsystems && Acl(t.tree, nqn) == {}
    modifies t`tree, t`live, t`clock, t`trace, t`refusals
    ensures t.Valid()
    ensures t.tree.ports == old(t.tree.ports)
    ensures t.tree.subsystems ==
              if ok then old(t.tree.subsystems)[nqn := old(t.tree.subsystems)[nqn].(hosts := {host})]
              else old(t.tree.subsystems)
    ensures Calm(t.env) ==> old(t.live) <= t.live
    ensures !old(t.tree.subsystems)[nqn].allowAny ==> t.refusals == old(t.refusals)
    ensures old(t.Quiet()) ==> t.Quiet() && (!old(t.tree.subsystems)[nqn].allowAny ==> ok)
  {
    ok := t.Do(CreateHost(host));
    if ok {
      assert {} + {host} == {host};
      ok := t.Do(OnSubsys(nqn, LinkHost(host)));
    }
  }

  /** `csi_host_grant`: only while no other host is listed. */
  method HostGrant(t: Target, nqn: Nqn, host: Nqn) returns (status: Status)
    requires t.Valid() && Authorized(t.files, t.actor)
    requires forall op :: GrantOp(nqn, host, op) ==> InScope(t.actor, op)
    modifies t`tree, t`live, t`clock, t`trace, t`refusals
    ensures t.Valid()
    ensures t.tree.ports == old(t.tree.ports)
    ensures status != Failed ==>
              && nqn in old(t.tree.subsystems)
              && old(Acl(t.tree, nqn)) <= {host}
              && t.tree.subsystems ==
                   old(t.tree.subsystems)[nqn := old(t.tree.subsystems)[nqn].(hosts := {host})]
    ensures status == Failed ==> t.tree.subsystems == old(t.tree.subsystems)
    ensures Calm(t.env) ==> old(t.live) <= t.live
    ensures nqn in old(t.tree.subsystems) && !old(t.tree.subsystems)[nqn].allowAny ==> t.refusals == old(t.refusals)
    ensures old(t.Quiet()) ==> t.Quiet()
    ensures old(t.Quiet()) && nqn in old(t.tree.subsystems) && !old(t.tree.subsystems)[nqn].allowAny &&
              old(Acl(t.tree, nqn)) <= {host} ==>
              status != Failed
  {
    status := Failed;
    var ok := t.Pass();
    if !ok || nqn !in t.tree.subsystems || !(Acl(t.tree, nqn) <= {host}) {
      return;
    }
    if host in Acl(t.tree, nqn) {
      assert t.tree.subsystems[nqn] == t.tree.subsystems[nqn].(hosts := {host});
      status := Skipped;
      return;
    }
    ok := AddHost(t, nqn, host);
    if ok {
      status := Success;
    }
  }

  /** The ports without the CSI port if nothing is linked there. */
  function Reaped(ports: map<nat, Port>): map<nat, Port> {
    if CSI_PORT_ID in ports && ports[CSI_PORT_ID].links == {} then ports - {CSI_PORT_ID} else ports
  }

  /** The ports with a volume unbound. */
  function Unbound(ports: map<nat, Port>, nqn: Nqn): map<nat, Port> {
    if CSI_PORT_ID in ports
    then ports[CSI_PORT_ID := ports[CSI_PORT_ID].(links := ports[CSI_PORT_ID].links - {nqn})] else ports
  }

  /** Unlinks a volume that is linked, which ends its controllers. */
  method Unbind(t: Target, nqn: Nqn) returns (ok: bool)
    requires t.Valid() && Authorized(t.files, t.actor) && InScope(t.actor, OnPort(CSI_PORT_ID, Unlink(nqn)))
    modifies t`tree, t`live, t`clock, t`trace, t`refusals
    ensures t.Valid() && t.refusals == old(t.refusals) && t.tree.subsystems == old(t.tree.subsystems)
    ensures old(t.Quiet()) ==> ok && t.Quiet()
    ensures ok ==> t.tree.ports == Unbound(old(t.tree.ports), nqn)
    ensures CSI_PORT_ID !in old(t.tree.ports) ==> ok && t.clock == old(t.clock)
  {
    ok := true;
    if Linked(t.tree, CSI_PORT_ID, nqn) {
      ok := t.Do(OnPort(CSI_PORT_ID, Unlink(nqn)));
    } else if CSI_PORT_ID in t.tree.ports {
      assert t.tree.ports[CSI_PORT_ID].links - {nqn} == t.tree.ports[CSI_PORT_ID].links;
      assert t.tree.ports[CSI_PORT_ID := t.tree.ports[CSI_PORT_ID]] == t.tree.ports;
    }
  }

  /** The CSI port goes once nothing is linked there. */
  method ReapCsiPort(t: Target) returns (ok: bool)
    requires t.Valid() && Authorized(t.files, t.actor) && InScope(t.actor, OnPort(CSI_PORT_ID, Close))
    modifies t`tree, t`live, t`clock, t`trace, t`refusals
    ensures t.Valid() && t.refusals == old(t.refusals)
    ensures old(t.Quiet()) ==> ok && t.Quiet()
    ensures t.tree.subsystems == old(t.tree.subsystems)
    ensures ok ==> t.tree.ports == Reaped(old(t.tree.ports))
    ensures Links(t.tree, CSI_PORT_ID) == old(Links(t.tree, CSI_PORT_ID))
    ensures CSI_PORT_ID !in old(t.tree.ports) ==> ok && t.clock == old(t.clock)
  {
    ok := true;
    if CSI_PORT_ID in t.tree.ports && t.tree.ports[CSI_PORT_ID].links == {} {
      ok := t.Do(OnPort(CSI_PORT_ID, Close));
    }
  }

  /** `csi_delete_checked`: unlink first, which severs controllers, then delete, then
      reap the port once nothing is linked. */
  method CsiDelete(t: Target, nqn: Nqn) returns (status: Status)
    requires t.Valid() && Authorized(t.files, t.actor)
    requires forall op :: TeardownOp(nqn, op) ==> InScope(t.actor, op)
    modifies t`tree, t`live, t`clock, t`trace, t`refusals
    ensures t.Valid()
    ensures status != Failed ==>
              && nqn !in t.tree.subsystems && !Linked(t.tree, CSI_PORT_ID, nqn)
              && t.tree.subsystems == old(t.tree.subsystems) - {nqn}
              && t.tree.ports == Reaped(Unbound(old(t.tree.ports), nqn))
    ensures NothingUp(old(t.tree), nqn) ==> status != Failed && t.clock == old(t.clock)
    ensures OnlyOnCsiPort(old(t.tree), nqn) ==>
              t.refusals == old(t.refusals) && (old(t.Quiet()) ==> status != Failed)
    ensures old(t.Quiet()) ==> t.Quiet()
  {
    status := Failed;
    ghost var was := t.tree;
    var unlinked := Unbind(t, nqn);
    if !unlinked {
      return;
    }
    assert OnlyOnCsiPort(was, nqn) ==> !LinkedAnywhere(t.tree, nqn);
    if nqn in t.tree.subsystems {
      var deleted := DeleteSubsystem(t, nqn);
      if !deleted {
        return;
      }
    }
    var reaped := ReapCsiPort(t);
    if reaped {
      status := Success;
    }
  }

  /** There is nothing to tear down, as after a reboot. */
  predicate NothingUp(t: Tree, nqn: Nqn) {
    nqn !in t.subsystems && CSI_PORT_ID !in t.ports
  }

  predicate OnlyOnCsiPort(t: Tree, nqn: Nqn) {
    forall id :: id in t.ports && nqn in t.ports[id].links ==> id == CSI_PORT_ID
  }

  // ---- Publish ----

  /** A publish that starts at this tick gets as far as the rename of its claim. */
  predicate StopsBeforeRename(env: nat -> Tick, c: nat) {
    !env(c).fails && !env(c + 1).fails && StageWorks(env, c + 2) && env(c + 5).fails
  }

  /** The checks of a publish, then the durable claim. */
  method Claim(t: Target, nqn: Nqn, host: Nqn, uid: string) returns (ok: bool)
    requires t.Valid() && IsCsi(nqn) && t.actor == Publishing(nqn, host, uid)
    modifies t`files, t`live, t`clock, t`trace
    ensures t.Valid()
    ensures ok ==> Authorized(t.files, t.actor)
    ensures ok ==> Admits(old(t.Now()), nqn, host, uid)
    ensures !Admits(old(t.Now()), nqn, host, uid) ==> t.files == old(t.files)
    ensures Load(t.files, nqn) == old(Load(t.files, nqn)) ||
            Load(t.files, nqn) == Some(old(Load(t.files, nqn)).value.(owner := Some(Owner(host, uid))))
    ensures forall f :: f != nqn && f != Tmp(nqn) ==> Get(t.files, f) == old(Get(t.files, f))
    ensures Admits(old(t.Now()), nqn, host, uid) && StopsBeforeRename(t.env, old(t.clock)) ==>
              && !ok
              && Get(t.files, Tmp(nqn)) ==
                 Some(Doc(old(Load(t.files, nqn)).value.(owner := Some(Owner(host, uid)))))
    ensures old(t.Quiet()) ==> t.Quiet() && (Admits(old(t.Now()), nqn, host, uid) ==> ok)
  {
    ok := t.Pass();
    var r := Load(t.files, nqn);
    if !ok || r == None || uid in r.value.fenced {
      ok := false;
      return;
    }
    if r.value.owner.Some? && r.value.owner != Some(Owner(host, uid)) {
      ok := false;
      return;
    }
    ok := t.Pass();
    var hosts := Acl(t.tree, nqn);
    if !ok || (r.value.owner == None && nqn in t.tree.subsystems && hosts != {host}) || !(hosts <= {host}) {
      ok := false;
      return;
    }
    ok := Save(t, nqn, r.value.(owner := Some(Owner(host, uid))));
  }

  /** The volume is free for, or already owned by, this generation. */
  predicate Admits(s: State, nqn: Nqn, host: Nqn, uid: string) {
    var r := Load(s.files, nqn);
    r.Some? && IsClaim(s, nqn, host, uid, r.value.(owner := Some(Owner(host, uid))))
  }

  /** The part of a publish after its claim. */
  method OpenExport(t: Target, e: Export, host: Nqn) returns (status: Status)
    requires t.Valid() && Authorized(t.files, t.actor) && Acl(t.tree, e.nqn) <= {host}
    requires forall op :: ExportOp(e.nqn, op) || GrantOp(e.nqn, host, op) ==> InScope(t.actor, op)
    modifies t`tree, t`live, t`clock, t`trace, t`refusals
    ensures t.Valid()
    ensures status != Failed ==>
              && Exported(t.tree, e) && Acl(t.tree, e.nqn) == {host}
              && t.tree.subsystems == old(t.tree.subsystems)[e.nqn := ExportedSubsys(old(t.tree), e).(hosts := {host})]
              && t.tree.ports == old(t.tree.ports)[CSI_PORT_ID := CsiPortAfter(old(t.tree), e)]
    ensures KeptLinks(old(t.tree), e) <= Links(t.tree, CSI_PORT_ID)
    ensures !Blocked(old(t.tree), CsiPort(e), CSI_NQN_PREFIX) && old(t.Quiet()) ==> status != Failed
    ensures !Blocked(old(t.tree), CsiPort(e), CSI_NQN_PREFIX) ==> t.refusals == old(t.refusals)
    ensures old(t.Quiet()) ==> t.Quiet()
  {
    status := CsiApply(t, e);
    if status != Failed {
      status := HostGrant(t, e.nqn, host);
    }
  }

  /** `publish`: a durable claim, then the export, then the grant. */
  method Publish(t: Target, e: Export, host: Nqn, uid: string) returns (status: Status)
    requires t.Valid() && IsCsi(e.nqn)
    modifies t
    ensures t.Valid()
    ensures t.served == old(t.served) + {t.actor} && t.actor == Publishing(e.nqn, host, uid) && t.began == old(t.trace)
    // A generation that is fenced, or not the owner, changes nothing at all.
    ensures !Admits(old(t.Now()), e.nqn, host, uid) ==>
              status == Failed && t.tree == old(t.tree) && t.files == old(t.files)
    ensures status != Failed ==>
              && Exported(t.tree, e)
              && Acl(t.tree, e.nqn) == {host}
              && Load(t.files, e.nqn) == Some(old(Load(t.files, e.nqn)).value.(owner := Some(Owner(host, uid))))
    // Other volumes stay bound unless the shared port moves, which unbinds them all.
    ensures KeptLinks(old(t.tree), e) <= Links(t.tree, CSI_PORT_ID)
    ensures status != Failed ==>
              && t.tree.subsystems == old(t.tree.subsystems)[e.nqn := ExportedSubsys(old(t.tree), e).(hosts := {host})]
              && t.tree.ports == old(t.tree.ports)[CSI_PORT_ID := CsiPortAfter(old(t.tree), e)]
    // Nothing is opened unless the claim is on disk.
    ensures Load(t.files, e.nqn) == old(Load(t.files, e.nqn)) &&
              old(!Authorized(t.files, Publishing(e.nqn, host, uid))) ==>
              t.tree == old(t.tree)
    ensures forall f :: f != e.nqn && f != Tmp(e.nqn) ==> Get(t.files, f) == old(Get(t.files, f))
    // What a claim leaves in the temporary file when its rename fails.
    ensures Admits(old(t.Now()), e.nqn, host, uid) && StopsBeforeRename(t.env, old(t.clock)) ==>
              && t.tree == old(t.tree)
              && Get(t.files, Tmp(e.nqn)) ==
                 Some(Doc(old(Load(t.files, e.nqn)).value.(owner := Some(Owner(host, uid)))))
    ensures old(t.Quiet()) ==> t.Quiet()
    ensures old(t.Quiet()) && Admits(old(t.Now()), e.nqn, host, uid) &&
              !Blocked(old(t.tree), CsiPort(e), CSI_NQN_PREFIX) ==>
              status != Failed
    ensures !Blocked(old(t.tree), CsiPort(e), CSI_NQN_PREFIX) ==> t.refusals == old(t.refusals)
  {
    t.Serve(Publishing(e.nqn, host, uid));
    status := Failed;
    var claimed := Claim(t, e.nqn, host, uid);
    if !claimed {
      return;
    }
    status := OpenExport(t, e, host);
  }

  // ---- Unpublish ----

  /** The detach does not name the owner's generation with another host. */
  predicate Detachable(files: map<string, File>, nqn: Nqn, host: Nqn, uid: string) {
    var r := Load(files, nqn);
    && r.Some?
    && (r.value.owner.Some? && r.value.owner.value.attachment == uid ==> r.value.owner.value.host == host)
  }

  /** The record an unpublish writes first. */
  function Tombstoned(s: State, nqn: Nqn, host: Nqn, uid: string): Record
    requires Load(s.files, nqn).Some?
  {
    var r := Load(s.files, nqn).value;
    Record(if r.owner == None && Acl(s.tree, nqn) == {host} then Some(Owner(host, uid)) else r.owner,
           r.fenced + {uid})
  }

  /** This generation is the owner on record. */
  predicate Owns(files: map<string, File>, nqn: Nqn, host: Nqn, uid: string) {
    Load(files, nqn).Some? && Load(files, nqn).value.owner == Some(Owner(host, uid))
  }

  predicate SaveWorks(env: nat -> Tick, c: nat) {
    RenameWorks(env, c) && !env(c + 4).fails
  }

  /** Reads the record and writes the tombstone. */
  method Fence(t: Target, nqn: Nqn, host: Nqn, uid: string) returns (ok: bool)
    requires t.Valid() && IsCsi(nqn) && t.actor == Unpublishing(nqn, host, uid)
    modifies t`files, t`live, t`clock, t`trace
    ensures t.Valid()
    ensures ok ==> Detachable(old(t.files), nqn, host, uid)
    ensures !Detachable(old(t.files), nqn, host, uid) ==> t.files == old(t.files)
    ensures (Load(t.files, nqn) == old(Load(t.files, nqn)) && !ok) ||
            (old(Load(t.files, nqn)).Some? && Load(t.files, nqn) == Some(Tombstoned(old(t.Now()), nqn, host, uid)))
    ensures forall f :: f != nqn && f != Tmp(nqn) ==> Get(t.files, f) == old(Get(t.files, f))
    ensures old(t.Quiet()) ==> t.Quiet() && (Detachable(old(t.files), nqn, host, uid) ==> ok)
    ensures Owns(old(t.files), nqn, host, uid) && SaveWorks(t.env, old(t.clock) + 1) && !t.env(old(t.clock)).fails ==>
              ok && t.clock == old(t.clock) + 6 && t.tree == old(t.tree)
  {
    ok := t.Pass();
    if !ok || !Detachable(t.files, nqn, host, uid) {
      ok := false;
      return;
    }
    if Load(t.files, nqn).value.owner == None {
      ok := t.Pass();
      if !ok {
        return;
      }
    }
    ok := Save(t, nqn, Tombstoned(State(t.files, t.tree, t.live), nqn, host, uid));
  }

  /** The volume's subsystem and link are gone, and the port if it was the last; nothing
      else changed. */
  predicate TornDown(t: Tree, t': Tree, nqn: Nqn) {
    t'.subsystems == t.subsystems - {nqn} && t'.ports == Reaped(Unbound(t.ports, nqn))
  }

  /** The teardown of a fenced owner, and then its release. */
  method Release(t: Target, nqn: Nqn, host: Nqn, uid: string) returns (status: Status)
    requires t.Valid() && IsCsi(nqn) && t.actor == Unpublishing(nqn, host, uid) && Authorized(t.files, t.actor)
    modifies t`files, t`tree, t`live, t`clock, t`trace, t`refusals
    ensures t.Valid()
    ensures var r := old(Load(t.files, nqn)).value;
            || (Load(t.files, nqn) == Some(r) && status == Failed)
            || (Load(t.files, nqn) == Some(r.(owner := None)) && TornDown(old(t.tree), t.tree, nqn))
    ensures forall f :: f != nqn && f != Tmp(nqn) ==> Get(t.files, f) == old(Get(t.files, f))
    ensures OnlyOnCsiPort(old(t.tree), nqn) ==>
              t.refusals == old(t.refusals) && (old(t.Quiet()) ==> status != Failed)
    ensures NothingUp(old(t.tree), nqn) && RenameWorks(t.env, old(t.clock)) ==>
              && Load(t.files, nqn) == Some(old(Load(t.files, nqn)).value.(owner := None))
              && status == if t.env(old(t.clock) + 4).fails then Failed else Success
    ensures old(t.Quiet()) ==> t.Quiet()
  {
    var r := Load(t.files, nqn).value;
    status := CsiDelete(t, nqn);
    if status == Failed {
      return;
    }
    var released := Save(t, nqn, r.(owner := None));
    status := if released then Success else Failed;
  }

  /** How a detach may end. One that is refused changes nothing; one of a generation that
      does not own the volume touches no export. The record is as before, or tombstoned,
      or released with the export gone; without a failure it is released if this
      generation owned the volume, tombstoned if not. */
  ghost predicate Detached(was: State, now: State, nqn: Nqn, host: Nqn, uid: string, status: Status) {
    if !Detachable(was.files, nqn, host, uid) then
      status == Failed && now.tree == was.tree && now.files == was.files
    else
      var r := Tombstoned(was, nqn, host, uid);
      var owned := r.owner == Some(Owner(host, uid));
      && (!owned ==> now.tree == was.tree)
      && (|| (status == Failed && Load(now.files, nqn) == Load(was.files, nqn))
          || (Load(now.files, nqn) == Some(r) && (status == Failed || !owned))
          || (owned && Load(now.files, nqn) == Some(r.(owner := None)) && TornDown(was.tree, now.tree, nqn)))
  }

  /** A detach with nothing to tear down that starts at this tick: both saves work, but
      perhaps for the sync of the second. */
  predicate OnlySyncMayFail(env: nat -> Tick, c: nat) {
    !env(c).fails && SaveWorks(env, c + 1) && RenameWorks(env, c + 6)
  }

  /** The tombstone, then the teardown, and only then the release. */
  method Detach(t: Target, nqn: Nqn, host: Nqn, uid: string) returns (status: Status)
    requires t.Valid() && IsCsi(nqn) && t.actor == Unpublishing(nqn, host, uid)
    modifies t`files, t`tree, t`live, t`clock, t`trace, t`refusals
    ensures t.Valid()
    ensures Detached(old(t.Now()), t.Now(), nqn, host, uid, status)
    // With nothing to tear down, the last sync alone decides what is reported.
    ensures Owns(old(t.files), nqn, host, uid) && NothingUp(old(t.tree), nqn) &&
            OnlySyncMayFail(t.env, old(t.clock)) ==>
              && Load(t.files, nqn).Some? && Load(t.files, nqn).value.owner == None
              && status == if t.env(old(t.clock) + 10).fails then Failed else Success
    ensures forall f :: f != nqn && f != Tmp(nqn) ==> Get(t.files, f) == old(Get(t.files, f))
    ensures OnlyOnCsiPort(old(t.tree), nqn) ==> t.refusals == old(t.refusals)
    ensures old(t.Quiet()) ==> t.Quiet()
    ensures old(t.Quiet()) && Detachable(old(t.files), nqn, host, uid) && OnlyOnCsiPort(old(t.tree), nqn) ==>
              status != Failed
  {
    status := Failed;
    var fenced := Fence(t, nqn, host, uid);
    if !fenced {
      return;
    }
    var r := Load(t.files, nqn).value;
    if r.owner != Some(Owner(host, uid)) {
      status := Skipped;
      return;
    }
    status := Release(t, nqn, host, uid);
  }

  /** `unpublish`: a durable tombstone, then the teardown, and only then the release.
      A failure leaves the owner on record, unless it is the sync after the release's
      rename that failed; then the export is gone as well. */
  method Unpublish(t: Target, nqn: Nqn, host: Nqn, uid: string) returns (status: Status)
    requires t.Valid() && IsCsi(nqn)
    modifies t
    ensures t.Valid()
    ensures t.served == old(t.served) + {t.actor} && t.actor == Unpublishing(nqn, host, uid) && t.began == old(t.trace)
    ensures Detached(old(t.Now()), t.Now(), nqn, host, uid, status)
    // With nothing to tear down, the last sync alone decides what is reported.
    ensures Owns(old(t.files), nqn, host, uid) && NothingUp(old(t.tree), nqn) &&
            OnlySyncMayFail(t.env, old(t.clock)) ==>
              && Load(t.files, nqn).Some? && Load(t.files, nqn).value.owner == None
              && status == if t.env(old(t.clock) + 10).fails then Failed else Success
    ensures forall f :: f != nqn && f != Tmp(nqn) ==> Get(t.files, f) == old(Get(t.files, f))
    ensures OnlyOnCsiPort(old(t.tree), nqn) ==> t.refusals == old(t.refusals)
    ensures old(t.Quiet()) ==> t.Quiet()
    ensures old(t.Quiet()) && Detachable(old(t.files), nqn, host, uid) && OnlyOnCsiPort(old(t.tree), nqn) ==>
              status != Failed
  {
    t.Serve(Unpublishing(nqn, host, uid));
    status := Detach(t, nqn, host, uid);
  }

  // ---- Delete and the host-only requests ----

  /** `CsiNvmeDelete`: refused while a generation owns the volume. */
  method DeleteExport(t: Target, nqn: Nqn) returns (status: Status)
    requires t.Valid() && IsCsi(nqn)
    modifies t
    ensures t.Valid() && t.files == old(t.files)
    ensures t.served == old(t.served) + {t.actor} && t.actor == Deleting(nqn) && t.began == old(t.trace)
    ensures !Authorized(t.files, Deleting(nqn)) ==> status == Failed && t.tree == old(t.tree)
    ensures status != Failed ==> nqn !in t.tree.subsystems && !Linked(t.tree, CSI_PORT_ID, nqn)
    ensures old(t.Quiet()) && Authorized(t.files, Deleting(nqn)) && OnlyOnCsiPort(old(t.tree), nqn) ==>
              status != Failed
  {
    t.Serve(Deleting(nqn));
    status := Failed;
    var ok := t.Pass();
    var r := Load(t.files, nqn);
    if !ok || r == None || r.value.owner.Some? {
      return;
    }
    status := CsiDelete(t, nqn);
  }

  /** `CsiNvmeApply`: refused once the volume has a record. */
  method HostOnlyApply(t: Target, e: Export) returns (status: Status)
    requires t.Valid() && IsCsi(e.nqn)
    modifies t
    ensures t.Valid() && t.files == old(t.files)
    ensures t.served == old(t.served) + {t.actor} && t.actor == LegacyApply(e.nqn) && t.began == old(t.trace)
    ensures e.nqn in t.files ==> status == Failed && t.tree == old(t.tree)
    ensures status != Failed ==> Exported(t.tree, e)
    ensures Acl(t.tree, e.nqn) == old(Acl(t.tree, e.nqn))
    ensures old(t.Quiet()) ==> t.Quiet()
    ensures old(t.Quiet()) && e.nqn !in t.files && !Blocked(old(t.tree), CsiPort(e), CSI_NQN_PREFIX) ==>
              status != Failed
  {
    t.Serve(LegacyApply(e.nqn));
    if e.nqn in t.files {
      return Failed;
    }
    status := CsiApply(t, e);
  }

  /** `CsiHostGrant`: refused once the volume has a record. */
  method HostOnlyGrant(t: Target, nqn: Nqn, host: Nqn) returns (status: Status)
    requires t.Valid() && IsCsi(nqn)
    modifies t
    ensures t.Valid() && t.files == old(t.files)
    ensures t.served == old(t.served) + {t.actor} && t.actor == LegacyGrant(nqn, host) && t.began == old(t.trace)
    ensures nqn in t.files ==> status == Failed && t.tree == old(t.tree)
    ensures status != Failed ==> Acl(t.tree, nqn) == {host}
    ensures t.tree.ports == old(t.tree.ports)
    ensures Calm(t.env) ==> old(t.live) <= t.live
    ensures old(t.Quiet()) ==> t.Quiet()
    ensures old(t.Quiet()) && nqn !in t.files && nqn in old(t.tree.subsystems) &&
              !old(t.tree.subsystems)[nqn].allowAny && old(Acl(t.tree, nqn)) <= {host} ==>
              status != Failed && t.tree.subsystems ==
                old(t.tree.subsystems)[nqn := old(t.tree.subsystems)[nqn].(hosts := {host})]
  {
    t.Serve(LegacyGrant(nqn, host));
    if nqn in t.files {
      return Failed;
    }
    status := HostGrant(t, nqn, host);
  }

  /** Every controller of the volume on the CSI port belongs to a host that is let in. */
  ghost predicate LiveAreListed(t: Tree, live: set<Conn>, nqn: Nqn) {
    forall c :: c in live && c.port == CSI_PORT_ID && c.nqn == nqn ==>
      nqn in t.subsystems && (t.subsystems[nqn].allowAny || c.host in t.subsystems[nqn].hosts)
  }

  /** A step with nothing to do is skipped. */
  function StepStatus(due: bool, works: bool): Status {
    if !due then Skipped else if works then Success else Failed
  }

  /** Severs the port, which ends every controller of the volume, and opens it again.
      The second step is taken whatever became of the first. */
  method CyclePort(t: Target, nqn: Nqn) returns (severed: Status, relinked: Status)
    requires t.Valid() && Authorized(t.files, t.actor)
    requires InScope(t.actor, OnPort(CSI_PORT_ID, Unlink(nqn))) && InScope(t.actor, OnPort(CSI_PORT_ID, Link(nqn)))
    modifies t`tree, t`live, t`clock, t`trace, t`refusals
    ensures t.Valid() && t.tree.subsystems == old(t.tree.subsystems) && t.tree.ports.Keys == old(t.tree.ports.Keys)
    ensures var linked, c := old(Linked(t.tree, CSI_PORT_ID, nqn)), old(t.clock);
            && severed == StepStatus(linked, !t.env(c).fails)
            && relinked == StepStatus(nqn in t.tree.subsystems && CSI_PORT_ID in t.tree.ports,
                                      !t.env(if linked then c + 1 else c).fails && severed != Failed)
    ensures Linked(t.tree, CSI_PORT_ID, nqn) == (severed == Failed || relinked == Success)
    ensures severed == Success ==> LiveAreListed(t.tree, t.live, nqn)
    ensures Calm(t.env) && severed != Success ==> old(t.live) <= t.live
  {
    severed, relinked := Skipped, Skipped;
    if Linked(t.tree, CSI_PORT_ID, nqn) {
      var ok := t.Do(OnPort(CSI_PORT_ID, Unlink(nqn)));
      severed := if ok then Success else Failed;
    }
    if nqn in t.tree.subsystems && CSI_PORT_ID in t.tree.ports {
      var ok := t.Do(OnPort(CSI_PORT_ID, Link(nqn)));
      relinked := if ok then Success else Failed;
    }
  }

  function WithoutHost(t: Tree, nqn: Nqn, host: Nqn): map<Nqn, Subsys> {
    if nqn in t.subsystems
    then t.subsystems[nqn := t.subsystems[nqn].(hosts := t.subsystems[nqn].hosts - {host})] else t.subsystems
  }

  method RevokeAcl(t: Target, nqn: Nqn, host: Nqn) returns (revoked: Status)
    requires t.Valid() && Authorized(t.files, t.actor) && InScope(t.actor, OnSubsys(nqn, UnlinkHost(host)))
    modifies t`tree, t`live, t`clock, t`trace, t`refusals
    ensures t.Valid() && t.tree.ports == old(t.tree.ports)
    ensures t.tree.subsystems ==
            if revoked == Success then WithoutHost(old(t.tree), nqn, host) else old(t.tree.subsystems)
    ensures Calm(t.env) ==> old(t.live) <= t.live
    ensures var listed := host in old(Acl(t.tree, nqn));
            && revoked == StepStatus(listed, !t.env(old(t.clock)).fails)
            && t.clock == if listed then old(t.clock) + 1 else old(t.clock)
    ensures Acl(t.tree, nqn) == old(Acl(t.tree, nqn)) - if revoked == Failed then {} else {host}
  {
    revoked := Skipped;
    if host in Acl(t.tree, nqn) {
      var ok := t.Do(OnSubsys(nqn, UnlinkHost(host)));
      revoked := if ok then Success else Failed;
    }
  }

  /** `CsiHostRevoke`: three steps, and a failed one does not stop the next. */
  method HostOnlyRevoke(t: Target, nqn: Nqn, host: Nqn) returns (status: Status, steps: seq<Status>)
    requires t.Valid() && IsCsi(nqn)
    modifies t
    ensures t.Valid() && t.files == old(t.files)
    ensures t.served == old(t.served) + {t.actor} && t.actor == LegacyRevoke(nqn, host) && t.began == old(t.trace)
    ensures nqn in t.files ==> status == Failed && steps == [] && t.tree == old(t.tree)
    // Otherwise every step is taken, and how it ends depends on its own operation only,
    // except that a link which was not severed cannot be made again.
    ensures nqn !in t.files ==>
              && |steps| == 3
              && var listed, linked := host in old(Acl(t.tree, nqn)), old(Linked(t.tree, CSI_PORT_ID, nqn));
                 var c0 := old(t.clock);
                 var c1 := if listed then c0 + 1 else c0;
                 var c2 := if linked then c1 + 1 else c1;
                 && steps[0] == StepStatus(listed, !t.env(c0).fails)
                 && steps[1] == StepStatus(linked, !t.env(c1).fails)
                 && steps[2] == StepStatus(nqn in t.tree.subsystems && CSI_PORT_ID in t.tree.ports,
                                           !t.env(c2).fails && steps[1] != Failed)
                 && Acl(t.tree, nqn) == old(Acl(t.tree, nqn)) - (if steps[0] == Failed then {} else {host})
                 && Linked(t.tree, CSI_PORT_ID, nqn) == (steps[1] == Failed || steps[2] == Success)
                 && t.tree.subsystems ==
                    (if steps[0] == Success then WithoutHost(old(t.tree), nqn, host) else old(t.tree.subsystems))
                 && (steps[1] == Success ==> LiveAreListed(t.tree, t.live, nqn))
                 && (steps[1] != Success && Calm(t.env) ==> old(t.live) <= t.live)
                 && status == Fold(Some(Fold(Some(Fold(None, steps[0])), steps[1])), steps[2])
    // When no step failed, the host is cut off.
    ensures status != Failed && old(Linked(t.tree, CSI_PORT_ID, nqn)) &&
            (nqn in t.tree.subsystems ==> !t.tree.subsystems[nqn].allowAny) ==>
              Conn(CSI_PORT_ID, nqn, host) !in t.live
  {
    t.Serve(LegacyRevoke(nqn, host));
    if nqn in t.files {
      return Failed, [];
    }
    var revoked := RevokeAcl(t, nqn, host);
    var severed, relinked := CyclePort(t, nqn);
    steps := [revoked, severed, relinked];
    status := Fold(Some(Fold(Some(Fold(None, revoked)), severed)), relinked);
  }
}
