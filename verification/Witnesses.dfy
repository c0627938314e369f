/** Schedules of the daemon's own requests that cross the limits of what is promised.
    Each begins on an empty target; where a phase needs its own failures, the next
    target takes over the state of the last. */
module Witnesses {
  import opened Options
  import opened Nvmet
  import opened Machine
  import opened Fencing
  import opened Targets
  import opened NvmetOps
  import opened Statuses
  import opened Csi
  import opened Handover

  // ---- Runs one after the other ----

  function Joined(tr: Trace, more: Trace): Trace {
    match more
    case Start(_) => tr
    case Then(p, a) => Then(Joined(tr, p), a)
  }

  lemma {:induction false} JoinedRun(tr: Trace, more: Trace, v: Nqn)
    requires Legal(tr) && Legal(more) && First(more) == Last(tr)
    ensures Legal(Joined(tr, more)) && First(Joined(tr, more)) == First(tr) && Last(Joined(tr, more)) == Last(more)
    ensures GenerationOnly(tr) && GenerationOnly(more) ==> GenerationOnly(Joined(tr, more))
    ensures Undisturbed(tr, v) && Undisturbed(more, v) ==> Undisturbed(Joined(tr, more), v)
  {
    if more.Then? {
      JoinedRun(tr, more.before, v);
    }
  }

  lemma {:induction false} SavesNothing(tr: Trace, who: set<Actor>, v: Nqn)
    requires ActedBy(tr, who) && forall a :: a in who ==> !Saves(a)
    ensures Undisturbed(tr, v)
  {
    if tr.Then? {
      SavesNothing(tr.before, who, v);
    }
  }

  lemma {:induction false} NoLegacy(tr: Trace, who: set<Actor>)
    requires ActedBy(tr, who) && forall a :: a in who ==> !IsLegacy(a)
    ensures GenerationOnly(tr)
  {
    if tr.Then? {
      NoLegacy(tr.before, who);
    }
  }

  /** Nothing fails, and these initiators connect as soon as they may. */
  function Welcome(arrive: set<Conn>): nat -> Tick {
    _ => Tick(false, arrive, {})
  }

  /** Just this operation fails, and nobody comes or goes. */
  function OnceAt(n: nat): nat -> Tick {
    i => Tick(i == n, {}, {})
  }

  // ---- A host-only revoke ----

  /** A host-only export with one host, which is connected. */
  method Connected(e: Export, h: Nqn) returns (t: Target)
    requires IsCsi(e.nqn)
    ensures fresh(t) && t.Valid() && t.origin == INITIAL && forall a :: a in t.served ==> !Saves(a)
    ensures t.files == map[] && Exported(t.tree, e) && Acl(t.tree, e.nqn) == {h}
    ensures Conn(CSI_PORT_ID, e.nqn, h) in t.live
  {
    t := new Target(Welcome({Conn(CSI_PORT_ID, e.nqn, h)}), INITIAL);
    var status := HostOnlyApply(t, e);
    status := HostOnlyGrant(t, e.nqn, h);
    var ok := t.Pass();
  }

  /** A revoke of a connected host, of which the sever step fails. */
  method RevokeUnsevered(s: State, e: Export, h: Nqn) returns (t: Target, status: Status)
    requires IsCsi(e.nqn) && s.files == map[] && Exported(s.tree, e) && Acl(s.tree, e.nqn) == {h}
    ensures fresh(t) && t.Valid() && t.origin == s && t.served == {Web(false), LegacyRevoke(e.nqn, h)}
    ensures t.files == map[] && status == Failed && s.live <= t.live
    ensures Acl(t.tree, e.nqn) == {} && Linked(t.tree, CSI_PORT_ID, e.nqn)
    ensures e.nqn in t.tree.subsystems && !t.tree.subsystems[e.nqn].allowAny
  {
    t := new Target(OnceAt(1), s);
    var steps;
    status, steps := HostOnlyRevoke(t, e.nqn, h);
  }

  /** Its host revoked, but still connected. */
  method HalfRevoked(e: Export, h: Nqn) returns (t: Target, ghost tr: Trace, status: Status)
    requires IsCsi(e.nqn)
    ensures fresh(t) && t.Valid() && t.files == map[] && status == Failed
    ensures Legal(tr) && First(tr) == INITIAL && Last(tr) == t.Now() && Undisturbed(tr, e.nqn)
    ensures Acl(t.tree, e.nqn) == {} && Linked(t.tree, CSI_PORT_ID, e.nqn)
    ensures e.nqn in t.tree.subsystems && !t.tree.subsystems[e.nqn].allowAny
    ensures Conn(CSI_PORT_ID, e.nqn, h) in t.live
  {
    var before := Connected(e, h);
    SavesNothing(before.trace, before.served, e.nqn);
    t, status := RevokeUnsevered(State(before.files, before.tree, before.live), e, h);
    SavesNothing(t.trace, t.served, e.nqn);
    JoinedRun(before.trace, t.trace, e.nqn);
    tr := Joined(before.trace, t.trace);
  }

  /** A host-only revoke goes on after its sever step failed, so the next grant lets a
      second host in beside the first one's live controller. */
  method LegacyRevokeIsNoFence(e: Export, h: Nqn, h': Nqn)
    returns (t: Target, ghost tr: Trace, revoked: Status, granted: Status)
    requires IsCsi(e.nqn) && h != h'
    ensures t.Valid() && revoked == Failed && granted != Failed
    ensures Legal(tr) && First(tr) == INITIAL && Last(tr) == t.Now() && Undisturbed(tr, e.nqn)
    ensures Conn(CSI_PORT_ID, e.nqn, h) in t.live && Conn(CSI_PORT_ID, e.nqn, h') in t.live
  {
    var before;
    before, tr, revoked := HalfRevoked(e, h);
    t := new Target(Welcome({Conn(CSI_PORT_ID, e.nqn, h')}), State(before.files, before.tree, before.live));
    granted := HostOnlyGrant(t, e.nqn, h');
    var ok := t.Pass();
    SavesNothing(t.trace, t.served, e.nqn);
    JoinedRun(tr, t.trace, e.nqn);
    tr := Joined(tr, t.trace);
  }

  // ---- Generation requests ----

  /** A volume attached to `h`. */
  method Attached(e: Export, h: Nqn, u: string) returns (t: Target)
    requires IsCsi(e.nqn)
    ensures fresh(t) && t.Valid() && t.origin == INITIAL && forall a :: a in t.served ==> !IsLegacy(a)
    ensures Exported(t.tree, e) && Acl(t.tree, e.nqn) == {h}
    ensures Load(t.files, e.nqn) == Some(Record(Some(Owner(h, u)), {}))
    ensures forall f :: f != e.nqn && f != Tmp(e.nqn) ==> f !in t.files
    ensures t.tree.subsystems.Keys == {e.nqn}
  {
    t := new Target(Welcome({}), INITIAL);
    var status := Publish(t, e, h, u);
    forall f | f != e.nqn && f != Tmp(e.nqn) ensures f !in t.files {
      assert Get(t.files, f) == None;
    }
  }

  /** A publish of `w` whose rename fails. */
  method ClaimUnrenamed(s: State, e: Export, host: Nqn, uid: string) returns (t: Target, status: Status)
    requires IsCsi(e.nqn) && e.nqn !in s.files && e.nqn !in s.tree.subsystems
    ensures fresh(t) && t.Valid() && t.origin == s && forall a :: a in t.served ==> !IsLegacy(a)
    ensures status == Failed && t.tree == s.tree
    ensures Load(t.files, Tmp(e.nqn)) == Some(Record(Some(Owner(host, uid)), {}))
  {
    t := new Target(OnceAt(5), s);
    status := Publish(t, e, host, uid);
  }

  /** The temporary file of `w` is the record of a volume named `w.tmp`: a publish of `w`
      whose rename fails puts its owner there, while another host is granted. */
  method TmpNameBreaksFence(w: Nqn, e: Export, h: Nqn, h': Nqn, u: string, u': string)
    returns (t: Target, ghost tr: Trace, status: Status)
    requires IsCsi(w) && e.nqn == Tmp(w) && h != h'
    ensures t.Valid() && status == Failed
    ensures Legal(tr) && First(tr) == INITIAL && Last(tr) == t.Now() && GenerationOnly(tr)
    ensures !Fenced(t.Now(), e.nqn)
  {
    assert IsCsi(e.nqn) && w != e.nqn && w != Tmp(e.nqn);
    var before := Attached(e, h, u);
    NoLegacy(before.trace, before.served);
    t, status := ClaimUnrenamed(State(before.files, before.tree, before.live), e.(nqn := w), h', u');
    assert h in Acl(t.tree, e.nqn);
    NoLegacy(t.trace, t.served);
    JoinedRun(before.trace, t.trace, e.nqn);
    tr := Joined(before.trace, t.trace);
  }

  /** A detach after a reboot, of which the last sync fails. */
  method ReleaseUnsynced(s: State, v: Nqn, h: Nqn, u: string) returns (t: Target, status: Status)
    requires IsCsi(v) && s.tree == EMPTY_TREE && Owns(s.files, v, h, u)
    ensures fresh(t) && t.Valid() && t.origin == s && t.env == OnceAt(10)
    ensures t.actor == Unpublishing(v, h, u) && t.began == Start(s)
    ensures status == Failed && Load(t.files, v).Some? && Load(t.files, v).value.owner == None
  {
    t := new Target(OnceAt(10), s);
    status := Unpublish(t, v, h, u);
  }

  /** A detach can report a failure and have released the volume all the same: when the
      one operation that fails is the sync after the last rename. */
  method SyncFailsAfterRelease(e: Export, h: Nqn, u: string) returns (t: Target, ghost tr: Trace, status: Status)
    requires IsCsi(e.nqn)
    ensures Legal(tr) && First(tr) == INITIAL && GenerationOnly(tr) && Last(tr) == t.origin
    ensures RecordOf(t.origin, e.nqn).owner == Some(Owner(h, u))
    ensures forall i :: t.env(i).fails <==> i == 10
    ensures t.Valid() && t.actor == Unpublishing(e.nqn, h, u) && t.began == Start(t.origin)
    ensures status == Failed && Load(t.files, e.nqn).Some? && Load(t.files, e.nqn).value.owner == None
  {
    var before := Attached(e, h, u);
    before.Reboot();
    NoLegacy(before.trace, before.served);
    tr := before.trace;
    t, status := ReleaseUnsynced(State(before.files, before.tree, before.live), e.nqn, h, u);
  }
}
