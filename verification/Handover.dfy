/** The protocol seen from its callers: the fence holds on every target that has
    served only generation requests, and it never gets stuck. */
module Handover {
  import opened Options
  import opened Nvmet
  import opened Machine
  import opened Frames
  import opened Fencing
  import opened Interference
  import opened Targets
  import opened NvmetOps
  import opened Statuses
  import opened Csi

  /** Only generation requests and reconcile passes, none of which saves a volume
      whose temporary file is the record of `v`. */
  ghost predicate Disciplined(who: set<Actor>, v: Nqn) {
    forall a :: a in who ==> !IsLegacy(a) && (Saves(a) ==> Tmp(a.nqn) != v)
  }

  lemma {:induction false} DisciplinedRun(tr: Trace, who: set<Actor>, v: Nqn)
    requires ActedBy(tr, who) && Disciplined(who, v)
    ensures GenerationOnly(tr) && Undisturbed(tr, v)
  {
    if tr.Then? {
      DisciplinedRun(tr.before, who, v);
    }
  }

  /** Whatever was called, in whatever order, and however it failed. */
  lemma TargetFenced(t: Target, v: Nqn)
    requires t.Valid() && t.origin == INITIAL && IsCsi(v) && Disciplined(t.served, v)
    ensures Fenced(t.Now(), v) && Shaped(t.Now())
  {
    DisciplinedRun(t.trace, t.served, v);
    FencingTheorem(t.trace, v);
    ShapedRun(t.trace);
  }

  /** Since the request under way began, however far it got: web objects and foreign
      ports are untouched, and so are subsystem and record of every other volume it
      shares no file name with; of another volume's link it can only drop it. */
  lemma RequestFrame(t: Target, v: Nqn)
    requires t.Valid() && !t.actor.Web? && v != t.actor.nqn && (Saves(t.actor) ==> v != Tmp(t.actor.nqn))
    ensures SameForWeb(Last(t.began).tree, t.tree) && Kept(Last(t.began), t.Now(), v)
  {
    RequestSpares(t.began, t.trace, t.actor);
    OtherVolumeRun(t.began, t.trace, t.actor, v);
  }

  /** On the CSI port nothing but CSI links can hold an address, and a volume is
      linked nowhere else. */
  lemma ShapedIsFree(s: State, e: Export)
    requires Shaped(s) && IsCsi(e.nqn)
    ensures !Blocked(s.tree, CsiPort(e), CSI_NQN_PREFIX) && OnlyOnCsiPort(s.tree, e.nqn)
  {
    var p := PortAt(s.tree, CSI_PORT_ID);
    forall n | n in p.links ensures CSI_NQN_PREFIX <= n {
      assert IsCsi(n);
    }
  }

  /** From any state the target can be in, detaching the owner and attaching a new
      generation succeeds once operations stop failing. */
  method HandOver(t: Target, e: Export, host: Nqn, uid: string) returns (status: Status)
    requires t.Valid() && t.origin == INITIAL && IsCsi(e.nqn) && Disciplined(t.served, e.nqn)
    requires t.Quiet() && uid !in RecordOf(t.Now(), e.nqn).fenced
    requires var o := RecordOf(t.Now(), e.nqn).owner; o.Some? ==> o.value.attachment != uid
    modifies t
    ensures t.Valid() && status != Failed
    ensures Exported(t.tree, e) && Acl(t.tree, e.nqn) == {host}
    ensures RecordOf(t.Now(), e.nqn).owner == Some(Owner(host, uid))
    ensures var o := old(RecordOf(t.Now(), e.nqn).owner);
            o.Some? ==> o.value.attachment in RecordOf(t.Now(), e.nqn).fenced
    ensures t.refusals == old(t.refusals)
  {
    TargetFenced(t, e.nqn);
    ShapedIsFree(t.Now(), e);
    var r := Load(t.files, e.nqn).value;
    if r.owner.Some? {
      status := Unpublish(t, e.nqn, r.owner.value.host, r.owner.value.attachment);
      assert Load(t.files, e.nqn) == Some(Record(None, r.fenced + {r.owner.value.attachment}));
    }
    ShapedRun(t.trace);
    ShapedIsFree(t.Now(), e);
    status := Publish(t, e, host, uid);
  }
}
