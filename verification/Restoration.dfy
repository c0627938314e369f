/** What the periodic reconcile of exports is for: a volume that is attached comes back
    after a reboot, and whoever owned it before is retired first. */
module Restoration {
  import opened Options
  import opened Nvmet
  import opened Machine
  import opened Fencing
  import opened Targets
  import opened NvmetOps
  import opened Statuses
  import opened Csi
  import opened Handover
  import opened Controllers

  /** The list shows one attachment of the volume, live and attached. */
  ghost predicate SoleAttachment(list: seq<Attachment>, pv: string, hosts: map<string, Nqn>, i: nat) {
    && i < |list| && Mine(list[i], pv) && !list[i].deleting && list[i].attached
    && list[i].uid != "" && HostOf(hosts, list[i].node) != ""
    && forall j :: 0 <= j < |list| && j != i ==> !Mine(list[j], pv)
  }

  lemma {:induction false} OthersSendNothing(
    list: seq<Attachment>, nqn: Nqn, pv: string, owner: Option<Owner>, live: bool, hosts: map<string, Nqn>)
    requires forall j :: 0 <= j < |list| ==> !Mine(list[j], pv)
    ensures RequestsFor(list, nqn, pv, owner, live, hosts) == []
  {
    if list != [] {
      OthersSendNothing(list[..|list| - 1], nqn, pv, owner, live, hosts);
    }
  }

  lemma {:induction false} OneSends(
    list: seq<Attachment>, i: nat, nqn: Nqn, pv: string, owner: Option<Owner>, live: bool, hosts: map<string, Nqn>)
    requires SoleAttachment(list, pv, hosts, i)
    ensures RequestsFor(list, nqn, pv, owner, live, hosts) == RequestFor(list[i], nqn, pv, owner, live, hosts)
  {
    var rest := list[..|list| - 1];
    if i == |list| - 1 {
      OthersSendNothing(rest, nqn, pv, owner, live, hosts);
    } else {
      OneSends(rest, i, nqn, pv, owner, live, hosts);
    }
  }

  /** A pass publishes the one attachment, after retiring any other owner. */
  lemma SoleRequests(nqn: Nqn, pv: string, owner: Option<Owner>, list: seq<Attachment>, hosts: map<string, Nqn>, i: nat)
    requires SoleAttachment(list, pv, hosts, i)
    ensures var pub := Publishing(nqn, HostOf(hosts, list[i].node), list[i].uid);
            AllRequests(nqn, pv, owner, list, hosts) ==
              if owner.Some? && owner.value.attachment != list[i].uid
              then [Unpublishing(nqn, owner.value.host, owner.value.attachment), pub] else [pub]
    ensures AllResolvable(list, pv, owner, OwnerLive(owner, pv, list), hosts)
  {
    OneSends(list, i, nqn, pv, owner, OwnerLive(owner, pv, list), hosts);
  }

  /** A fenced volume that is free, or already owned by this generation, admits it. */
  lemma FencedAdmits(s: State, nqn: Nqn, host: Nqn, uid: string)
    requires Fenced(s, nqn) && uid !in RecordOf(s, nqn).fenced
    requires RecordOf(s, nqn).owner == None || RecordOf(s, nqn).owner == Some(Owner(host, uid))
    ensures Admits(s, nqn, host, uid)
  {
  }

  /** The target serves one request of a pass. */
  method ServeRequest(t: Target, e: Export, req: Actor) returns (status: Status)
    requires t.Valid() && t.origin == INITIAL && IsCsi(e.nqn) && Disciplined(t.served, e.nqn) && t.Quiet()
    requires (req.Publishing? || req.Unpublishing?) && req.nqn == e.nqn
    requires req.Publishing? ==> Admits(t.Now(), e.nqn, req.host, req.uid)
    requires req.Unpublishing? ==> Owns(t.files, e.nqn, req.host, req.uid)
    modifies t
    ensures t.Valid() && t.Quiet() && Disciplined(t.served, e.nqn) && status != Failed
    ensures req.Publishing? ==>
              && Exported(t.tree, e) && Acl(t.tree, e.nqn) == {req.host}
              && Owns(t.files, e.nqn, req.host, req.uid)
    ensures req.Unpublishing? ==>
              && e.nqn !in t.tree.subsystems
              && Load(t.files, e.nqn) == Some(Record(None, old(RecordOf(t.Now(), e.nqn)).fenced + {req.uid}))
  {
    TargetFenced(t, e.nqn);
    ShapedIsFree(t.Now(), e);
    assert Tmp(e.nqn) != e.nqn;
    if req.Publishing? {
      status := Publish(t, e, req.host, req.uid);
    } else {
      status := Unpublish(t, e.nqn, req.host, req.uid);
    }
  }

  /** From any state a disciplined target can be in, rebooted or not: one pass, served by
      a target on which nothing fails, ends with the attached generation on record,
      exported, and its host alone in the ACL. */
  method Restore(t: Target, e: Export, pv: string, list: seq<Attachment>, hosts: map<string, Nqn>, i: nat, reboot: bool)
    returns (sent: seq<Actor>)
    requires t.Valid() && t.origin == INITIAL && IsCsi(e.nqn) && Disciplined(t.served, e.nqn) && t.Quiet()
    requires SoleAttachment(list, pv, hosts, i) && list[i].uid !in RecordOf(t.Now(), e.nqn).fenced
    requires var o := RecordOf(t.Now(), e.nqn).owner;
             o.Some? && o.value.attachment == list[i].uid ==> o.value.host == HostOf(hosts, list[i].node)
    modifies t
    ensures t.Valid() && Exported(t.tree, e)
    ensures var host := HostOf(hosts, list[i].node);
            Owns(t.files, e.nqn, host, list[i].uid) && Acl(t.tree, e.nqn) == {host}
  {
    if reboot {
      t.Reboot();
    }
    TargetFenced(t, e.nqn);
    var owner := Load(t.files, e.nqn).value.owner;
    SoleRequests(e.nqn, pv, owner, list, hosts, i);
    var ok;
    sent, ok := ReconcileVolume(e.nqn, pv, owner, list, hosts, _ => true);
    var host, uid := HostOf(hosts, list[i].node), list[i].uid;
    var status;
    if |sent| == 2 {
      status := ServeRequest(t, e, sent[0]);
      TargetFenced(t, e.nqn);
    }
    FencedAdmits(t.Now(), e.nqn, host, uid);
    status := ServeRequest(t, e, sent[|sent| - 1]);
  }
}
