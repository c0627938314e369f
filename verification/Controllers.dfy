/** The Kubernetes side of the attachment protocol: which generation a controller
    may put into a request, given the lists it has read. */
module Controllers {
  import opened Options
  import opened Nvmet
  import opened Machine

  /** A VolumeAttachment: `ours` is that its attacher is this driver, `deleting` that
      its deletion timestamp is set. */
  datatype Attachment =
    Attachment(uid: string, ours: bool, pv: Option<string>, node: string, deleting: bool, attached: bool)

  datatype Result<T> = Ok(value: T) | Err

  /** The node's host NQN from its CSINode object; "" when it cannot be resolved. */
  function HostOf(hosts: map<string, Nqn>, node: string): Nqn {
    if node in hosts then hosts[node] else ""
  }

  // ---- attachmentID ----

  /** The attachment is of this driver and in the state the request is about. */
  predicate Candidate(a: Attachment, publishing: bool) {
    a.ours && a.pv.Some? && a.deleting != publishing
  }

  predicate ForVolume(a: Attachment, handles: map<string, string>, volume: string) {
    a.pv.Some? && a.pv.value in handles && handles[a.pv.value] == volume
  }

  /** Looking at the attachment fails: its volume cannot be read, or the host of an
      attachment of this volume cannot be resolved. */
  predicate Unreadable(
    a: Attachment, handles: map<string, string>, hosts: map<string, Nqn>, volume: string, publishing: bool)
  {
    && Candidate(a, publishing)
    && (a.pv.value !in handles || (ForVolume(a, handles, volume) && HostOf(hosts, a.node) == ""))
  }

  predicate Matches(
    a: Attachment, handles: map<string, string>, hosts: map<string, Nqn>, volume: string, host: Nqn, publishing: bool)
  {
    && Candidate(a, publishing)
    && ForVolume(a, handles, volume)
    && HostOf(hosts, a.node) == host
  }

  /** `attachmentID`: the generation for a volume and a host is the one attachment
      that matches. Two matches, a match without UID, or none while publishing are
      errors; a detach without match needs no generation. */
  method AttachmentId(list: seq<Attachment>, handles: map<string, string>, hosts: map<string, Nqn>,
                      volume: string, host: Nqn, publishing: bool)
    returns (r: Result<string>)
    ensures r.Ok? && r.value != "" ==>
              exists i :: 0 <= i < |list| && list[i].uid == r.value &&
                Matches(list[i], handles, hosts, volume, host, publishing) &&
                forall j :: 0 <= j < |list| && j != i ==> !Matches(list[j], handles, hosts, volume, host, publishing)
    ensures r.Ok? && r.value == "" ==>
              !publishing && forall i :: 0 <= i < |list| ==> !Matches(list[i], handles, hosts, volume, host, publishing)
    ensures r.Ok? ==> forall i :: 0 <= i < |list| ==> !Unreadable(list[i], handles, hosts, volume, publishing)
    ensures r.Err? ==>
              || (exists i :: 0 <= i < |list| && Unreadable(list[i], handles, hosts, volume, publishing))
              || (exists i :: 0 <= i < |list| && list[i].uid == "" &&
                    Matches(list[i], handles, hosts, volume, host, publishing))
              || (exists i, j :: 0 <= i < j < |list| &&
                    Matches(list[i], handles, hosts, volume, host, publishing) &&
                    Matches(list[j], handles, hosts, volume, host, publishing))
              || (publishing &&
                  forall i :: 0 <= i < |list| ==> !Matches(list[i], handles, hosts, volume, host, publishing))
  {
    var found := "";
    ghost var at := 0;
    for k := 0 to |list|
      invariant found == "" ==> forall i :: 0 <= i < k ==> !Matches(list[i], handles, hosts, volume, host, publishing)
      invariant found != "" ==>
                  && 0 <= at < k && list[at].uid == found
                  && Matches(list[at], handles, hosts, volume, host, publishing)
                  && forall j :: 0 <= j < k && j != at ==> !Matches(list[j], handles, hosts, volume, host, publishing)
      invariant forall i :: 0 <= i < k ==> !Unreadable(list[i], handles, hosts, volume, publishing)
    {
      var a := list[k];
      if !a.ours || a.pv == None || publishing == a.deleting {
        continue;
      }
      if a.pv.value !in handles {
        return Err;
      }
      if handles[a.pv.value] != volume {
        continue;
      }
      var nodeHost := HostOf(hosts, a.node);
      if nodeHost == "" {
        return Err;
      }
      if nodeHost != host {
        continue;
      }
      if a.uid == "" || found != "" {
        return Err;
      }
      found := a.uid;
      at := k;
    }
    if found == "" && publishing {
      return Err;
    }
    return Ok(found);
  }

  // ---- reconcileVolume ----

  predicate Mine(a: Attachment, pv: string) {
    a.ours && a.pv == Some(pv)
  }

  /** The list shows the owner's attachment, not being deleted. */
  predicate OwnerLive(owner: Option<Owner>, pv: string, list: seq<Attachment>) {
    owner.Some? &&
    exists i :: 0 <= i < |list| && Mine(list[i], pv) && !list[i].deleting && list[i].uid == owner.value.attachment
  }

  /** The attachment has this UID, and its node this host. */
  predicate Names(a: Attachment, hosts: map<string, Nqn>, host: Nqn, uid: string) {
    a.uid == uid && HostOf(hosts, a.node) == host
  }

  /** What one reconcile of volume `nqn` may ask of the target, given the owner it
      read first and the list it read afterwards. */
  predicate Justified(
    req: Actor, nqn: Nqn, owner: Option<Owner>, pv: string, list: seq<Attachment>, hosts: map<string, Nqn>)
  {
    match req
    case Unpublishing(n, h, u) =>
      n == nqn &&
      (|| (owner == Some(Owner(h, u)) && !OwnerLive(owner, pv, list))
       || exists i :: 0 <= i < |list| && Mine(list[i], pv) && list[i].deleting && Names(list[i], hosts, h, u))
    case Publishing(n, h, u) =>
      n == nqn &&
      exists i :: 0 <= i < |list| && Mine(list[i], pv) && !list[i].deleting && list[i].attached &&
        Names(list[i], hosts, h, u)
    case _ => false
  }

  /** What a reconcile that reports success has asked for on account of one attachment. */
  predicate Attended(
    a: Attachment, nqn: Nqn, owner: Option<Owner>, live: bool, hosts: map<string, Nqn>, sent: seq<Actor>)
  {
    var h := HostOf(hosts, a.node);
    if owner.Some? && a.uid == owner.value.attachment && !live then true
    else if a.deleting then Unpublishing(nqn, h, a.uid) in sent
    else a.attached ==> Publishing(nqn, h, a.uid) in sent
  }

  /** The attachment is that of an owner just retired. */
  predicate Retired(a: Attachment, owner: Option<Owner>, live: bool) {
    owner.Some? && a.uid == owner.value.attachment && !live
  }

  /** What a pass sends on account of one attachment. */
  function RequestFor(
    a: Attachment, nqn: Nqn, pv: string, owner: Option<Owner>, live: bool, hosts: map<string, Nqn>): seq<Actor>
  {
    if !Mine(a, pv) || Retired(a, owner, live) then []
    else if a.deleting then [Unpublishing(nqn, HostOf(hosts, a.node), a.uid)]
    else if a.attached then [Publishing(nqn, HostOf(hosts, a.node), a.uid)]
    else []
  }

  function RequestsFor(
    list: seq<Attachment>, nqn: Nqn, pv: string, owner: Option<Owner>, live: bool, hosts: map<string, Nqn>): seq<Actor>
  {
    if list == [] then []
    else
      RequestsFor(list[..|list| - 1], nqn, pv, owner, live, hosts) +
      RequestFor(list[|list| - 1], nqn, pv, owner, live, hosts)
  }

  function Retirement(nqn: Nqn, owner: Option<Owner>, live: bool): seq<Actor> {
    if owner.Some? && !live then [Unpublishing(nqn, owner.value.host, owner.value.attachment)] else []
  }

  /** Everything a pass sends if nothing stops it, in order. */
  function AllRequests(
    nqn: Nqn, pv: string, owner: Option<Owner>, list: seq<Attachment>, hosts: map<string, Nqn>): seq<Actor>
  {
    var live := OwnerLive(owner, pv, list);
    Retirement(nqn, owner, live) + RequestsFor(list, nqn, pv, owner, live, hosts)
  }

  /** An attachment of the volume has a UID and, unless it is that of an owner just
      retired, a host. */
  predicate Resolvable(a: Attachment, pv: string, owner: Option<Owner>, live: bool, hosts: map<string, Nqn>) {
    Mine(a, pv) ==> a.uid != "" && (Retired(a, owner, live) || HostOf(hosts, a.node) != "")
  }

  predicate AllResolvable(
    list: seq<Attachment>, pv: string, owner: Option<Owner>, live: bool, hosts: map<string, Nqn>)
  {
    forall i :: 0 <= i < |list| ==> Resolvable(list[i], pv, owner, live, hosts)
  }

  lemma {:induction false} RequestsGrow(
    list: seq<Attachment>, n: nat, nqn: Nqn, pv: string, owner: Option<Owner>, live: bool, hosts: map<string, Nqn>)
    requires n <= |list|
    ensures RequestsFor(list[..n], nqn, pv, owner, live, hosts) <= RequestsFor(list, nqn, pv, owner, live, hosts)
  {
    if n < |list| {
      RequestsGrow(list[..|list| - 1], n, nqn, pv, owner, live, hosts);
      assert list[..|list| - 1][..n] == list[..n];
    } else {
      assert list[..n] == list;
    }
  }

  lemma {:induction false} RequestsAreJustified(
    list: seq<Attachment>, n: nat, nqn: Nqn, pv: string, owner: Option<Owner>, live: bool, hosts: map<string, Nqn>)
    requires n <= |list|
    ensures forall r :: r in RequestsFor(list[..n], nqn, pv, owner, live, hosts) ==>
              Justified(r, nqn, owner, pv, list, hosts)
  {
    if n > 0 {
      RequestsAreJustified(list, n - 1, nqn, pv, owner, live, hosts);
      assert list[..n][..n - 1] == list[..n - 1] && list[..n][n - 1] == list[n - 1];
    }
  }

  lemma {:induction false} RequestsAttend(
    list: seq<Attachment>, i: nat, nqn: Nqn, pv: string, owner: Option<Owner>, live: bool, hosts: map<string, Nqn>)
    requires i < |list| && Mine(list[i], pv)
    ensures Attended(list[i], nqn, owner, live, hosts, RequestsFor(list, nqn, pv, owner, live, hosts))
  {
    if i < |list| - 1 {
      RequestsAttend(list[..|list| - 1], i, nqn, pv, owner, live, hosts);
    }
  }

  /** Every request of the full sequence is justified, and together they attend to every
      attachment of the volume. */
  lemma AllRequestsFit(nqn: Nqn, pv: string, owner: Option<Owner>, list: seq<Attachment>, hosts: map<string, Nqn>)
    ensures var all := AllRequests(nqn, pv, owner, list, hosts);
            && (forall k :: 0 <= k < |all| ==> Justified(all[k], nqn, owner, pv, list, hosts))
            && (forall i :: 0 <= i < |list| && Mine(list[i], pv) ==>
                  Attended(list[i], nqn, owner, OwnerLive(owner, pv, list), hosts, all))
  {
    var live := OwnerLive(owner, pv, list);
    var all, rest := AllRequests(nqn, pv, owner, list, hosts), RequestsFor(list, nqn, pv, owner, live, hosts);
    RequestsAreJustified(list, |list|, nqn, pv, owner, live, hosts);
    assert list[..|list|] == list;
    forall k | 0 <= k < |all| ensures Justified(all[k], nqn, owner, pv, list, hosts) {
      assert all[k] in Retirement(nqn, owner, live) || all[k] in rest;
    }
    forall i | 0 <= i < |list| && Mine(list[i], pv) ensures Attended(list[i], nqn, owner, live, hosts, all) {
      RequestsAttend(list, i, nqn, pv, owner, live, hosts);
      assert forall r :: r in rest ==> r in all;
    }
  }

  method FindOwner(owner: Option<Owner>, pv: string, list: seq<Attachment>) returns (live: bool)
    ensures live == OwnerLive(owner, pv, list)
  {
    live := false;
    for i := 0 to |list|
      invariant live <==> (owner.Some? &&
                  exists j :: 0 <= j < i && Mine(list[j], pv) && !list[j].deleting &&
                    list[j].uid == owner.value.attachment)
    {
      if owner.Some? && Mine(list[i], pv) && !list[i].deleting && list[i].uid == owner.value.attachment {
        live := true;
      }
    }
  }

  /** What is sent on account of one attachment, `n` requests having been sent before. */
  method SendOne(a: Attachment, n: nat, nqn: Nqn, pv: string, owner: Option<Owner>, live: bool,
                 hosts: map<string, Nqn>, answers: nat -> bool)
    returns (more: seq<Actor>, ok: bool)
    ensures more <= RequestFor(a, nqn, pv, owner, live, hosts)
    ensures ok ==> more == RequestFor(a, nqn, pv, owner, live, hosts)
    ensures answers(n) && Resolvable(a, pv, owner, live, hosts) ==> ok
  {
    more, ok := [], true;
    if !Mine(a, pv) {
      return;
    }
    if a.uid == "" {
      ok := false;
      return;
    }
    if owner.Some? && a.uid == owner.value.attachment && !live {
      return;
    }
    var host := HostOf(hosts, a.node);
    if host == "" {
      ok := false;
      return;
    }
    if a.deleting {
      more := [Unpublishing(nqn, host, a.uid)];
      ok := answers(n);
    } else if a.attached {
      more := [Publishing(nqn, host, a.uid)];
      ok := answers(n);
    }
  }

  lemma BeginningOf(x: seq<Actor>, more: seq<Actor>, y: seq<Actor>, all: seq<Actor>)
    requires more <= y && x + y <= all
    ensures x + more <= all
  {
  }

  lemma OneMoreRequest(
    list: seq<Attachment>, i: nat, nqn: Nqn, pv: string, owner: Option<Owner>, live: bool, hosts: map<string, Nqn>)
    requires i < |list|
    ensures RequestsFor(list[..i + 1], nqn, pv, owner, live, hosts) ==
            RequestsFor(list[..i], nqn, pv, owner, live, hosts) + RequestFor(list[i], nqn, pv, owner, live, hosts)
  {
    assert list[..i + 1][..i] == list[..i];
  }

  /** The loop over the attachments, `n` requests having been sent before. */
  method SendAll(n: nat, nqn: Nqn, pv: string, owner: Option<Owner>, live: bool, list: seq<Attachment>,
                 hosts: map<string, Nqn>, answers: nat -> bool)
    returns (sent: seq<Actor>, ok: bool)
    ensures sent <= RequestsFor(list, nqn, pv, owner, live, hosts)
    ensures ok ==> sent == RequestsFor(list, nqn, pv, owner, live, hosts)
    ensures (forall k :: answers(k)) && AllResolvable(list, pv, owner, live, hosts) ==> ok
  {
    sent, ok := [], true;
    ghost var all := RequestsFor(list, nqn, pv, owner, live, hosts);
    var i := 0;
    assert list[..|list|] == list && list[..0] == [];
    while ok && i < |list|
      invariant 0 <= i <= |list| && sent <= all
      invariant ok ==> sent == RequestsFor(list[..i], nqn, pv, owner, live, hosts)
      invariant (forall k :: answers(k)) && AllResolvable(list, pv, owner, live, hosts) ==> ok
      decreases |list| - i, ok
    {
      var more;
      more, ok := SendOne(list[i], n + |sent|, nqn, pv, owner, live, hosts, answers);
      OneMoreRequest(list, i, nqn, pv, owner, live, hosts);
      RequestsGrow(list, i + 1, nqn, pv, owner, live, hosts);
      BeginningOf(sent, more, RequestFor(list[i], nqn, pv, owner, live, hosts), all);
      sent := sent + more;
      i := i + 1;
    }
  }

  /** `reconcileVolume`, after both reads. `answers` says which of the requests sent
      are reported as successful; the first that is not ends the pass. */
  method ReconcileVolume(nqn: Nqn, pv: string, owner: Option<Owner>, list: seq<Attachment>,
                         hosts: map<string, Nqn>, answers: nat -> bool)
    returns (sent: seq<Actor>, ok: bool)
    ensures forall k :: 0 <= k < |sent| ==> Justified(sent[k], nqn, owner, pv, list, hosts)
    // A dead owner is retired before anything else is asked for.
    ensures owner.Some? && !OwnerLive(owner, pv, list) ==>
              |sent| > 0 && sent[0] == Unpublishing(nqn, owner.value.host, owner.value.attachment)
    ensures ok ==> forall i :: 0 <= i < |list| && Mine(list[i], pv) ==>
              Attended(list[i], nqn, owner, OwnerLive(owner, pv, list), hosts, sent)
    // Cut off anywhere it is a beginning of the full sequence, and it is not cut off
    // without a reason.
    ensures sent <= AllRequests(nqn, pv, owner, list, hosts)
    ensures ok ==> sent == AllRequests(nqn, pv, owner, list, hosts)
    ensures (forall k :: answers(k)) && AllResolvable(list, pv, owner, OwnerLive(owner, pv, list), hosts) ==> ok
  {
    var live := FindOwner(owner, pv, list);
    ghost var all := AllRequests(nqn, pv, owner, list, hosts);
    AllRequestsFit(nqn, pv, owner, list, hosts);
    sent, ok := Retirement(nqn, owner, live), true;
    if sent != [] && !answers(0) {
      ok := false;
    } else {
      var more;
      more, ok := SendAll(|sent|, nqn, pv, owner, live, list, hosts, answers);
      BeginningOf(sent, more, RequestsFor(list, nqn, pv, owner, live, hosts), all);
      sent := sent + more;
    }
    assert forall k :: 0 <= k < |sent| ==> sent[k] == all[k];
  }
}
