/** Any number of controllers against one target: the API server's attachments, each
    controller's private snapshots, every request ever sent, and the target's run.

    A request once sent stays available for ever, so delay, duplication, reordering
    and loss need no actions of their own. Attachment UIDs are never reused, deletion
    is irreversible, and a list is the API server's state at one instant.
 */
module Clusters {
  import opened Options
  import opened Nvmet
  import opened Machine
  import opened Fencing
  import opened Controllers

  /** What a controller holds. `Read` has the target's owner, `Listed` also the list
      read after it; `Looked` is the list of an attach or detach call. `known` are
      the UIDs that existed when the list was taken. */
  datatype Local =
    | Idle
    | Read(pv: string, owner: Option<Owner>)
    | Listed(pv: string, owner: Option<Owner>, list: seq<Attachment>, known: set<string>)
    | Looked(list: seq<Attachment>)

  datatype Cluster = Cluster(
    attachments: map<string, Attachment>,
    created: map<string, Attachment>,
    locals: map<nat, Local>,
    sent: set<Actor>,
    run: Trace)

  datatype Step =
    | Attach(a: Attachment)
    | MarkAttached(uid: string, attached: bool)
    | MarkDeleted(uid: string)
    | Vanish(uid: string)
    | ReadOwner(c: nat, pv: string)
    | TakeList(c: nat, list: seq<Attachment>)
    | Look(c: nat, list: seq<Attachment>)
    | Send(c: nat, req: Actor, hosts: map<string, Nqn>)
    | OnTarget(act: Action)

  /** Which volume each PersistentVolume is a handle of. */
  type Volumes = map<string, Nqn>

  /** One PersistentVolume per volume, and no volume's temporary file is another's record. */
  ghost predicate GoodVolumes(vols: Volumes) {
    && (forall p :: p in vols ==> IsCsi(vols[p]))
    && (forall p, q :: p in vols && q in vols && vols[p] == vols[q] ==> p == q)
    && (forall p, q :: p in vols && q in vols ==> vols[p] != Tmp(vols[q]))
  }

  const START := Cluster(map[], map[], map[], {}, Start(INITIAL))

  function LocalOf(k: Cluster, c: nat): Local {
    if c in k.locals then k.locals[c] else Idle
  }

  predicate IsListOf(list: seq<Attachment>, attachments: map<string, Attachment>) {
    && (forall i :: 0 <= i < |list| ==> list[i].uid in attachments && attachments[list[i].uid] == list[i])
    && (forall u :: u in attachments ==> attachments[u] in list)
  }

  /** An attach or detach call may name the attachments its list shows as live, or
      as being deleted. */
  predicate CallMaySend(req: Actor, vols: Volumes, list: seq<Attachment>, hosts: map<string, Nqn>) {
    match req
    case Publishing(n, h, u) =>
      exists i :: 0 <= i < |list| && list[i].uid == u && Matches(list[i], vols, hosts, n, h, true)
    case Unpublishing(n, h, u) =>
      exists i :: 0 <= i < |list| && list[i].uid == u && Matches(list[i], vols, hosts, n, h, false)
    case _ => false
  }

  ghost predicate MaySend(k: Cluster, vols: Volumes, c: nat, req: Actor, hosts: map<string, Nqn>) {
    match LocalOf(k, c)
    case Listed(pv, owner, list, _) => pv in vols && Justified(req, vols[pv], owner, pv, list, hosts)
    case Looked(list) => CallMaySend(req, vols, list, hosts)
    case _ => false
  }

  /** The target serves only what was sent; deletes and reconcile passes are free. */
  ghost predicate Served(k: Cluster, act: Action) {
    HasActor(act) ==> !IsLegacy(act.actor) && (Saves(act.actor) ==> act.actor in k.sent)
  }

  ghost predicate Possible(k: Cluster, vols: Volumes, s: Step) {
    match s
    case Attach(a) => a.uid !in k.created && !a.deleting
    case MarkAttached(u, _) => u in k.attachments
    case MarkDeleted(u) => u in k.attachments
    case Vanish(u) => u in k.attachments
    case ReadOwner(_, pv) => pv in vols && Load(Last(k.run).files, vols[pv]).Some?
    case TakeList(c, list) => LocalOf(k, c).Read? && IsListOf(list, k.attachments)
    case Look(_, list) => IsListOf(list, k.attachments)
    case Send(c, req, hosts) => MaySend(k, vols, c, req, hosts)
    case OnTarget(act) => Enabled(Last(k.run), act) && Served(k, act)
  }

  function After(k: Cluster, vols: Volumes, s: Step): Cluster {
    match s
    case Attach(a) => k.(attachments := k.attachments[a.uid := a], created := k.created[a.uid := a])
    case MarkAttached(u, b) =>
      if u in k.attachments then k.(attachments := k.attachments[u := k.attachments[u].(attached := b)]) else k
    case MarkDeleted(u) =>
      if u in k.attachments then k.(attachments := k.attachments[u := k.attachments[u].(deleting := true)]) else k
    case Vanish(u) => k.(attachments := k.attachments - {u})
    case ReadOwner(c, pv) =>
      if pv in vols then k.(locals := k.locals[c := Read(pv, RecordOf(Last(k.run), vols[pv]).owner)]) else k
    case TakeList(c, list) =>
      match LocalOf(k, c) {
        case Read(pv, owner) => k.(locals := k.locals[c := Listed(pv, owner, list, k.created.Keys)])
        case _ => k
      }
    case Look(c, list) => k.(locals := k.locals[c := Looked(list)])
    case Send(_, req, _) => k.(sent := k.sent + {req})
    case OnTarget(act) => k.(run := Then(k.run, act))
  }

  datatype History = Begin | More(before: History, step: Step)

  function Reached(h: History, vols: Volumes): Cluster {
    match h
    case Begin => START
    case More(p, s) => After(Reached(p, vols), vols, s)
  }

  ghost predicate Real(h: History, vols: Volumes) {
    match h
    case Begin => true
    case More(p, s) => Real(p, vols) && Possible(Reached(p, vols), vols, s)
  }

  // ---- What is known of a UID ----

  predicate Live(k: Cluster, u: string) {
    u in k.attachments && !k.attachments[u].deleting
  }

  /** The attachment existed and is not live; this never changes again. */
  predicate Dead(k: Cluster, u: string) {
    u in k.created && !Live(k, u)
  }

  /** The attachment was made for the volume `n`. */
  predicate MadeFor(k: Cluster, vols: Volumes, u: string, n: Nqn) {
    u in k.created && k.created[u].ours && ForVolume(k.created[u], vols, n)
  }

  predicate SameSpec(a: Attachment, b: Attachment) {
    a.uid == b.uid && a.ours == b.ours && a.pv == b.pv && a.node == b.node
  }

  ghost predicate ApiInv(k: Cluster) {
    forall u :: u in k.attachments ==>
      u in k.created && SameSpec(k.attachments[u], k.created[u]) && k.created[u].uid == u
  }

  /** A list tells the truth for ever about what it shows as gone. */
  ghost predicate ListInv(k: Cluster, list: seq<Attachment>) {
    forall i :: 0 <= i < |list| ==>
      && list[i].uid in k.created
      && SameSpec(list[i], k.created[list[i].uid])
      && (list[i].deleting ==> Dead(k, list[i].uid))
  }

  ghost predicate AbsenceInv(k: Cluster, list: seq<Attachment>, known: set<string>) {
    forall u :: u in known && (forall i :: 0 <= i < |list| && list[i].uid == u ==> list[i].deleting) ==> Dead(k, u)
  }

  ghost predicate LocalInv(k: Cluster, vols: Volumes, l: Local) {
    match l
    case Idle => true
    case Read(pv, owner) => pv in vols && (owner.Some? ==> MadeFor(k, vols, owner.value.attachment, vols[pv]))
    case Listed(pv, owner, list, known) =>
      && pv in vols
      && (owner.Some? ==> MadeFor(k, vols, owner.value.attachment, vols[pv]) && owner.value.attachment in known)
      && known <= k.created.Keys
      && ListInv(k, list)
      && AbsenceInv(k, list, known)
    case Looked(list) => ListInv(k, list)
  }

  /** A publish names an attachment of its volume, an unpublish a dead one. */
  ghost predicate SentInv(k: Cluster, vols: Volumes) {
    forall r :: r in k.sent ==>
      match r
      case Publishing(n, h, u) => MadeFor(k, vols, u, n)
      case Unpublishing(n, h, u) => Dead(k, u) && (exists p :: p in vols && vols[p] == n)
      case _ => false
  }

  ghost predicate SentOnly(tr: Trace, sent: set<Actor>) {
    match tr
    case Start(_) => true
    case Then(p, a) =>
      SentOnly(p, sent) && (HasActor(a) ==> !IsLegacy(a.actor) && (Saves(a.actor) ==> a.actor in sent))
  }

  ghost predicate Inv(k: Cluster, vols: Volumes) {
    && ApiInv(k)
    && (forall c :: c in k.locals ==> LocalInv(k, vols, k.locals[c]))
    && SentInv(k, vols)
    && Legal(k.run) && First(k.run) == INITIAL && SentOnly(k.run, k.sent)
  }

  // ---- Facts persist ----

  /** Created attachments stay created, dead ones stay dead. */
  ghost predicate Grows(k: Cluster, k': Cluster) {
    forall u :: u in k.created ==>
      u in k'.created && k'.created[u] == k.created[u] && (Dead(k, u) ==> Dead(k', u))
  }

  lemma StepGrows(k: Cluster, vols: Volumes, s: Step)
    requires Possible(k, vols, s)
    ensures Grows(k, After(k, vols, s))
  {
  }

  lemma StepKeepsApi(k: Cluster, vols: Volumes, s: Step)
    requires Possible(k, vols, s) && ApiInv(k)
    ensures ApiInv(After(k, vols, s))
  {
  }

  lemma LocalPersists(k: Cluster, k': Cluster, vols: Volumes, l: Local)
    requires Grows(k, k') && LocalInv(k, vols, l)
    ensures LocalInv(k', vols, l)
  {
  }

  lemma SentPersists(k: Cluster, k': Cluster, vols: Volumes)
    requires Grows(k, k') && SentInv(k, vols) && k'.sent == k.sent
    ensures SentInv(k', vols)
  {
  }

  lemma {:induction false} SentOnlyMore(tr: Trace, sent: set<Actor>, more: set<Actor>)
    requires SentOnly(tr, sent) && sent <= more
    ensures SentOnly(tr, more)
  {
    if tr.Then? {
      SentOnlyMore(tr.before, sent, more);
    }
  }

  // ---- What the target holds came from requests ----

  /** Requests name only volumes of the cluster, so no record is disturbed. */
  lemma {:induction false} RunIsDisciplined(tr: Trace, k: Cluster, vols: Volumes, v: Nqn)
    requires SentOnly(tr, k.sent) && SentInv(k, vols) && GoodVolumes(vols)
    requires exists p :: p in vols && vols[p] == v
    ensures GenerationOnly(tr) && Undisturbed(tr, v)
  {
    if tr.Then? {
      RunIsDisciplined(tr.before, k, vols, v);
    }
  }

  /** A recorded owner was published, and every tombstone was asked for. */
  lemma {:induction false} RecordWasSent(tr: Trace, k: Cluster, vols: Volumes, v: Nqn)
    requires Legal(tr) && First(tr) == INITIAL
    requires SentOnly(tr, k.sent) && SentInv(k, vols) && GoodVolumes(vols)
    requires exists p :: p in vols && vols[p] == v
    ensures var o := RecordOf(Last(tr), v).owner;
            o.Some? ==> Publishing(v, o.value.host, o.value.attachment) in k.sent
    ensures forall u :: u in RecordOf(Last(tr), v).fenced ==> exists h :: Unpublishing(v, h, u) in k.sent
  {
    if tr.Then? {
      RecordWasSent(tr.before, k, vols, v);
      RunIsDisciplined(tr, k, vols, v);
      assert IsCsi(v);
      FencingTheorem(tr.before, v);
      RecordOrigin(Last(tr.before), tr.act, v);
    }
  }

  /** How one action can change a fenced volume's record. */
  lemma RecordOrigin(s: State, a: Action, v: Nqn)
    requires IsCsi(v) && Fenced(s, v) && Enabled(s, a) && !Clobbers(a, v)
    ensures
      var r, r' := RecordOf(s, v), RecordOf(Next(s, a), v);
      && (r'.owner == r.owner || r'.owner == None ||
          (a.Rename? && a.actor == Publishing(v, r'.owner.value.host, r'.owner.value.attachment)))
      && (r'.fenced == r.fenced ||
          (a.Rename? && a.actor.Unpublishing? && a.actor.nqn == v && r'.fenced == r.fenced + {a.actor.uid}))
  {
  }

  // ---- The invariant ----

  /** A list of all attachments is evidence that holds from then on. */
  lemma FreshList(k: Cluster, list: seq<Attachment>)
    requires ApiInv(k) && IsListOf(list, k.attachments)
    ensures ListInv(k, list) && AbsenceInv(k, list, k.created.Keys)
  {
  }

  /** Whatever a controller's snapshots justify is safe to send. */
  lemma SendIsSafe(k: Cluster, vols: Volumes, c: nat, req: Actor, hosts: map<string, Nqn>)
    requires Inv(k, vols) && GoodVolumes(vols) && MaySend(k, vols, c, req, hosts)
    ensures match req
      case Publishing(n, h, u) => MadeFor(k, vols, u, n)
      case Unpublishing(n, h, u) => Dead(k, u) && (exists p :: p in vols && vols[p] == n)
      case _ => false
  {
    var l := k.locals[c];
    assert LocalInv(k, vols, l);
    if l.Looked? {
      var i :| 0 <= i < |l.list| && l.list[i].uid == req.uid &&
        Matches(l.list[i], vols, hosts, req.nqn, req.host, req.Publishing?);
    } else if req.Unpublishing? && l.owner == Some(Owner(req.host, req.uid)) && !OwnerLive(l.owner, l.pv, l.list) {
      DeadOwner(k, vols, l);
    } else {
      var i :| 0 <= i < |l.list| && Mine(l.list[i], l.pv) && l.list[i].uid == req.uid &&
        l.list[i].deleting == req.Unpublishing?;
    }
  }

  /** The owner was read before the list, so if the list does not show it live it is
      dead: it existed, it is of this volume, and this volume has one PersistentVolume. */
  lemma DeadOwner(k: Cluster, vols: Volumes, l: Local)
    requires GoodVolumes(vols) && l.Listed? && LocalInv(k, vols, l)
    requires l.owner.Some? && !OwnerLive(l.owner, l.pv, l.list)
    ensures Dead(k, l.owner.value.attachment)
  {
  }

  lemma InvStep(k: Cluster, vols: Volumes, s: Step)
    requires Inv(k, vols) && GoodVolumes(vols) && Possible(k, vols, s)
    ensures Inv(After(k, vols, s), vols)
  {
    var k' := After(k, vols, s);
    StepGrows(k, vols, s);
    StepKeepsApi(k, vols, s);
    forall c | c in k'.locals ensures LocalInv(k', vols, k'.locals[c]) {
      if c in k.locals && k'.locals[c] == k.locals[c] {
        LocalPersists(k, k', vols, k.locals[c]);
      } else {
        NewLocal(k, vols, s, c);
      }
    }
    if s.Send? {
      SendIsSafe(k, vols, s.c, s.req, s.hosts);
      SentOnlyMore(k.run, k.sent, k'.sent);
    } else {
      SentPersists(k, k', vols);
    }
  }

  lemma NewLocal(k: Cluster, vols: Volumes, s: Step, c: nat)
    requires Inv(k, vols) && GoodVolumes(vols) && Possible(k, vols, s)
    requires c in After(k, vols, s).locals && !(c in k.locals && After(k, vols, s).locals[c] == k.locals[c])
    ensures LocalInv(After(k, vols, s), vols, After(k, vols, s).locals[c])
  {
    match s
    case ReadOwner(_, pv) => RecordWasSent(k.run, k, vols, vols[pv]);
    case TakeList(_, list) => FreshList(k, list);
    case Look(_, list) => FreshList(k, list);
    case _ =>
  }

  lemma {:induction false} InvReached(h: History, vols: Volumes)
    requires Real(h, vols) && GoodVolumes(vols)
    ensures Inv(Reached(h, vols), vols)
  {
    match h
    case Begin =>
    case More(p, s) =>
      InvReached(p, vols);
      InvStep(Reached(p, vols), vols, s);
  }

  /** Overlapping controllers never fence a live attachment: no request in flight
      and no tombstone names one. */
  lemma NeverFencesLive(h: History, vols: Volumes, p: string, u: string)
    requires Real(h, vols) && GoodVolumes(vols) && p in vols
    requires
      var k := Reached(h, vols);
      || (exists host :: Unpublishing(vols[p], host, u) in k.sent)
      || u in RecordOf(Last(k.run), vols[p]).fenced
    ensures !Live(Reached(h, vols), u)
  {
    var k := Reached(h, vols);
    InvReached(h, vols);
    RecordWasSent(k.run, k, vols, vols[p]);
    var host :| Unpublishing(vols[p], host, u) in k.sent;
    assert Dead(k, u);
  }

  /** On the target, every volume of the cluster stays fenced throughout. */
  lemma ClusterIsFenced(h: History, vols: Volumes, p: string)
    requires Real(h, vols) && GoodVolumes(vols) && p in vols
    ensures Fenced(Last(Reached(h, vols).run), vols[p])
  {
    var k := Reached(h, vols);
    InvReached(h, vols);
    RunIsDisciplined(k.run, k, vols, vols[p]);
    FencingTheorem(k.run, vols[p]);
  }

  // ---- Why the list must not be stale ----

  predicate Precedes(p: History, h: History) {
    p == h || (h.More? && Precedes(p, h.before))
  }

  lemma Extend(h: History, vols: Volumes, s: Step) returns (h': History)
    requires Real(h, vols) && Possible(Reached(h, vols), vols, s)
    ensures h' == More(h, s) && Real(h', vols) && Reached(h', vols) == After(Reached(h, vols), vols, s)
    ensures Precedes(Begin, h) ==> Precedes(Begin, h')
  {
    h' := More(h, s);
  }

  /** An attachment is made, and a controller asks the target to publish it. */
  lemma Asked(vols: Volumes, p: string, a: Attachment, hosts: map<string, Nqn>, pub: Actor) returns (h: History)
    requires p in vols && !a.deleting && pub == Publishing(vols[p], HostOf(hosts, a.node), a.uid)
    requires Matches(a, vols, hosts, vols[p], HostOf(hosts, a.node), true)
    ensures Real(h, vols) && Precedes(Begin, h)
    ensures var k := Reached(h, vols);
            k.attachments == map[a.uid := a] && k.sent == {pub} && k.run == Start(INITIAL)
  {
    h := Extend(Begin, vols, Attach(a));
    h := Extend(h, vols, Look(0, [a]));
    assert LocalOf(Reached(h, vols), 0) == Looked([a]);
    h := Extend(h, vols, Send(0, pub, hosts));
  }

  /** A list from before the owner was read would justify fencing a live attachment,
      so the order of the two reads and the freshness of the list carry the proof. */
  lemma StaleListWouldFence(vols: Volumes, p: string, u: string, node: string, host: Nqn)
    returns (early: History, late: History)
    requires GoodVolumes(vols) && p in vols && host != ""
    ensures Real(late, vols) && Precedes(early, late) && IsListOf([], Reached(early, vols).attachments)
    ensures Live(Reached(late, vols), u)
    ensures Justified(Unpublishing(vols[p], host, u), vols[p],
                      RecordOf(Last(Reached(late, vols).run), vols[p]).owner, p, [], map[node := host])
  {
    early := Begin;
    var n := vols[p];
    var pub, doc := Publishing(n, host, u), Doc(Record(Some(Owner(host, u)), {}));
    late := Asked(vols, p, Attachment(u, true, Some(p), node, false, false), map[node := host], pub);
    late := Extend(late, vols, OnTarget(WriteTmp(pub, doc)));
    assert n != Tmp(n);
    assert Last(Reached(late, vols).run) == State(map[Tmp(n) := doc], EMPTY_TREE, {});
    late := Extend(late, vols, OnTarget(Rename(pub)));
  }

  lemma {:induction false} HistoryGrows(early: History, late: History, vols: Volumes)
    requires Real(late, vols) && Precedes(early, late)
    ensures Real(early, vols) && Grows(Reached(early, vols), Reached(late, vols))
  {
    if early != late {
      HistoryGrows(early, late.before, vols);
      StepGrows(Reached(late.before, vols), vols, late.step);
    }
  }

  /** Whatever list a pass uses and whenever it was taken: it justifies fencing the
      owner on record, while that is live, exactly when it is from before the owner's
      attachment was created. */
  lemma StaleListFencesIff(early: History, late: History, vols: Volumes, p: string,
                           list: seq<Attachment>, o: Owner, hosts: map<string, Nqn>)
    requires Real(late, vols) && GoodVolumes(vols) && p in vols && Precedes(early, late)
    requires IsListOf(list, Reached(early, vols).attachments)
    requires RecordOf(Last(Reached(late, vols).run), vols[p]).owner == Some(o)
    requires Live(Reached(late, vols), o.attachment)
    ensures Justified(Unpublishing(vols[p], o.host, o.attachment), vols[p], Some(o), p, list, hosts) <==>
            o.attachment !in Reached(early, vols).created
  {
    var was, now, u := Reached(early, vols), Reached(late, vols), o.attachment;
    HistoryGrows(early, late, vols);
    InvReached(early, vols);
    InvReached(late, vols);
    RecordWasSent(now.run, now, vols, vols[p]);
    assert MadeFor(now, vols, u, vols[p]);
    if u in was.created {
      assert Live(was, u) && was.attachments[u] in list;
      var i :| 0 <= i < |list| && list[i] == was.attachments[u];
      assert SameSpec(list[i], was.created[u]) && Mine(list[i], p);
    }
  }
}
