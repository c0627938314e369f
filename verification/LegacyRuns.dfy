/** Runs that mix in the host-only requests: what still holds, and what a host-only
    revoke is worth. */
module LegacyRuns {
  import opened Options
  import opened Nvmet
  import opened Machine
  import opened Fencing

  /** At most one host is granted, and a recorded owner shares with nobody. */
  ghost predicate OneGrant(s: State, v: Nqn) {
    var r := Load(s.files, v);
    && r.Some?
    && (forall h, h' :: h in Acl(s.tree, v) && h' in Acl(s.tree, v) ==> h == h')
    && (r.value.owner.Some? ==> Acl(s.tree, v) <= {r.value.owner.value.host})
  }

  lemma OneGrantStep(s: State, a: Action, v: Nqn)
    requires IsCsi(v) && OneGrant(s, v) && Enabled(s, a) && !Clobbers(a, v)
    ensures OneGrant(Next(s, a), v)
  {
    if a.Kernel? {
      ScopeIsOwnVolume(a.actor, a.op, v);
    }
    var t := Next(s, a).tree;
    if a.Kernel? && a.op.OnSubsys? && a.op.edit.LinkHost? && a.op.nqn == v {
      assert Acl(t, v) <= {a.op.edit.host};
    } else {
      assert Acl(t, v) <= Acl(s.tree, v);
    }
  }

  lemma {:induction false} MixedRuns(tr: Trace, v: Nqn)
    requires Legal(tr) && First(tr) == INITIAL && IsCsi(v) && Undisturbed(tr, v)
    ensures OneGrant(Last(tr), v)
  {
    match tr
    case Start(_) =>
    case Then(p, a) =>
      MixedRuns(p, v);
      OneGrantStep(Last(p), a, v);
  }

  /** Since `p` the initiator of `c` neither connected nor left by itself. */
  predicate StaysPut(p: Trace, tr: Trace, c: Conn) {
    tr == p ||
    (tr.Then? && StaysPut(p, tr.before, c) &&
     (tr.act.Environment? ==> c !in tr.act.arrive && c !in tr.act.leave))
  }

  /** Since `p` the link of `v` on the CSI port was taken away. */
  predicate Severed(p: Trace, tr: Trace, v: Nqn) {
    tr != p && tr.Then? &&
    (Severed(p, tr.before, v) || (tr.act.Kernel? && tr.act.op == OnPort(CSI_PORT_ID, Unlink(v))))
  }

  /** What a host-only revoke is worth: at every point of it, whatever else it did and
      whatever it reports, a controller it found is gone if and only if its sever step
      took effect. */
  lemma {:induction false} RevokeFencesIff(p: Trace, tr: Trace, v: Nqn, h: Nqn, c: Conn)
    requires Legal(tr) && Since(p, tr, LegacyRevoke(v, h)) && StaysPut(p, tr, c)
    requires c.port == CSI_PORT_ID && c.nqn == v && c in Last(p).live
    ensures c !in Last(tr).live <==> Severed(p, tr, v)
  {
    if tr != p {
      RevokeFencesIff(p, tr.before, v, h, c);
    }
  }
}
