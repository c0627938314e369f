/** Rendering the web's NVMe-oF exports into the state the kernel should have. */
module Render {
  import opened Options
  import opened Nvmet
  import opened NvmetOps
  import opened Sorting
  import opened Validate

  datatype NvmeExport = NvmeExport(
    name: string, devicePath: string, enabled: bool,
    wantRdma: bool, wantTcp: bool, wantLoop: bool,
    allowAny: bool, initiators: seq<string>, interfaces: seq<string>)

  datatype NsSpec = NsSpec(nsid: nat, devicePath: string)
  datatype SubsysSpec = SubsysSpec(nqn: Nqn, allowAny: bool, hosts: seq<Nqn>, namespaces: seq<NsSpec>)
  datatype Desired = Desired(subsystems: seq<SubsysSpec>, ports: seq<PortSpec>)

  /** The default listen address, and the current addresses of each network card. */
  datatype Net = Net(listen: Ip, pci: map<string, seq<Ip>>)

  const TRSVCID: nat := 4420

  function ExportNqn(e: NvmeExport): Nqn {
    OUR_NQN_PREFIX + e.name
  }

  predicate Renderable(e: NvmeExport) {
    e.enabled && DevicePath(e.devicePath)
  }

  // ---- Where an export listens ----

  function IfaceIps(iface: string, net: Net): seq<Ip> {
    if "pci:" <= iface && PciAddress(iface[4..]) && iface[4..] in net.pci then net.pci[iface[4..]] else []
  }

  function IpsOf(ifaces: seq<string>, net: Net): set<Ip> {
    set s, ip | s in ifaces && ip in IfaceIps(s, net) :: ip
  }

  /** The pinned interfaces' current addresses, or the default when none is pinned. */
  function ListenSet(e: NvmeExport, net: Net): set<Ip> {
    if e.interfaces == [] then {net.listen} else IpsOf(e.interfaces, net)
  }

  predicate IpLess(a: Ip, b: Ip) {
    if a.V4? == b.V4? then a.bits < b.bits else a.V4?
  }

  method ListenAddrs(e: NvmeExport, net: Net) returns (r: seq<Ip>)
    ensures Sorted(IpLess, r) && Members(r) == ListenSet(e, net)
  {
    if e.interfaces == [] {
      return [net.listen];
    }
    var all: set<Ip> := {};
    for i := 0 to |e.interfaces|
      invariant all == IpsOf(e.interfaces[..i], net)
    {
      var more := IfaceIps(e.interfaces[i], net);
      assert e.interfaces[..i + 1] == e.interfaces[..i] + [e.interfaces[i]];
      all := all + Members(more);
    }
    assert e.interfaces[..|e.interfaces|] == e.interfaces;
    r := SortSet(IpLess, all);
  }

  // ---- Groups ----

  /** One nvmet port carries one transport and one address. */
  datatype Key = Key(trtype: Transport, ip: Ip)

  function Rank(t: Transport): nat {
    match t case Rdma => 0 case Tcp => 1 case Loop => 2
  }

  predicate KeyLess(a: Key, b: Key) {
    Rank(a.trtype) < Rank(b.trtype) || (a.trtype == b.trtype && IpLess(a.ip, b.ip))
  }

  function KeyOf(p: PortSpec): Key {
    Key(p.trtype, p.traddr)
  }

  /** The export is to be reachable there. A loop port has no address of its own and
      carries the default one. */
  predicate Wants(e: NvmeExport, k: Key, net: Net) {
    Renderable(e) &&
    match k.trtype
    case Rdma => e.wantRdma && k.ip in ListenSet(e, net)
    case Tcp => e.wantTcp && k.ip in ListenSet(e, net)
    case Loop => e.wantLoop && k.ip == net.listen
  }

  /** The NQNs wanted at a key, in the order of the exports. */
  function Wanting(es: seq<NvmeExport>, k: Key, net: Net): seq<Nqn> {
    if es == [] then []
    else
      var last := es[|es| - 1];
      Wanting(es[..|es| - 1], k, net) + (if Wants(last, k, net) then [ExportNqn(last)] else [])
  }

  function Group(groups: map<Key, seq<Nqn>>, k: Key): seq<Nqn> {
    if k in groups then groups[k] else []
  }

  /** Adds an export to the groups of one transport, one per address. */
  method PushAll(groups: map<Key, seq<Nqn>>, t: Transport, addrs: seq<Ip>, nqn: Nqn)
    returns (r: map<Key, seq<Nqn>>)
    requires Sorted(IpLess, addrs)
    requires forall k :: k in groups ==> groups[k] != []
    ensures forall k :: k in r ==> r[k] != []
    ensures forall k :: Group(r, k) ==
              Group(groups, k) + (if k.trtype == t && k.ip in addrs then [nqn] else [])
  {
    r := groups;
    for i := 0 to |addrs|
      invariant forall k :: k in r ==> r[k] != []
      invariant forall k :: Group(r, k) ==
                  Group(groups, k) + (if k.trtype == t && k.ip in addrs[..i] then [nqn] else [])
    {
      var k := Key(t, addrs[i]);
      assert addrs[i] !in addrs[..i];
      assert addrs[..i + 1] == addrs[..i] + [addrs[i]];
      r := r[k := Group(r, k) + [nqn]];
    }
    assert addrs[..|addrs|] == addrs;
  }

  // ---- Subsystems ----

  function ValidHosts(initiators: seq<string>): seq<Nqn> {
    if initiators == [] then []
    else (if NqnName(initiators[0]) then [initiators[0]] else []) + ValidHosts(initiators[1..])
  }

  function SpecOf(e: NvmeExport): SubsysSpec {
    SubsysSpec(ExportNqn(e), e.allowAny, ValidHosts(e.initiators), [NsSpec(1, e.devicePath)])
  }

  function Specs(es: seq<NvmeExport>): seq<SubsysSpec> {
    if es == [] then [] else (if Renderable(es[0]) then [SpecOf(es[0])] else []) + Specs(es[1..])
  }

  // ---- Port ids ----

  /** The ids are the smallest unreserved ones from 1 up, in order. */
  ghost predicate SmallestFree(ids: seq<nat>, reserved: set<nat>) {
    && (forall i :: 0 <= i < |ids| ==> ids[i] >= 1 && ids[i] !in reserved)
    && (forall i, j :: 0 <= i < j < |ids| ==> ids[i] < ids[j])
    && (forall i :: 0 <= i < |ids| ==> NoneSkipped(ids[..i], reserved, ids[i]))
  }

  /** Every unreserved number from 1 up to `x` is among the ids. */
  ghost predicate NoneSkipped(ids: seq<nat>, reserved: set<nat>, x: nat) {
    forall y :: 1 <= y < x && y !in reserved ==> y in ids
  }

  method NextFree(from: nat, reserved: set<nat>) returns (x: nat)
    ensures x >= from && x !in reserved
    ensures forall y :: from <= y < x ==> y in reserved
  {
    x := from;
    var above := set y | y in reserved && y >= from;
    while x in reserved
      invariant x >= from
      invariant forall y :: from <= y < x ==> y in reserved
      invariant above == set y | y in reserved && y >= x
      decreases above
    {
      assert x in above;
      above := above - {x};
      x := x + 1;
    }
  }

  lemma OneMoreId(ids: seq<nat>, reserved: set<nat>, x: nat)
    requires SmallestFree(ids, reserved) && NoneSkipped(ids, reserved, x)
    requires x >= 1 && x !in reserved && forall k :: 0 <= k < |ids| ==> ids[k] < x
    ensures SmallestFree(ids + [x], reserved) && NoneSkipped(ids + [x], reserved, x + 1)
  {
    var more := ids + [x];
    forall i | 0 <= i < |more| ensures NoneSkipped(more[..i], reserved, more[i]) {
      assert more[..i] == ids[..i];
      if i == |ids| {
        assert ids[..i] == ids;
      }
    }
  }

  /** The counter loop; it moves past reserved ids only. */
  method AssignIds(n: nat, reserved: set<nat>) returns (ids: seq<nat>)
    ensures |ids| == n && SmallestFree(ids, reserved)
  {
    ids := [];
    var next := 1;
    for i := 0 to n
      invariant |ids| == i && next >= 1
      invariant forall k :: 0 <= k < i ==> ids[k] < next
      invariant SmallestFree(ids, reserved)
      invariant NoneSkipped(ids, reserved, next)
    {
      next := NextFree(next, reserved);
      OneMoreId(ids, reserved, next);
      ids := ids + [next];
      next := next + 1;
    }
  }

  /** The numbers from 1 to n. */
  ghost function UpTo(n: nat): (r: set<nat>)
    ensures forall x :: x in r <==> 1 <= x <= n
    ensures |r| == n
  {
    if n == 0 then {} else UpTo(n - 1) + {n}
  }

  lemma {:induction false} MembersSize<T>(s: seq<T>)
    ensures |Members(s)| <= |s|
  {
    if s != [] {
      var rest, last := s[..|s| - 1], s[|s| - 1];
      MembersSize(rest);
      assert s == rest + [last];
      assert Members(s) == Members(rest) + {last};
    }
  }

  /** Every id up to the i-th is reserved or taken, so the counter never passes
      `i + 1 + |reserved|`; a 16-bit counter is enough while that stays below 2^16 - 1. */
  lemma IdBound(ids: seq<nat>, reserved: set<nat>, i: nat)
    requires SmallestFree(ids, reserved) && i < |ids|
    ensures ids[i] <= i + 1 + |reserved|
  {
    var upto := ids[..i + 1];
    assert upto == ids[..i] + [ids[i]];
    assert NoneSkipped(ids[..i], reserved, ids[i]);
    assert UpTo(ids[i]) <= reserved + Members(upto);
    SubsetSize(UpTo(ids[i]), reserved + Members(upto));
    MembersSize(upto);
    UnionSize(reserved, Members(upto));
  }

  lemma {:induction false} SubsetSize<T>(a: set<T>, b: set<T>)
    requires a <= b
    ensures |a| <= |b|
    decreases a
  {
    if a != {} {
      var x :| x in a;
      SubsetSize(a - {x}, b - {x});
    }
  }

  lemma UnionSize<T>(a: set<T>, b: set<T>)
    ensures |a + b| <= |a| + |b|
  {
  }

  lemma PrefixSmallestFree(ids: seq<nat>, r: set<nat>, k: nat)
    requires SmallestFree(ids, r) && k <= |ids|
    ensures SmallestFree(ids[..k], r)
  {
    forall i | 0 <= i < k ensures NoneSkipped(ids[..k][..i], r, ids[..k][i]) {
      assert ids[..k][..i] == ids[..i];
    }
  }

  lemma SameNextId(ids: seq<nat>, x: nat, y: nat, r: set<nat>, r': set<nat>)
    requires x >= 1 && y >= 1 && x !in r && y !in r' && x !in ids && y !in ids
    requires NoneSkipped(ids, r, x) && NoneSkipped(ids, r', y)
    requires forall z :: 1 <= z <= x ==> (z in r <==> z in r')
    ensures x == y
  {
  }

  ghost predicate AgreeUpTo(r: set<nat>, r': set<nat>, top: nat) {
    forall x :: 1 <= x <= top ==> (x in r <==> x in r')
  }

  /** Reserving other ids above all assigned ones does not change the assignment. */
  lemma {:induction false} SameIds(ids: seq<nat>, ids': seq<nat>, r: set<nat>, r': set<nat>, top: nat)
    requires SmallestFree(ids, r) && SmallestFree(ids', r') && |ids| == |ids'|
    requires AgreeUpTo(r, r', top) && forall i :: 0 <= i < |ids| ==> ids[i] <= top
    ensures ids == ids'
  {
    if ids != [] {
      var k := |ids| - 1;
      PrefixSmallestFree(ids, r, k);
      PrefixSmallestFree(ids', r', k);
      SameIds(ids[..k], ids'[..k], r, r', top);
      LastId(ids, r, k);
      LastId(ids', r', k);
      SameNextId(ids[..k], ids[k], ids'[k], r, r');
      assert ids == ids[..k] + [ids[k]] && ids' == ids'[..k] + [ids'[k]];
    }
  }

  lemma LastId(ids: seq<nat>, r: set<nat>, k: nat)
    requires SmallestFree(ids, r) && k < |ids|
    ensures ids[k] >= 1 && ids[k] !in r && ids[k] !in ids[..k] && NoneSkipped(ids[..k], r, ids[k])
  {
  }

  // ---- The rendered state ----

  function KeysOf(ports: seq<PortSpec>): seq<Key> {
    seq(|ports|, i requires 0 <= i < |ports| => KeyOf(ports[i]))
  }

  function IdsOf(ports: seq<PortSpec>): seq<nat> {
    seq(|ports|, i requires 0 <= i < |ports| => ports[i].id)
  }

  /** One subsystem per renderable export; one port per key somebody wants, in key
      order, linking exactly who wants it; ids around the reserved ones. */
  ghost predicate IsRendered(d: Desired, es: seq<NvmeExport>, net: Net, reserved: set<nat>) {
    && d.subsystems == Specs(es)
    && Sorted(KeyLess, KeysOf(d.ports))
    && (forall k :: k in KeysOf(d.ports) <==> Wanting(es, k, net) != [])
    && (forall i :: 0 <= i < |d.ports| ==> PortFits(d.ports[i], es, net))
    && SmallestFree(IdsOf(d.ports), reserved)
  }

  ghost predicate PortFits(p: PortSpec, es: seq<NvmeExport>, net: Net) {
    p.subsystems == Wanting(es, KeyOf(p), net) && p.trsvcid == TRSVCID
  }

  /** Files one export under every network key it wants. */
  method AddExport(groups: map<Key, seq<Nqn>>, e: NvmeExport, net: Net) returns (r: map<Key, seq<Nqn>>)
    requires Renderable(e) && forall k :: k in groups ==> groups[k] != []
    ensures forall k :: k in r ==> r[k] != []
    ensures forall k :: Group(r, k) ==
              Group(groups, k) + (if k.trtype != Loop && Wants(e, k, net) then [ExportNqn(e)] else [])
  {
    var addrs := ListenAddrs(e, net);
    assert forall ip :: ip in addrs <==> ip in Members(addrs);
    r := groups;
    if e.wantRdma {
      r := PushAll(r, Rdma, addrs, ExportNqn(e));
    }
    if e.wantTcp {
      r := PushAll(r, Tcp, addrs, ExportNqn(e));
    }
  }

  method Grouped(es: seq<NvmeExport>, net: Net) returns (groups: map<Key, seq<Nqn>>, loops: seq<Nqn>)
    ensures forall k :: k in groups ==> groups[k] != []
    ensures forall k :: Group(groups, k) == if k.trtype == Loop then [] else Wanting(es, k, net)
    ensures loops == Wanting(es, Key(Loop, net.listen), net)
  {
    groups, loops := map[], [];
    for i := 0 to |es|
      invariant forall k :: k in groups ==> groups[k] != []
      invariant forall k :: Group(groups, k) == if k.trtype == Loop then [] else Wanting(es[..i], k, net)
      invariant loops == Wanting(es[..i], Key(Loop, net.listen), net)
    {
      var e := es[i];
      assert es[..i + 1][..i] == es[..i] && es[..i + 1][i] == e;
      if Renderable(e) {
        groups := AddExport(groups, e, net);
        if e.wantLoop {
          loops := loops + [ExportNqn(e)];
        }
      }
    }
    assert es[..|es|] == es;
  }

  /** The network ports, in key order. */
  method NetPorts(groups: map<Key, seq<Nqn>>) returns (ports: seq<PortSpec>)
    ensures Sorted(KeyLess, KeysOf(ports))
    ensures forall k :: k in KeysOf(ports) <==> k in groups
    ensures forall i :: 0 <= i < |ports| ==>
              KeyOf(ports[i]) in groups && ports[i].subsystems == groups[KeyOf(ports[i])] && ports[i].trsvcid == TRSVCID
  {
    var keys := SortSet(KeyLess, groups.Keys);
    assert forall k :: k in keys <==> k in Members(keys);
    ports := seq(|keys|, i requires 0 <= i < |keys| && keys[i] in groups =>
      PortSpec(0, keys[i].trtype, keys[i].ip, TRSVCID, groups[keys[i]]));
    assert KeysOf(ports) == keys;
  }

  lemma NetFits(ports: seq<PortSpec>, groups: map<Key, seq<Nqn>>, es: seq<NvmeExport>, net: Net)
    requires forall k :: k in groups ==> groups[k] != []
    requires forall k :: Group(groups, k) == if k.trtype == Loop then [] else Wanting(es, k, net)
    requires forall k :: k in KeysOf(ports) <==> k in groups
    requires forall i :: 0 <= i < |ports| ==>
               && KeyOf(ports[i]) in groups
               && ports[i].subsystems == groups[KeyOf(ports[i])] && ports[i].trsvcid == TRSVCID
    ensures forall k :: k in KeysOf(ports) <==> k.trtype != Loop && Wanting(es, k, net) != []
    ensures forall i :: 0 <= i < |ports| ==> ports[i].trtype != Loop && PortFits(ports[i], es, net)
  {
  }

  /** The loop port comes last, and only one address can carry it. */
  method AddLoop(ports: seq<PortSpec>, loops: seq<Nqn>, es: seq<NvmeExport>, net: Net) returns (all: seq<PortSpec>)
    requires Sorted(KeyLess, KeysOf(ports)) && loops == Wanting(es, Key(Loop, net.listen), net)
    requires forall k :: k in KeysOf(ports) <==> k.trtype != Loop && Wanting(es, k, net) != []
    requires forall i :: 0 <= i < |ports| ==> ports[i].trtype != Loop && PortFits(ports[i], es, net)
    ensures Sorted(KeyLess, KeysOf(all))
    ensures forall k :: k in KeysOf(all) <==> Wanting(es, k, net) != []
    ensures forall i :: 0 <= i < |all| ==> PortFits(all[i], es, net)
  {
    all := ports;
    if loops != [] {
      var last := PortSpec(0, Loop, net.listen, TRSVCID, loops);
      assert KeysOf(ports + [last]) == KeysOf(ports) + [KeyOf(last)];
      all := ports + [last];
    }
    forall k: Key | k.trtype == Loop && k.ip != net.listen ensures Wanting(es, k, net) == [] {
      NobodyWants(es, k, net);
    }
  }

  /** The ports of the groups in key order, the loop port last. */
  method PortsOf(es: seq<NvmeExport>, net: Net) returns (ports: seq<PortSpec>)
    ensures Sorted(KeyLess, KeysOf(ports))
    ensures forall k :: k in KeysOf(ports) <==> Wanting(es, k, net) != []
    ensures forall i :: 0 <= i < |ports| ==> PortFits(ports[i], es, net)
  {
    var groups, loops := Grouped(es, net);
    ports := NetPorts(groups);
    NetFits(ports, groups, es, net);
    ports := AddLoop(ports, loops, es, net);
  }

  lemma {:induction false} NobodyWants(es: seq<NvmeExport>, k: Key, net: Net)
    requires k.trtype == Loop && k.ip != net.listen
    ensures Wanting(es, k, net) == []
  {
    if es != [] {
      NobodyWants(es[..|es| - 1], k, net);
    }
  }

  /** `render_nvmet`. */
  method RenderNvmet(es: seq<NvmeExport>, net: Net, reserved: set<nat>) returns (d: Desired)
    ensures IsRendered(d, es, net, reserved)
  {
    var ports := PortsOf(es, net);
    var ids := AssignIds(|ports|, reserved);
    var numbered := seq(|ports|, i requires 0 <= i < |ports| && i < |ids| => ports[i].(id := ids[i]));
    assert KeysOf(numbered) == KeysOf(ports) && IdsOf(numbered) == ids;
    d := Desired(Specs(es), numbered);
  }

  lemma KeyOrder()
    ensures StrictTotal(KeyLess)
  {
  }

  /** The exports and the reserved ids below the largest one used determine the
      rendered state completely. */
  lemma RenderUnique(d: Desired, d': Desired, es: seq<NvmeExport>, net: Net, r: set<nat>, r': set<nat>, top: nat)
    requires IsRendered(d, es, net, r) && IsRendered(d', es, net, r') && AgreeUpTo(r, r', top)
    requires forall p :: p in d.ports ==> p.id <= top
    ensures d == d'
  {
    var keys, keys' := KeysOf(d.ports), KeysOf(d'.ports);
    assert Members(keys) == Members(keys');
    KeyOrder();
    SortedUnique(KeyLess, keys, keys');
    SameIds(IdsOf(d.ports), IdsOf(d'.ports), r, r', top);
    forall i | 0 <= i < |d.ports| ensures d.ports[i] == d'.ports[i] {
      assert keys[i] == keys'[i] && IdsOf(d.ports)[i] == IdsOf(d'.ports)[i];
      assert PortFits(d.ports[i], es, net) && PortFits(d'.ports[i], es, net);
    }
  }
}
