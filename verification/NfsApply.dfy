/** Applying NFS exports one pair at a time, beside exports the daemon does not own. */
module NfsApply {
  import opened Options
  import opened Statuses
  import opened Commands
  import opened Decimals
  import opened NfsFile

  // ---- What an apply aims at ----

  /** The options each pair of an export is given; of two entries for one client the
      later one counts. */
  function ClientOpts(path: string, fsid: nat, cs: seq<Client>): map<Pair, string> {
    if cs == [] then map[]
    else
      var last := cs[|cs| - 1];
      ClientOpts(path, fsid, cs[..|cs| - 1])[(last.name, path) := Opts(last.rw, fsid)]
  }

  function OptsOf(e: Export): map<Pair, string> {
    ClientOpts(e.path, e.fsid, e.clients)
  }

  function WantedOpts(es: seq<Export>): map<Pair, string> {
    if es == [] then map[] else WantedOpts(es[..|es| - 1]) + OptsOf(es[|es| - 1])
  }

  function Wanted(es: seq<Export>): set<Pair> {
    set p | p in DesiredPairs(es)
  }

  function Dropped(previous: seq<Pair>, want: set<Pair>): set<Pair> {
    set p | p in previous && p !in want
  }

  /** The live table an apply leaves: pairs managed before and not wanted are gone,
      wanted pairs are there with their options, the rest is as it was. */
  function Target(live: map<Pair, string>, previous: seq<Pair>, es: seq<Export>): map<Pair, string> {
    (live - Dropped(previous, Wanted(es))) + WantedOpts(es)
  }

  lemma {:induction false} ClientOptsKeys(path: string, fsid: nat, cs: seq<Client>)
    ensures ClientOpts(path, fsid, cs).Keys == set p | p in PairsOf(path, cs)
  {
    if cs != [] {
      ClientOptsKeys(path, fsid, cs[..|cs| - 1]);
    }
  }

  lemma {:induction false} ClientHasOpts(path: string, fsid: nat, cs: seq<Client>, i: nat)
    requires i < |cs|
    ensures (cs[i].name, path) in ClientOpts(path, fsid, cs)
  {
    if i < |cs| - 1 {
      ClientHasOpts(path, fsid, cs[..|cs| - 1], i);
    }
  }

  lemma {:induction false} ExportHasOpts(es: seq<Export>, i: nat)
    requires i < |es|
    ensures OptsOf(es[i]).Keys <= WantedOpts(es).Keys
  {
    if i < |es| - 1 {
      ExportHasOpts(es[..|es| - 1], i);
    }
  }

  lemma {:induction false} WantedOptsKeys(es: seq<Export>)
    ensures WantedOpts(es).Keys == Wanted(es)
  {
    if es != [] {
      var e := es[|es| - 1];
      WantedOptsKeys(es[..|es| - 1]);
      ClientOptsKeys(e.path, e.fsid, e.clients);
    }
  }

  /** Where the two tables may differ. */
  ghost predicate SameOutside(a: map<Pair, string>, b: map<Pair, string>, touched: set<Pair>) {
    forall p :: p !in touched ==> ((p in a <==> p in b) && (p in a ==> a[p] == b[p]))
  }

  lemma OutsideBoth(a: map<Pair, string>, b: map<Pair, string>, c: map<Pair, string>, some: set<Pair>, all: set<Pair>)
    requires SameOutside(a, b, all) && SameOutside(b, c, some) && some <= all
    ensures SameOutside(a, c, all)
  {
  }

  lemma OneMoreClient(live: map<Pair, string>, path: string, fsid: nat, cs: seq<Client>, i: nat)
    requires i < |cs|
    ensures (live + ClientOpts(path, fsid, cs[..i]))[(cs[i].name, path) := Opts(cs[i].rw, fsid)] ==
            live + ClientOpts(path, fsid, cs[..i + 1])
  {
    assert cs[..i + 1][..i] == cs[..i];
  }

  lemma OneMoreExport(live: map<Pair, string>, es: seq<Export>, i: nat)
    requires i < |es|
    ensures (live + WantedOpts(es[..i])) + OptsOf(es[i]) == live + WantedOpts(es[..i + 1])
  {
    assert es[..i + 1][..i] == es[..i];
  }

  predicate NoFailure(acc: Option<Status>) {
    acc.None? || acc.value != Status.Failed
  }

  /** The export table and the daemon's own file. */
  datatype Table = Table(live: map<Pair, string>, file: Option<string>)

  function Listing(file: Option<string>): seq<Pair> {
    if file.None? then [] else Managed(file.value)
  }

  function FileFor(es: seq<Export>): Option<string> {
    if es == [] then None else Some(Rendered(es))
  }

  predicate Succeeded(status: Option<Status>) {
    status.Some? && status.value != Status.Failed
  }

  /** What an apply may do, and what it has done when it succeeds. A pair the daemon
      neither managed nor wants is never touched. */
  ghost predicate Applied(s: Table, s': Table, es: seq<Export>, ok: bool) {
    && SameOutside(s.live, s'.live, Dropped(Listing(s.file), Wanted(es)) + Wanted(es))
    && (s'.file == s.file || s'.file == FileFor(es))
    && (ok ==> s'.live == Target(s.live, Listing(s.file), es) && s'.file == FileFor(es))
  }

  class NfsServer {
    const fates: nat -> Fate
    var clock: nat
    var live: map<Pair, string>
    var file: Option<string>
    var portlist: seq<string>

    constructor (fates: nat -> Fate, live: map<Pair, string>, file: Option<string>, portlist: seq<string>)
      ensures this.fates == fates && this.live == live && this.file == file && this.portlist == portlist && clock == 0
    {
      this.fates, this.live, this.file, this.portlist, clock := fates, live, file, portlist, 0;
    }

    ghost function Value(): Table
      reads this
    {
      Table(live, file)
    }

    /** From now on every command works. */
    ghost predicate Quiet()
      reads this
    {
      forall t :: t >= clock ==> fates(t).Done?
    }

    /** From now on every command is refused. */
    ghost predicate Refusing()
      reads this
    {
      forall t :: t >= clock ==> fates(t).Refused?
    }

    method Tick() returns (fate: Fate)
      modifies this`clock
      ensures clock == old(clock) + 1 && fate == fates(old(clock))
      ensures old(Quiet()) ==> Quiet() && fate.Done?
      ensures old(Refusing()) ==> Refusing() && fate.Refused?
    {
      fate := fates(clock);
      clock := clock + 1;
    }

    /** `exportfs -u` or `exportfs -o`, folded into the status so far. */
    method Exportfs(p: Pair, opts: Option<string>, acc: Option<Status>) returns (more: Option<Status>, gone: bool)
      modifies this`clock, this`live
      ensures SameOutside(old(live), live, {p})
      ensures !gone && NoFailure(more) ==>
                NoFailure(acc) && live == if opts.None? then old(live) - {p} else old(live)[p := opts.value]
      ensures old(Quiet()) ==> Quiet() && !gone && (NoFailure(acc) ==> NoFailure(more))
      ensures old(Refusing()) ==> Refusing() && live == old(live)
      ensures more.Some?
    {
      var fate := Tick();
      if Took(fate) {
        live := if opts.None? then live - {p} else live[p := opts.value];
      }
      gone := fate.Gone?;
      more := Some(Fold(acc, if fate.Done? then Success else Status.Failed));
    }

    method UnexportAll(previous: seq<Pair>, want: set<Pair>) returns (acc: Option<Status>, gone: bool)
      modifies this`clock, this`live
      ensures SameOutside(old(live), live, Dropped(previous, want))
      ensures !gone && NoFailure(acc) ==> live == old(live) - Dropped(previous, want)
      ensures old(Quiet()) ==> Quiet() && !gone && NoFailure(acc)
      ensures old(Refusing()) ==> Refusing() && live == old(live)
    {
      acc, gone := None, false;
      assert live - Dropped(previous[..0], want) == live;
      for i := 0 to |previous|
        invariant SameOutside(old(live), live, Dropped(previous[..i], want))
        invariant NoFailure(acc) ==> live == old(live) - Dropped(previous[..i], want)
        invariant !gone && (old(Quiet()) ==> Quiet() && NoFailure(acc))
        invariant old(Refusing()) ==> Refusing() && live == old(live)
      {
        var p := previous[i];
        assert Dropped(previous[..i + 1], want) == Dropped(previous[..i], want) + if p in want then {} else {p};
        if p !in want {
          acc, gone := Exportfs(p, None, acc);
          if gone {
            return;
          }
        }
      }
      assert previous[..|previous|] == previous;
    }

    method ExportClients(e: Export, before: Option<Status>) returns (acc: Option<Status>, gone: bool)
      modifies this`clock, this`live
      ensures SameOutside(old(live), live, OptsOf(e).Keys)
      ensures !gone && NoFailure(acc) ==> NoFailure(before) && live == old(live) + OptsOf(e)
      ensures old(Quiet()) ==> Quiet() && !gone && (NoFailure(before) ==> NoFailure(acc))
      ensures before.Some? ==> acc.Some?
      ensures old(Refusing()) ==> Refusing() && live == old(live)
    {
      acc, gone := before, false;
      for i := 0 to |e.clients|
        invariant SameOutside(old(live), live, OptsOf(e).Keys)
        invariant NoFailure(acc) ==>
                    NoFailure(before) && live == old(live) + ClientOpts(e.path, e.fsid, e.clients[..i])
        invariant !gone && (old(Quiet()) ==> Quiet() && (NoFailure(before) ==> NoFailure(acc)))
        invariant before.Some? ==> acc.Some?
        invariant old(Refusing()) ==> Refusing() && live == old(live)
      {
        var c := e.clients[i];
        ClientHasOpts(e.path, e.fsid, e.clients, i);
        OneMoreClient(old(live), e.path, e.fsid, e.clients, i);
        ghost var here := live;
        acc, gone := Exportfs((c.name, e.path), Some(Opts(c.rw, e.fsid)), acc);
        OutsideBoth(old(live), here, live, {(c.name, e.path)}, OptsOf(e).Keys);
        if gone {
          return;
        }
      }
      assert e.clients[..|e.clients|] == e.clients;
    }

    method ExportAll(es: seq<Export>, before: Option<Status>) returns (acc: Option<Status>, gone: bool)
      modifies this`clock, this`live
      ensures SameOutside(old(live), live, WantedOpts(es).Keys)
      ensures !gone && NoFailure(acc) ==> NoFailure(before) && live == old(live) + WantedOpts(es)
      ensures old(Quiet()) ==> Quiet() && !gone && (NoFailure(before) ==> NoFailure(acc))
      ensures before.Some? ==> acc.Some?
      ensures old(Refusing()) ==> Refusing() && live == old(live)
    {
      acc, gone := before, false;
      for i := 0 to |es|
        invariant SameOutside(old(live), live, WantedOpts(es).Keys)
        invariant NoFailure(acc) ==> NoFailure(before) && live == old(live) + WantedOpts(es[..i])
        invariant !gone && (old(Quiet()) ==> Quiet() && (NoFailure(before) ==> NoFailure(acc)))
        invariant before.Some? ==> acc.Some?
        invariant old(Refusing()) ==> Refusing() && live == old(live)
      {
        ExportHasOpts(es, i);
        OneMoreExport(old(live), es, i);
        ghost var here := live;
        acc, gone := ExportClients(es[i], acc);
        OutsideBoth(old(live), here, live, OptsOf(es[i]).Keys, WantedOpts(es).Keys);
        if gone {
          return;
        }
      }
      assert es[..|es|] == es;
    }

    /** Writes the file in one step, or removes it when nothing is wanted. */
    method Persist(es: seq<Export>) returns (fate: Fate)
      modifies this`clock, this`file
      ensures file == if Took(fate) then FileFor(es) else old(file)
      ensures clock == old(clock) + 1 && fate == fates(old(clock))
      ensures old(Quiet()) ==> Quiet() && fate.Done?
    {
      var text := RenderExports(es);
      fate := Tick();
      if Took(fate) {
        file := if es == [] then None else Some(text);
      }
    }

    /** One listener per port, whatever else is listed. */
    method EnsureListener(port: nat) returns (fate: Fate)
      modifies this`clock, this`portlist
      ensures old(portlist) <= portlist
      ensures fate.Done? ==> "rdma " + Print(port) in portlist
      ensures "rdma " + Print(port) in old(portlist) ==> portlist == old(portlist)
      ensures old(Quiet()) ==> Quiet() && fate.Done?
      ensures old(Refusing()) ==> Refusing()
    {
      var line := "rdma " + Print(port);
      fate := Tick();
      if line !in portlist && Took(fate) {
        portlist := portlist + [line];
      }
    }

    /** The server is started and listens for RDMA before anything is exported. */
    method StartListening(port: nat, before: Option<Status>) returns (acc: Option<Status>, gone: bool)
      modifies this`clock, this`portlist
      ensures old(portlist) <= portlist && acc.Some?
      ensures !gone && NoFailure(acc) ==> NoFailure(before) && "rdma " + Print(port) in portlist
      ensures old(Quiet()) ==> Quiet() && !gone && (NoFailure(before) ==> NoFailure(acc))
      ensures old(Refusing()) ==> Refusing()
    {
      var fate := Tick();
      acc := Some(Fold(before, if fate.Done? then Success else Status.Failed));
      gone := fate.Gone?;
      if !gone {
        fate := EnsureListener(port);
        gone := fate.Gone?;
        if !fate.Done? {
          acc := Some(Fold(acc, Status.Failed));
        }
      }
    }

    /** The part of an apply after the file: first what goes, then what comes. */
    method ApplyTable(previous: seq<Pair>, es: seq<Export>, port: nat) returns (status: Option<Status>)
      modifies this`clock, this`live, this`portlist
      ensures SameOutside(old(live), live, Dropped(previous, Wanted(es)) + Wanted(es))
      ensures Succeeded(status) ==> live == Target(old(live), previous, es)
      ensures Succeeded(status) && es != [] ==> "rdma " + Print(port) in portlist
      ensures old(portlist) <= portlist
      ensures old(Quiet()) ==> Succeeded(status)
      ensures old(Refusing()) ==> live == old(live)
    {
      WantedOptsKeys(es);
      var acc, gone := UnexportAll(previous, Wanted(es));
      if gone {
        return None;
      }
      if es == [] {
        return Some(if acc.None? then Success else acc.value);
      }
      acc, gone := StartListening(port, acc);
      if gone {
        return None;
      }
      acc, gone := ExportAll(es, acc);
      status := if gone then None else acc;
    }

    /** A pair the daemon neither managed nor wants is never touched, whatever fails. A
        status other than failed means the whole change was made; when every command
        works that is what happens. */
    method Apply(es: seq<Export>, port: nat) returns (status: Option<Status>)
      modifies this
      ensures Applied(old(Value()), Value(), es, Succeeded(status))
      ensures Succeeded(status) && es != [] ==> "rdma " + Print(port) in portlist
      ensures old(portlist) <= portlist
      ensures old(Quiet()) ==> Succeeded(status)
      // The file is rewritten before the table is touched.
      ensures fates(old(clock)).Done? && (forall t :: t > old(clock) ==> fates(t).Refused?) ==>
                live == old(live) && file == FileFor(es)
    {
      var previous := ReadManaged(file);
      var fate := Persist(es);
      if fate.Done? {
        status := ApplyTable(previous, es, port);
      } else {
        status := if fate.Gone? then None else Some(Status.Failed);
      }
    }
  }

  // ---- One apply after another ----

  /** What is listed is what was exported last: exactly the wanted pairs. */
  lemma ListingOf(es: seq<Export>, p: Pair)
    requires ValidExports(es)
    ensures p in Listing(FileFor(es)) <==> p in Wanted(es)
  {
    if es != [] {
      FileRoundTrip(es);
    }
  }

  /** Of a pair that is not wanted, an apply that succeeds leaves what was there and not
      listed in the file; of a wanted one, its options. */
  lemma SuccessfulApply(s: Table, s': Table, es: seq<Export>, p: Pair)
    requires Applied(s, s', es, true)
    ensures WantedOpts(es).Keys == Wanted(es)
    ensures p in WantedOpts(es) ==> p in s'.live && s'.live[p] == WantedOpts(es)[p]
    ensures p !in Wanted(es) ==>
              && (p in s'.live <==> p in s.live && p !in Listing(s.file))
              && (p in s'.live ==> s'.live[p] == s.live[p])
  {
    WantedOptsKeys(es);
  }

  /** After an apply that succeeded, the next one that does takes away exactly what is no
      longer wanted, and never a pair that neither apply nor the file before named. */
  lemma NextApply(s: Table, s': Table, s'': Table, es: seq<Export>, next: seq<Export>, p: Pair)
    requires ValidExports(es) && Applied(s, s', es, true) && Applied(s', s'', next, true)
    ensures p in Wanted(next) ==> p in s''.live
    ensures p !in Wanted(next) && (p in Wanted(es) || p in Listing(s.file)) ==> p !in s''.live
    ensures p !in Wanted(next) && p !in Wanted(es) && p !in Listing(s.file) ==>
              ((p in s''.live <==> p in s.live) && (p in s.live ==> s''.live[p] == s.live[p]))
  {
    SuccessfulApply(s, s', es, p);
    SuccessfulApply(s', s'', next, p);
    ListingOf(es, p);
  }

  /** Applying the same exports again changes nothing. */
  lemma AgainIsSame(s: Table, s': Table, s'': Table, es: seq<Export>)
    requires ValidExports(es) && Applied(s, s', es, true) && Applied(s', s'', es, true)
    ensures s'' == s'
  {
    forall p ensures (p in s''.live <==> p in s'.live) && (p in s'.live ==> s''.live[p] == s'.live[p]) {
      SuccessfulApply(s, s', es, p);
      SuccessfulApply(s', s'', es, p);
      ListingOf(es, p);
    }
    assert s''.live == s'.live;
  }

  // ---- Applies that fail ----

  datatype Attempt = Attempt(exports: seq<Export>, ok: bool)

  ghost predicate Run(states: seq<Table>, attempts: seq<Attempt>) {
    && |states| == |attempts| + 1
    && forall i :: 0 <= i < |attempts| ==>
         ValidExports(attempts[i].exports) && Applied(states[i], states[i + 1], attempts[i].exports, attempts[i].ok)
  }

  /** A live pair that is neither listed nor wanted outlasts every later apply, failed or
      not, until one wants it. */
  lemma {:induction false} UnlistedIsKept(states: seq<Table>, attempts: seq<Attempt>, i: nat, j: nat, p: Pair)
    requires Run(states, attempts) && i <= j < |states|
    requires p in states[i].live && p !in Listing(states[i].file)
    requires forall k :: i <= k < j ==> p !in Wanted(attempts[k].exports)
    ensures p in states[j].live && states[j].live[p] == states[i].live[p] && p !in Listing(states[j].file)
    decreases j
  {
    if i < j {
      UnlistedIsKept(states, attempts, i, j - 1, p);
      assert Applied(states[j - 1], states[j], attempts[j - 1].exports, attempts[j - 1].ok);
      ListingOf(attempts[j - 1].exports, p);
    }
  }

  /** A pair whose removal failed after the file was rewritten is forgotten: no retry and
      no later apply takes it away. */
  lemma FailedRemovalIsForgotten(states: seq<Table>, attempts: seq<Attempt>, i: nat, j: nat, p: Pair)
    requires Run(states, attempts) && i < j < |states|
    requires states[i + 1].file == FileFor(attempts[i].exports) && p in states[i + 1].live
    requires forall k :: i <= k < j ==> p !in Wanted(attempts[k].exports)
    ensures p in states[j].live && states[j].live[p] == states[i + 1].live[p]
  {
    ListingOf(attempts[i].exports, p);
    UnlistedIsKept(states, attempts, i + 1, j, p);
  }

  /** A retry that succeeds removes a pair whose removal failed if and only if the failed
      apply had not come to rewrite the file. */
  lemma RetryRemovesIff(s: Table, mid: Table, s': Table, es: seq<Export>, p: Pair)
    requires ValidExports(es) && Applied(s, mid, es, false) && Applied(mid, s', es, true)
    requires p in Listing(s.file) && p in mid.live && p !in Wanted(es)
    ensures p !in s'.live <==> mid.file != FileFor(es)
  {
    ListingOf(es, p);
    SuccessfulApply(mid, s', es, p);
  }

  /** As when nothing but the file can be written: whoever was exported stays exported,
      and is listed no more. */
  method RemovalFails(es: seq<Export>) returns (server: NfsServer, status: Option<Status>)
    requires ValidExports(es)
    ensures fresh(server) && server.file == None
    ensures forall p :: p in Wanted(es) ==> p in server.live && !Succeeded(status)
  {
    server := new NfsServer(t => if t == 0 then Done else Refused, WantedOpts(es), FileFor(es), []);
    WantedOptsKeys(es);
    status := server.Apply([], 0);
    forall p | p in Wanted(es) ensures p in Listing(FileFor(es)) && p !in Wanted([]) {
      ListingOf(es, p);
    }
  }
}
