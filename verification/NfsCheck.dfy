/** The drift check of the NFS area: it reads the daemon's own file again, with the
    access mode of each client, and looks up the wanted paths in the live table. */
module NfsCheck {
  import opened Options
  import opened Statuses
  import opened Commands
  import opened Validate
  import opened Decimals
  import opened NfsFile
  import opened NfsApply

  // ---- The daemon's file, with access modes ----

  /** A path, a client, and whether it may write. */
  type Spec = (string, string, bool)

  function AfterParen(s: string): string {
    if s == "" then "" else if s[0] == '(' then s[1..] else AfterParen(s[1..])
  }

  function TrimParens(s: string): string {
    if s != "" && s[|s| - 1] == ')' then TrimParens(s[..|s| - 1]) else s
  }

  predicate SaysRw(token: string) {
    "rw" in Split(TrimParens(AfterParen(token)), ',')
  }

  function TokenSpecs(path: string, token: string): seq<Spec> {
    if BeforeParen(token) == "" then [] else [(path, BeforeParen(token), SaysRw(token))]
  }

  function ClientSpecs(path: string, tokens: seq<string>): seq<Spec> {
    if tokens == [] then [] else ClientSpecs(path, tokens[..|tokens| - 1]) + TokenSpecs(path, tokens[|tokens| - 1])
  }

  function LineSpecs(line: string): seq<Spec> {
    var words := Words(line);
    if words == [] || words[0] == "" || words[0][0] == '#' then [] else ClientSpecs(words[0], words[1..])
  }

  function ManagedSpecs(file: Option<string>): set<Spec> {
    if file.None? then {} else set s | s in Listed(LineSpecs, file.value)
  }

  function SpecsOf(path: string, cs: seq<Client>): seq<Spec> {
    if cs == [] then [] else SpecsOf(path, cs[..|cs| - 1]) + [(path, cs[|cs| - 1].name, cs[|cs| - 1].rw)]
  }

  function DesiredSpecs(es: seq<Export>): seq<Spec> {
    if es == [] then [] else DesiredSpecs(es[..|es| - 1]) + SpecsOf(es[|es| - 1].path, es[|es| - 1].clients)
  }

  function WantedSpecs(es: seq<Export>): set<Spec> {
    set s | s in DesiredSpecs(es)
  }

  lemma {:induction false} AfterIsOptions(name: string, rest: string)
    requires '(' !in name
    ensures AfterParen(name + "(" + rest) == rest
  {
    var s := name + "(" + rest;
    if name == "" {
      assert s[1..] == rest;
    } else {
      assert s[1..] == name[1..] + "(" + rest;
      assert s[0] in name;
      assert forall c :: c in name[1..] ==> c in name;
      AfterIsOptions(name[1..], rest);
    }
  }

  lemma Trimmed(s: string)
    requires s != "" && s[|s| - 1] != ')'
    ensures TrimParens(s + ")") == s
  {
    assert (s + ")")[..|s|] == s;
  }

  lemma OptionsEnd(rw: bool, fsid: nat)
    ensures Opts(rw, fsid) != "" && Opts(rw, fsid)[|Opts(rw, fsid)| - 1] != ')'
  {
    var s, n := Opts(rw, fsid), Print(fsid);
    assert s[|s| - 1] == n[|n| - 1];
  }

  lemma FourWords(a: string, b: string, c: string, d: string)
    requires ',' !in a && ',' !in b && ',' !in c && ',' !in d
    ensures Split(a + [','] + (b + [','] + (c + [','] + d)), ',') == [a, b, c, d]
  {
    SplitOne(a, ',');
    SplitOne(b, ',');
    SplitOne(c, ',');
    SplitOne(d, ',');
    SplitJoined(c, ',', d);
    SplitJoined(b, ',', c + [','] + d);
    SplitJoined(a, ',', b + [','] + (c + [','] + d));
  }

  lemma FixedOptions()
    ensures ",sync,no_subtree_check,fsid=" == [','] + ("sync" + [','] + ("no_subtree_check" + [','] + "fsid="))
    ensures ',' !in "rw" && ',' !in "ro" && ',' !in "sync" && ',' !in "no_subtree_check" && ',' !in "fsid="
  {
  }

  lemma Regrouped(a: string, b: string, c: string, d: string, e: string)
    ensures a + ([','] + (b + [','] + (c + [','] + d))) + e == a + [','] + (b + [','] + (c + [','] + (d + e)))
  {
  }

  /** The options are four words, of which the first is the access mode. */
  lemma OptionWords(rw: bool, fsid: nat)
    ensures Split(Opts(rw, fsid), ',') ==
            [if rw then "rw" else "ro", "sync", "no_subtree_check", "fsid=" + Print(fsid)]
  {
    var mode, n := if rw then "rw" else "ro", Print(fsid);
    FixedOptions();
    assert ',' !in n;
    Regrouped(mode, "sync", "no_subtree_check", "fsid=", n);
    FourWords(mode, "sync", "no_subtree_check", "fsid=" + n);
  }

  lemma EntryTells(c: Client, fsid: nat)
    requires NfsClient(c.name)
    ensures SaysRw(Entry(c, fsid)) == c.rw
  {
    AfterIsOptions(c.name, Opts(c.rw, fsid) + ")");
    assert Entry(c, fsid) == c.name + "(" + (Opts(c.rw, fsid) + ")");
    OptionsEnd(c.rw, fsid);
    Trimmed(Opts(c.rw, fsid));
    OptionWords(c.rw, fsid);
    assert "fsid=" + Print(fsid) != "rw";
  }

  lemma {:induction false} TokensTell(path: string, cs: seq<Client>, fsid: nat, tokens: seq<string>)
    requires |tokens| == |cs| && forall i :: 0 <= i < |cs| ==> tokens[i] == Entry(cs[i], fsid) && NfsClient(cs[i].name)
    ensures ClientSpecs(path, tokens) == SpecsOf(path, cs)
  {
    if cs != [] {
      var n := |cs| - 1;
      TokensTell(path, cs[..n], fsid, tokens[..n]);
      EntryIsWord(cs[n], fsid);
      EntryTells(cs[n], fsid);
    }
  }

  lemma LineSpecsOf(e: Export)
    requires ValidExport(e)
    ensures LineSpecs(Line(e)) == SpecsOf(e.path, e.clients)
  {
    PathIsWord(e.path);
    var tokens := LineRead(e.path, e.clients, e.fsid);
    assert ([e.path] + tokens)[1..] == tokens;
    TokensTell(e.path, e.clients, e.fsid, tokens);
  }

  lemma HeaderHasNoSpecs()
    ensures Listed(LineSpecs, HEADER + "\n") == []
  {
    HeaderIsOneLine();
    ListedOne(LineSpecs, HEADER);
    ListedEnded(LineSpecs, HEADER);
    assert LineSpecs(HEADER) == [] by {
      HeaderIsComment();
    }
  }

  lemma HeaderIsComment()
    ensures Words(HEADER) != [] && Words(HEADER)[0] != "" && Words(HEADER)[0][0] == '#'
  {
  }

  /** What was printed reads back with its access modes. */
  lemma {:induction false} SpecsRoundTrip(es: seq<Export>)
    requires ValidExports(es)
    ensures Listed(LineSpecs, Rendered(es)) == DesiredSpecs(es)
  {
    if es == [] {
      HeaderHasNoSpecs();
    } else {
      var rest, e := es[..|es| - 1], es[|es| - 1];
      SpecsRoundTrip(rest);
      var body := RenderedEnds(rest);
      if e.clients == [] {
        assert Rendered(rest) + "" == Rendered(rest);
        assert DesiredSpecs(rest) + [] == DesiredSpecs(rest);
      } else {
        LineIsOneLine(e);
        LineSpecsOf(e);
        AppendLine(LineSpecs, body, Line(e));
      }
    }
  }

  // ---- The check ----

  /** The path is in the live table, whoever it is exported to. */
  predicate Exported(live: map<Pair, string>, path: string) {
    exists p :: p in live && p.1 == path
  }

  /** A port number of sixteen bits, with or without a plus sign. */
  function PortNumber(s: string): Option<nat> {
    var n := Parse(if s != "" && s[0] == '+' then s[1..] else s);
    if n.Some? && n.value < 0x1_0000 then n else None
  }

  predicate IsRdma(line: string) {
    var words := Words(line);
    |words| >= 2 && words[0] == "rdma" && PortNumber(words[1]).Some?
  }

  predicate Listening(portlist: seq<string>) {
    exists i :: 0 <= i < |portlist| && IsRdma(portlist[i])
  }

  /** The file says what is wanted, every wanted path is exported, and there is an RDMA
      listener if anything is. */
  predicate NfsSatisfied(es: seq<Export>, table: Table, portlist: seq<string>) {
    && ManagedSpecs(table.file) == WantedSpecs(es)
    && (forall i :: 0 <= i < |es| ==> Exported(table.live, es[i].path))
    && (es != [] ==> Listening(portlist))
  }

  /** Once the file is written for these exports, only the live paths and the listener
      count. */
  lemma CheckIff(es: seq<Export>, table: Table, portlist: seq<string>)
    requires ValidExports(es) && table.file == FileFor(es)
    ensures NfsSatisfied(es, table, portlist) <==>
            && (forall i :: 0 <= i < |es| ==> Exported(table.live, es[i].path))
            && (es != [] ==> Listening(portlist))
  {
    SpecsRoundTrip(es);
  }

  lemma RdmaWords(n: string)
    requires n != "" && NoSpace(n)
    ensures Words("rdma " + n) == ["rdma", n]
  {
    OneWord("rdma");
    LastWord("rdma", n);
    assert "rdma" + " " + n == "rdma " + n;
  }

  lemma PlainNumber(port: nat)
    requires port < 0x1_0000
    ensures PortNumber(Print(port)) == Some(port)
  {
    var n := Print(port);
    PrintParse(port);
    assert IsDigit(n[0]);
  }

  lemma PrintedPort(port: nat)
    requires port < 0x1_0000
    ensures IsRdma("rdma " + Print(port))
  {
    PlainNumber(port);
    RdmaWords(Print(port));
  }

  lemma {:induction false} WantedPath(es: seq<Export>, i: nat)
    requires i < |es| && es[i].clients != []
    ensures (es[i].clients[0].name, es[i].path) in Wanted(es)
  {
    if i < |es| - 1 {
      WantedPath(es[..|es| - 1], i);
    } else {
      FirstPair(es[i].path, es[i].clients);
    }
  }

  lemma {:induction false} FirstPair(path: string, cs: seq<Client>)
    requires cs != []
    ensures (cs[0].name, path) in PairsOf(path, cs)
  {
    if |cs| > 1 {
      FirstPair(path, cs[..|cs| - 1]);
    }
  }

  /** An apply that succeeded passes. The exports are as rendered, none without a client. */
  lemma AppliedPasses(s: Table, s': Table, es: seq<Export>, port: nat, portlist: seq<string>)
    requires ValidExports(es) && forall i :: 0 <= i < |es| ==> es[i].clients != []
    requires Applied(s, s', es, true) && port < 0x1_0000 && (es != [] ==> "rdma " + Print(port) in portlist)
    ensures NfsSatisfied(es, s', portlist)
  {
    CheckIff(es, s', portlist);
    PrintedPort(port);
    WantedOptsKeys(es);
    forall i | 0 <= i < |es| ensures Exported(s'.live, es[i].path) {
      WantedPath(es, i);
      assert (es[i].clients[0].name, es[i].path) in s'.live;
    }
  }

  // ---- The pass ----

  /** The NFS area of a reconcile pass: applied only on drift. */
  method PassNfs(server: NfsServer, es: seq<Export>, port: nat) returns (applied: bool, status: Option<Status>)
    modifies server
    ensures applied <==> !NfsSatisfied(es, old(server.Value()), old(server.portlist))
    ensures !applied ==> server.Value() == old(server.Value()) && server.portlist == old(server.portlist)
    ensures applied ==> Applied(old(server.Value()), server.Value(), es, Succeeded(status))
  {
    applied := !NfsSatisfied(es, Table(server.live, server.file), server.portlist);
    status := Some(Skipped);
    if applied {
      status := server.Apply(es, port);
    }
  }

  /** Of an apply that failed once the file was written: the next pass tries again if and
      only if some wanted path is exported to nobody, or nothing listens. */
  method RetriesIff(server: NfsServer, es: seq<Export>, port: nat) returns (applied: bool, status: Option<Status>)
    requires ValidExports(es) && server.file == FileFor(es)
    modifies server
    ensures applied <==>
            || (exists i :: 0 <= i < |es| && !Exported(old(server.live), es[i].path))
            || (es != [] && !Listening(old(server.portlist)))
    ensures !applied ==> server.Value() == old(server.Value()) && server.portlist == old(server.portlist)
  {
    CheckIff(es, server.Value(), server.portlist);
    applied, status := PassNfs(server, es, port);
  }

  lemma MoreLines(before: seq<string>, after: seq<string>)
    requires before <= after && Listening(before)
    ensures Listening(after)
  {
    var i :| 0 <= i < |before| && IsRdma(before[i]);
    assert after[i] == before[i];
  }

  lemma BothClients(path: string, fsid: nat, a: Client, b: Client)
    requires a.name != b.name && NfsExportPath(path) && NfsClient(a.name) && NfsClient(b.name)
    ensures ValidExports([Export(path, fsid, [a])]) && ValidExports([Export(path, fsid, [a, b])])
    ensures Wanted([Export(path, fsid, [a])]) == {(a.name, path)}
    ensures (b.name, path) in Wanted([Export(path, fsid, [a, b])])
  {
    var one, two := [Export(path, fsid, [a])], [Export(path, fsid, [a, b])];
    assert one[..0] == [] && two[..0] == [];
    assert [a, b][..1] == [a] && [a][..0] == [];
    assert PairsOf(path, [a]) == [(a.name, path)];
    assert DesiredPairs(one) == [(a.name, path)];
  }

  /** As when a second client is added to a path and its export fails: however many passes
      follow, none tries again, and the client is not served. */
  method ClientIsMissed(path: string, fsid: nat, a: Client, b: Client, port: nat, passes: nat)
    returns (server: NfsServer)
    requires a.name != b.name && NfsExportPath(path) && NfsClient(a.name) && NfsClient(b.name) && port < 0x1_0000
    ensures fresh(server)
    ensures var es := [Export(path, fsid, [a, b])];
            && (b.name, path) in Wanted(es) && (b.name, path) !in server.live
            && server.file == FileFor(es) && NfsSatisfied(es, server.Value(), server.portlist)
  {
    var one, two := [Export(path, fsid, [a])], [Export(path, fsid, [a, b])];
    BothClients(path, fsid, a, b);
    PrintedPort(port);
    WantedOptsKeys(one);
    var line := "rdma " + Print(port);
    assert line == [line][0];
    server := new NfsServer(t => if t == 0 then Done else Refused, WantedOpts(one), FileFor(one), [line]);
    assert (a.name, path) in server.live;
    var status := server.Apply(two, port);
    assert Exported(server.live, path);
    MoreLines([line], server.portlist);
    CheckIff(two, server.Value(), server.portlist);
    for n := 0 to passes
      invariant server.file == FileFor(two) && server.live == WantedOpts(one)
      invariant NfsSatisfied(two, server.Value(), server.portlist)
    {
      var applied, more := PassNfs(server, two, port);
    }
  }
}
