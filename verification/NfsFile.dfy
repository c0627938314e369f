/** The exports file the daemon owns: how it is printed and read back. */
module NfsFile {
  import opened Options
  import opened Validate
  import opened Decimals

  datatype Client = Client(name: string, rw: bool)

  datatype Export = Export(path: string, fsid: nat, clients: seq<Client>)

  /** A client and a path. */
  type Pair = (string, string)

  predicate ValidExport(e: Export) {
    NfsExportPath(e.path) && forall i :: 0 <= i < |e.clients| ==> NfsClient(e.clients[i].name)
  }

  predicate ValidExports(es: seq<Export>) {
    forall i :: 0 <= i < |es| ==> ValidExport(es[i])
  }

  // ---- Printing ----

  const HEADER := "#" + MANAGED_BY + DO_NOT_EDIT + OVERWRITTEN
  const MANAGED_BY := " Managed by greendotrdma"
  const DO_NOT_EDIT := " — do not edit;"
  const OVERWRITTEN := " changes are overwritten."

  function Opts(rw: bool, fsid: nat): string {
    (if rw then "rw" else "ro") + ",sync,no_subtree_check,fsid=" + Print(fsid)
  }

  function Entry(c: Client, fsid: nat): string {
    c.name + "(" + Opts(c.rw, fsid) + ")"
  }

  function Entries(cs: seq<Client>, fsid: nat): string {
    if cs == [] then "" else Entries(cs[..|cs| - 1], fsid) + " " + Entry(cs[|cs| - 1], fsid)
  }

  function Line(e: Export): string {
    e.path + Entries(e.clients, e.fsid)
  }

  /** An export without clients is not an export. */
  function LineOf(e: Export): string {
    if e.clients == [] then "" else Line(e) + "\n"
  }

  function Rendered(es: seq<Export>): string {
    if es == [] then HEADER + "\n" else Rendered(es[..|es| - 1]) + LineOf(es[|es| - 1])
  }

  method RenderLine(e: Export) returns (line: string)
    ensures line == Line(e)
  {
    var entries := "";
    for i := 0 to |e.clients|
      invariant entries == Entries(e.clients[..i], e.fsid)
    {
      assert e.clients[..i + 1][..i] == e.clients[..i];
      entries := entries + " " + Entry(e.clients[i], e.fsid);
    }
    assert e.clients[..|e.clients|] == e.clients;
    line := e.path + entries;
  }

  method RenderExports(es: seq<Export>) returns (out: string)
    ensures out == Rendered(es)
  {
    out := HEADER + "\n";
    for i := 0 to |es|
      invariant out == Rendered(es[..i])
    {
      assert es[..i + 1][..i] == es[..i];
      var line := RenderLine(es[i]);
      out := out + if es[i].clients == [] then "" else line + "\n";
    }
    assert es[..|es|] == es;
  }

  // ---- Reading ----

  predicate IsSpace(c: char) {
    || 0x9 <= c as int <= 0xd || c as int in {0x20, 0x85, 0xa0, 0x1680, 0x2028, 0x2029, 0x202f, 0x205f, 0x3000}
    || 0x2000 <= c as int <= 0x200a
  }

  predicate NoSpace(s: string) {
    forall i :: 0 <= i < |s| ==> !IsSpace(s[i])
  }

  /** The length of the word a text starts with. */
  function WordLength(s: string): (n: nat)
    ensures n <= |s| && (n < |s| ==> IsSpace(s[n])) && NoSpace(s[..n])
  {
    if s == "" || IsSpace(s[0]) then 0
    else
      assert s[1..][..WordLength(s[1..])] == s[1..WordLength(s[1..]) + 1];
      1 + WordLength(s[1..])
  }

  function Words(s: string): seq<string>
    decreases |s|
  {
    if s == "" then []
    else if IsSpace(s[0]) then Words(s[1..])
    else [s[..WordLength(s)]] + Words(s[WordLength(s)..])
  }

  function BeforeParen(s: string): string {
    if s == "" || s[0] == '(' then "" else [s[0]] + BeforeParen(s[1..])
  }

  function TokenPairs(path: string, token: string): seq<Pair> {
    if BeforeParen(token) == "" then [] else [(BeforeParen(token), path)]
  }

  function ClientPairs(path: string, tokens: seq<string>): seq<Pair> {
    if tokens == [] then [] else ClientPairs(path, tokens[..|tokens| - 1]) + TokenPairs(path, tokens[|tokens| - 1])
  }

  /** Comments and blank lines say nothing. */
  function LinePairs(line: string): seq<Pair> {
    var words := Words(line);
    if words == [] || words[0] == "" || words[0][0] == '#' then [] else ClientPairs(words[0], words[1..])
  }

  function Gather<T>(read: string -> seq<T>, lines: seq<string>): seq<T> {
    if lines == [] then [] else Gather(read, lines[..|lines| - 1]) + read(lines[|lines| - 1])
  }

  /** What a file lists, line by line. */
  function Listed<T>(read: string -> seq<T>, text: string): seq<T> {
    Gather(read, Split(text, '\n'))
  }

  function Managed(text: string): seq<Pair> {
    Listed(LinePairs, text)
  }

  method ReadLine(line: string) returns (pairs: seq<Pair>)
    ensures pairs == LinePairs(line)
  {
    pairs := [];
    var words := Words(line);
    if words == [] || words[0] == "" || words[0][0] == '#' {
      return;
    }
    var tokens := words[1..];
    for i := 0 to |tokens|
      invariant pairs == ClientPairs(words[0], tokens[..i])
    {
      assert tokens[..i + 1][..i] == tokens[..i];
      var client := BeforeParen(tokens[i]);
      if client != "" {
        pairs := pairs + [(client, words[0])];
      }
    }
    assert tokens[..|tokens|] == tokens;
  }

  /** A file that cannot be read lists nothing. */
  method ReadManaged(file: Option<string>) returns (pairs: seq<Pair>)
    ensures pairs == if file.None? then [] else Managed(file.value)
  {
    pairs := [];
    if file.None? {
      return;
    }
    var lines := Split(file.value, '\n');
    for i := 0 to |lines|
      invariant pairs == Gather(LinePairs, lines[..i])
    {
      assert lines[..i + 1][..i] == lines[..i];
      var more := ReadLine(lines[i]);
      pairs := pairs + more;
    }
    assert lines[..|lines|] == lines;
  }

  // ---- Reading what was printed ----

  /** The pairs of an export, and of all exports, in order. */
  function PairsOf(path: string, cs: seq<Client>): seq<Pair> {
    if cs == [] then [] else PairsOf(path, cs[..|cs| - 1]) + [(cs[|cs| - 1].name, path)]
  }

  function DesiredPairs(es: seq<Export>): seq<Pair> {
    if es == [] then [] else DesiredPairs(es[..|es| - 1]) + PairsOf(es[|es| - 1].path, es[|es| - 1].clients)
  }

  lemma WordEnds(w: string, rest: string)
    requires w != "" && NoSpace(w) && (rest == "" || IsSpace(rest[0]))
    ensures WordLength(w + rest) == |w|
  {
    var s := w + rest;
    assert forall i :: 0 <= i < |w| ==> s[i] == w[i];
    if |w| == 1 {
      assert s[1..] == rest;
    } else {
      assert s[1..] == w[1..] + rest;
      WordEnds(w[1..], rest);
    }
  }

  /** One more word after a space is one more word. */
  lemma {:induction false} LastWord(s: string, w: string)
    requires w != "" && NoSpace(w)
    ensures Words(s + " " + w) == Words(s) + [w]
    decreases |s|
  {
    var all := s + " " + w;
    if s == "" {
      assert all[1..] == w;
      WordEnds(w, "");
      assert w + "" == w;
    } else if IsSpace(s[0]) {
      assert all[1..] == s[1..] + " " + w;
      LastWord(s[1..], w);
    } else {
      var n := WordLength(s);
      WordEnds(s[..n], s[n..] + " " + w);
      assert s[..n] + (s[n..] + " " + w) == all;
      assert all[..n] == s[..n] && all[n..] == s[n..] + " " + w;
      LastWord(s[n..], w);
    }
  }

  lemma OptsAreNoSpace(rw: bool, fsid: nat)
    ensures NoSpace(Opts(rw, fsid))
  {
  }

  lemma {:induction false} BeforeIsClient(name: string, rest: string)
    requires '(' !in name
    ensures BeforeParen(name + "(" + rest) == name
  {
    var s := name + "(" + rest;
    if name != "" {
      assert s[1..] == name[1..] + "(" + rest;
      assert s[0] in name;
      assert forall c :: c in name[1..] ==> c in name;
      BeforeIsClient(name[1..], rest);
    }
  }

  lemma EntryIsWord(c: Client, fsid: nat)
    requires NfsClient(c.name)
    ensures NoSpace(Entry(c, fsid)) && Entry(c, fsid) != "" && BeforeParen(Entry(c, fsid)) == c.name
  {
    OptsAreNoSpace(c.rw, fsid);
    BeforeIsClient(c.name, Opts(c.rw, fsid) + ")");
    assert Entry(c, fsid) == c.name + "(" + (Opts(c.rw, fsid) + ")");
  }

  lemma {:induction false} PathIsWord(path: string)
    requires NfsExportPath(path)
    ensures NoSpace(path)
  {
    forall i | 0 <= i < |path| ensures !IsSpace(path[i]) {
      if i > 0 && path[i] != '/' {
        var pieces := Split(path[1..], '/');
        assert path[i] == path[1..][i - 1];
        SplitKeeps(path[1..], '/', path[i]);
        var k :| 0 <= k < |pieces| && path[i] in pieces[k];
        assert pieces[k] in pieces;
      }
    }
  }

  lemma OneMoreToken(path: string, tokens: seq<string>, token: string)
    ensures ClientPairs(path, tokens + [token]) == ClientPairs(path, tokens) + TokenPairs(path, token)
  {
  }

  lemma OneMoreWord(s: string, path: string, tokens: seq<string>, w: string)
    requires Words(s) == [path] + tokens && w != "" && NoSpace(w)
    ensures Words(s + " " + w) == [path] + (tokens + [w])
  {
    LastWord(s, w);
  }

  lemma OneWord(w: string)
    requires w != "" && NoSpace(w)
    ensures Words(w) == [w]
  {
    WordEnds(w, "");
    assert w + "" == w;
  }

  lemma LineMore(path: string, cs: seq<Client>, fsid: nat)
    requires cs != []
    ensures path + Entries(cs, fsid) == path + Entries(cs[..|cs| - 1], fsid) + " " + Entry(cs[|cs| - 1], fsid)
  {
  }

  lemma LineReadMore(path: string, cs: seq<Client>, fsid: nat, before: seq<string>)
    requires cs != [] && NfsClient(cs[|cs| - 1].name)
    requires Words(path + Entries(cs[..|cs| - 1], fsid)) == [path] + before
    ensures Words(path + Entries(cs, fsid)) == [path] + (before + [Entry(cs[|cs| - 1], fsid)])
    ensures ClientPairs(path, before + [Entry(cs[|cs| - 1], fsid)]) ==
            ClientPairs(path, before) + [(cs[|cs| - 1].name, path)]
  {
    var rest, last := cs[..|cs| - 1], cs[|cs| - 1];
    EntryIsWord(last, fsid);
    OneMoreWord(path + Entries(rest, fsid), path, before, Entry(last, fsid));
    LineMore(path, cs, fsid);
    OneMoreToken(path, before, Entry(last, fsid));
  }

  /** A printed line reads as its path and its clients. */
  lemma {:induction false} LineRead(path: string, cs: seq<Client>, fsid: nat) returns (tokens: seq<string>)
    requires path != "" && NoSpace(path) && forall i :: 0 <= i < |cs| ==> NfsClient(cs[i].name)
    ensures Words(path + Entries(cs, fsid)) == [path] + tokens
    ensures ClientPairs(path, tokens) == PairsOf(path, cs)
    ensures |tokens| == |cs| && forall i :: 0 <= i < |cs| ==> tokens[i] == Entry(cs[i], fsid)
  {
    if cs == [] {
      OneWord(path);
      assert path + "" == path;
      tokens := [];
    } else {
      var rest, last := cs[..|cs| - 1], cs[|cs| - 1];
      var before := LineRead(path, rest, fsid);
      LineReadMore(path, cs, fsid, before);
      tokens := before + [Entry(last, fsid)];
    }
  }

  lemma LinePairsOf(e: Export)
    requires ValidExport(e)
    ensures LinePairs(Line(e)) == PairsOf(e.path, e.clients)
  {
    PathIsWord(e.path);
    var tokens := LineRead(e.path, e.clients, e.fsid);
    assert ([e.path] + tokens)[1..] == tokens;
  }

  lemma {:induction false} EntriesAreOneLine(cs: seq<Client>, fsid: nat)
    requires forall i :: 0 <= i < |cs| ==> NfsClient(cs[i].name)
    ensures '\n' !in Entries(cs, fsid)
  {
    if cs != [] {
      EntriesAreOneLine(cs[..|cs| - 1], fsid);
      EntryIsWord(cs[|cs| - 1], fsid);
    }
  }

  lemma LineIsOneLine(e: Export)
    requires ValidExport(e)
    ensures '\n' !in Line(e)
  {
    PathIsWord(e.path);
    EntriesAreOneLine(e.clients, e.fsid);
  }

  lemma GatherMore<T>(read: string -> seq<T>, lines: seq<string>, line: string)
    ensures Gather(read, lines + [line]) == Gather(read, lines) + read(line)
  {
  }

  lemma {:induction false} GatherJoined<T>(read: string -> seq<T>, a: seq<string>, b: seq<string>)
    ensures Gather(read, a + b) == Gather(read, a) + Gather(read, b)
  {
    if b == [] {
      assert a + b == a;
    } else {
      var rest, last := b[..|b| - 1], b[|b| - 1];
      calc {
        Gather(read, a + b);
        { assert a + b == (a + rest) + [last]; }
        Gather(read, (a + rest) + [last]);
        { GatherMore(read, a + rest, last); }
        Gather(read, a + rest) + read(last);
        { GatherJoined(read, a, rest); }
        (Gather(read, a) + Gather(read, rest)) + read(last);
        Gather(read, a) + (Gather(read, rest) + read(last));
        { GatherMore(read, rest, last); assert rest + [last] == b; }
        Gather(read, a) + Gather(read, b);
      }
    }
  }

  lemma ListedJoined<T>(read: string -> seq<T>, a: string, b: string)
    ensures Listed(read, a + "\n" + b) == Listed(read, a) + Listed(read, b)
  {
    SplitJoined(a, '\n', b);
    GatherJoined(read, Split(a, '\n'), Split(b, '\n'));
  }

  lemma ListedOne<T>(read: string -> seq<T>, line: string)
    requires '\n' !in line
    ensures Listed(read, line) == read(line)
  {
    SplitOne(line, '\n');
    assert [line][..0] == [];
  }

  lemma ListedEnded<T>(read: string -> seq<T>, a: string)
    requires read("") == []
    ensures Listed(read, a + "\n") == Listed(read, a)
  {
    ListedJoined(read, a, "");
    ListedOne(read, "");
    assert a + "\n" + "" == a + "\n";
  }

  lemma AppendLine<T>(read: string -> seq<T>, a: string, line: string)
    requires '\n' !in line && read("") == []
    ensures Listed(read, a + "\n" + (line + "\n")) == Listed(read, a + "\n") + read(line)
  {
    ListedEnded(read, a);
    ListedJoined(read, a, line + "\n");
    ListedEnded(read, line);
    ListedOne(read, line);
  }

  lemma HeaderIsOneLine()
    ensures '\n' !in HEADER
  {
  }

  lemma CommentSaysNothing(s: string)
    requires s != "" && s[0] == '#'
    ensures LinePairs(s) == []
  {
  }

  lemma HeaderSaysNothing()
    ensures Managed(HEADER + "\n") == []
  {
    CommentSaysNothing(HEADER);
    HeaderIsOneLine();
    ListedOne(LinePairs, HEADER);
    ListedEnded(LinePairs, HEADER);
  }

  lemma {:induction false} RenderedEnds(es: seq<Export>) returns (body: string)
    ensures Rendered(es) == body + "\n"
  {
    if es == [] {
      body := HEADER;
    } else {
      var rest := Rendered(es[..|es| - 1]);
      body := RenderedEnds(es[..|es| - 1]);
      if es[|es| - 1].clients != [] {
        body := rest + Line(es[|es| - 1]);
      } else {
        assert rest + "" == rest;
      }
    }
  }

  /** Reading back what was printed gives exactly the pairs, in order. */
  lemma {:induction false} FileRoundTrip(es: seq<Export>)
    requires ValidExports(es)
    ensures Managed(Rendered(es)) == DesiredPairs(es)
  {
    if es == [] {
      HeaderSaysNothing();
    } else {
      var rest, e := es[..|es| - 1], es[|es| - 1];
      FileRoundTrip(rest);
      var body := RenderedEnds(rest);
      if e.clients == [] {
        assert Rendered(rest) + "" == Rendered(rest);
        assert DesiredPairs(rest) + [] == DesiredPairs(rest);
      } else {
        LineIsOneLine(e);
        LinePairsOf(e);
        AppendLine(LinePairs, body, Line(e));
      }
    }
  }
}
