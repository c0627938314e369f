/** The volume ids the controller hands out, the datasets they stand for, and the
    daemon's own reading of them. */
module VolumeIds {
  import opened Options
  import opened Nvmet
  import opened Validate
  import Base32

  const IMPORTED_PREFIX := "imp1-"

  // ---- Names and paths ----

  predicate VolumeName(s: string) {
    s != "" && IsAlnum(s[0]) && AllOf(s, c => IsAlnum(c) || c in "._-")
  }

  predicate ValidDatasetPath(path: string) {
    path != "" && forall p :: p in Split(path, '/') ==> VolumeName(p)
  }

  function Replace(s: string, a: char, b: char): (r: string)
    ensures |r| == |s| && forall i :: 0 <= i < |s| ==> r[i] == if s[i] == a then b else s[i]
  {
    seq(|s|, i requires 0 <= i < |s| => if s[i] == a then b else s[i])
  }

  function IdFromDataset(dataset: string): string {
    Replace(dataset, '/', ':')
  }

  function DatasetFromId(id: string): Option<string> {
    var dataset := Replace(id, ':', '/');
    if ':' !in id || !ValidDatasetPath(dataset) then None else Some(dataset)
  }

  // ---- Imported ids ----

  predicate OneByte(s: string) {
    AllOf(s, c => c as int < 256)
  }

  function Bytes(s: string): seq<Base32.Byte>
    requires OneByte(s)
  {
    seq(|s|, i requires 0 <= i < |s| => s[i] as int)
  }

  function Text(bytes: seq<Base32.Byte>): string {
    seq(|bytes|, i requires 0 <= i < |bytes| => bytes[i] as char)
  }

  function EncodeImportId(dataset: string): string
    requires OneByte(dataset)
  {
    IMPORTED_PREFIX + Base32.Encode(Bytes(dataset))
  }

  // ---- Resolving and handing out ----

  datatype VolumeRef = VolumeRef(dataset: string, token: string, imported: bool)

  /** The imported prefix is looked at first, so a corrupt imported id is never read as
      a managed one. */
  function ResolveVolumeId(id: string): Option<VolumeRef> {
    if IMPORTED_PREFIX <= id then
      var raw := Base32.Decode(id[|IMPORTED_PREFIX|..]);
      if raw.None? || !ValidDatasetPath(Text(raw.value)) then None
      else Some(VolumeRef(Text(raw.value), id, true))
    else
      var dataset := DatasetFromId(id);
      if dataset.None? then None else Some(VolumeRef(dataset.value, id, false))
  }

  function NqnOf(id: string): Nqn {
    CSI_NQN_PREFIX + id
  }

  /** The checks of a create request with a name and a parent dataset. */
  function CreateManaged(name: string, parent: string): Option<string> {
    var id := IdFromDataset(parent + "/" + name);
    if !VolumeName(name) || IMPORTED_PREFIX <= name || !ValidDatasetPath(parent) then None
    else if IMPORTED_PREFIX <= id || |NqnOf(id)| > 223 then None
    else Some(id)
  }

  /** The checks of a create request that adopts an existing dataset. */
  function CreateImported(dataset: string): Option<string> {
    if !ValidDatasetPath(dataset) then None
    else
      PathIsPlain(dataset);
      var id := EncodeImportId(dataset);
      if |NqnOf(id)| > 223 then None else Some(id)
  }

  // ---- Which characters a path has ----

  lemma PathCharacters(path: string, c: char)
    requires ValidDatasetPath(path) && c in path
    ensures c == '/' || IsAlnum(c) || c in "._-"
  {
    if c != '/' {
      SplitKeeps(path, '/', c);
      var pieces := Split(path, '/');
      var i :| 0 <= i < |pieces| && c in pieces[i];
      assert pieces[i] in pieces && VolumeName(pieces[i]);
    }
  }

  lemma PathIsPlain(path: string)
    requires ValidDatasetPath(path)
    ensures ':' !in path && OneByte(path)
  {
    if ':' in path {
      PathCharacters(path, ':');
    }
    forall i | 0 <= i < |path| ensures path[i] as int < 256 {
      PathCharacters(path, path[i]);
    }
  }

  // ---- Round trips ----

  /** Only the separator is exchanged, so a path without ':' comes back. */
  lemma Exchanged(path: string)
    requires ':' !in path
    ensures Replace(IdFromDataset(path), ':', '/') == path
    ensures ':' in IdFromDataset(path) <==> '/' in path
  {
  }

  lemma JoinedPath(name: string, parent: string)
    requires VolumeName(name) && ValidDatasetPath(parent)
    ensures ValidDatasetPath(parent + "/" + name)
  {
    assert '/' !in name;
    SplitOne(name, '/');
    SplitJoined(parent, '/', name);
  }

  /** A managed id resolves to the dataset it was made from. */
  lemma ManagedRoundTrip(name: string, parent: string)
    requires CreateManaged(name, parent).Some?
    ensures var id := CreateManaged(name, parent).value;
            ResolveVolumeId(id) == Some(VolumeRef(parent + "/" + name, id, false))
  {
    var dataset := parent + "/" + name;
    JoinedPath(name, parent);
    PathIsPlain(dataset);
    Exchanged(dataset);
    assert dataset[|parent|] == '/';
  }

  lemma TextOfBytes(s: string)
    requires OneByte(s)
    ensures Text(Bytes(s)) == s
  {
  }

  /** An imported id resolves to the dataset it adopts. */
  lemma ImportedRoundTrip(dataset: string)
    requires CreateImported(dataset).Some?
    ensures var id := CreateImported(dataset).value;
            ResolveVolumeId(id) == Some(VolumeRef(dataset, id, true))
  {
    PathIsPlain(dataset);
    Base32.RoundTrip(Bytes(dataset));
    TextOfBytes(dataset);
    var id := EncodeImportId(dataset);
    assert id[|IMPORTED_PREFIX|..] == Base32.Encode(Bytes(dataset));
  }

  /** What an id handed out stands for. */
  ghost predicate HandedOut(id: string, dataset: string, imported: bool) {
    if imported then CreateImported(dataset) == Some(id)
    else exists name, parent :: dataset == parent + "/" + name && CreateManaged(name, parent) == Some(id)
  }

  lemma Resolves(id: string, dataset: string, imported: bool)
    requires HandedOut(id, dataset, imported)
    ensures ResolveVolumeId(id) == Some(VolumeRef(dataset, id, imported))
  {
    if imported {
      ImportedRoundTrip(dataset);
    } else {
      var name, parent :| dataset == parent + "/" + name && CreateManaged(name, parent) == Some(id);
      ManagedRoundTrip(name, parent);
    }
  }

  /** Two volumes share an id, or an NQN, only if they are the same dataset, both
      managed or both imported. */
  lemma DistinctVolumes(a: string, da: string, ia: bool, b: string, db: string, ib: bool)
    requires HandedOut(a, da, ia) && HandedOut(b, db, ib)
    ensures NqnOf(a) == NqnOf(b) <==> a == b
    ensures a == b <==> (da == db && ia == ib)
  {
    Resolves(a, da, ia);
    Resolves(b, db, ib);
    assert NqnOf(a)[|CSI_NQN_PREFIX|..] == a && NqnOf(b)[|CSI_NQN_PREFIX|..] == b;
    if da == db && ia == ib && !ia {
      assert a == IdFromDataset(da) && b == IdFromDataset(db);
    }
  }

  // ---- Ids that were not handed out ----

  /** The one id that is handed out for a volume. */
  function OwnId(ref: VolumeRef): string
    requires OneByte(ref.dataset)
  {
    if ref.imported then EncodeImportId(ref.dataset) else IdFromDataset(ref.dataset)
  }

  lemma BytesOfText(bytes: seq<Base32.Byte>)
    ensures OneByte(Text(bytes)) && Bytes(Text(bytes)) == bytes
  {
  }

  /** The grammar of ids is wider than the ids handed out. One that resolves is its
      volume's own id if and only if: managed, it has no slash; imported, its text is
      lower case and has fewer than five bits of filling, all zero. */
  lemma CanonicalIff(id: string)
    requires ResolveVolumeId(id).Some?
    ensures var ref := ResolveVolumeId(id).value;
            && OneByte(ref.dataset)
            && (OwnId(ref) == id <==>
                if ref.imported then Base32.Canonical(id[|IMPORTED_PREFIX|..]) else '/' !in id)
  {
    var ref := ResolveVolumeId(id).value;
    PathIsPlain(ref.dataset);
    if ref.imported {
      var text := id[|IMPORTED_PREFIX|..];
      var raw := Base32.Decode(text).value;
      BytesOfText(raw);
      Base32.CanonicalIff(text);
      assert id == IMPORTED_PREFIX + text;
      assert OwnId(ref)[|IMPORTED_PREFIX|..] == Base32.Encode(raw);
    }
  }

  /** One zvol, two ids that resolve to it as imported, two NQNs that the daemon accepts:
      case alone tells them apart. */
  lemma TwoImportedIds()
    ensures ResolveVolumeId("imp1-c4") == Some(VolumeRef("a", "imp1-c4", true))
    ensures ResolveVolumeId("imp1-C4") == Some(VolumeRef("a", "imp1-C4", true))
    ensures NqnOf("imp1-c4") != NqnOf("imp1-C4")
    ensures NqnName(NqnOf("imp1-c4")) && NqnName(NqnOf("imp1-C4"))
  {
    Base32.BothCases();
    assert "imp1-c4"[|IMPORTED_PREFIX|..] == "c4" && "imp1-C4"[|IMPORTED_PREFIX|..] == "C4";
    assert Text([0x61]) == "a";
    SplitOne("a", '/');
    NqnOfName("imp1-c4");
    NqnOfName("imp1-C4");
    assert NqnOf("imp1-c4")[|CSI_NQN_PREFIX|..] == "imp1-c4" && NqnOf("imp1-C4")[|CSI_NQN_PREFIX|..] == "imp1-C4";
  }

  lemma ThreeNames()
    ensures ValidDatasetPath("a/b/c")
  {
    assert VolumeName("a") && VolumeName("b") && VolumeName("c");
    SplitOne("a", '/');
    JoinedPath("b", "a");
    JoinedPath("c", "a/b");
    assert "a" + "/" + "b" == "a/b" && "a/b" + "/" + "c" == "a/b/c";
  }

  /** A managed id with a slash resolves to the dataset of the id without; the daemon
      accepts no NQN with a slash in it. */
  lemma SlashedId()
    ensures ResolveVolumeId("a:b/c") == Some(VolumeRef("a/b/c", "a:b/c", false))
    ensures ResolveVolumeId("a:b:c") == Some(VolumeRef("a/b/c", "a:b:c", false))
  {
    ThreeNames();
    ManagedId("a:b/c", "a/b/c");
    ManagedId("a:b:c", "a/b/c");
  }

  lemma ManagedId(id: string, dataset: string)
    requires |id| > 1 && id[0] != 'i' && id[1] == ':' && Replace(id, ':', '/') == dataset && ValidDatasetPath(dataset)
    ensures ResolveVolumeId(id) == Some(VolumeRef(dataset, id, false))
  {
    assert IMPORTED_PREFIX[0] == 'i';
  }

  lemma SlashIsRefused(id: string)
    requires '/' in id
    ensures !NqnName(NqnOf(id))
  {
    var i :| 0 <= i < |id| && id[i] == '/';
    assert NqnOf(id)[4..][|CSI_NQN_PREFIX| - 4 + i] == '/';
  }

  // ---- The daemon's reading ----

  /** Which dataset an expand request is about: the id itself when it is managed, the
      device of the export when it is an old bare name, nothing when it is imported. */
  function DaemonDataset(token: string, device: string): Option<string> {
    if IMPORTED_PREFIX <= token then None
    else if ':' in token then
      var dataset := Replace(token, ':', '/');
      if DatasetName(dataset) then Some(dataset) else None
    else if "/dev/zvol/" <= device && DatasetName(device[10..]) then Some(device[10..])
    else None
  }

  /** Without ':' the two sides accept the same paths, up to the daemon's length limit. */
  lemma SamePaths(path: string)
    requires ':' !in path
    ensures DatasetName(path) <==> ValidDatasetPath(path) && |path| <= 255
  {
    var pieces := Split(path, '/');
    SplitKeeps(path, '/', ':');
    forall p | p in pieces ensures Component(p) <==> VolumeName(p) {
      var i :| 0 <= i < |pieces| && pieces[i] == p;
      assert ':' !in p;
      assert forall k :: 0 <= k < |p| ==> p[k] in p;
    }
  }

  /** On ids with a ':' the daemon finds the dataset the controller does, whatever the
      export says, and never one for an imported id. */
  lemma DaemonAgrees(id: string, device: string)
    requires ':' in id && |id| <= 255
    ensures DaemonDataset(id, device) ==
              if ResolveVolumeId(id).Some? && !ResolveVolumeId(id).value.imported
              then Some(ResolveVolumeId(id).value.dataset) else None
  {
    var dataset := Replace(id, ':', '/');
    SamePaths(dataset);
  }

  lemma IdIsName(id: string, dataset: string, imported: bool)
    requires HandedOut(id, dataset, imported)
    ensures id != "" && AllOf(id, NameChar) && |NqnOf(id)| <= 223
  {
    if imported {
      PathIsPlain(dataset);
      var digits := Base32.Groups(Base32.ByteBits(Bytes(dataset)));
      forall i | |IMPORTED_PREFIX| <= i < |id| ensures NameChar(id[i]) {
        assert id[i] == Base32.Letter(digits[i - |IMPORTED_PREFIX|]);
        LetterIsName(digits[i - |IMPORTED_PREFIX|]);
      }
    } else {
      var name, parent :| dataset == parent + "/" + name && CreateManaged(name, parent) == Some(id);
      JoinedPath(name, parent);
      forall i | 0 <= i < |id| ensures NameChar(id[i]) {
        PathCharacters(dataset, dataset[i]);
      }
    }
  }

  /** The NQN of a volume handed out is one the daemon accepts as a CSI name. */
  lemma DaemonAccepts(id: string, dataset: string, imported: bool)
    requires HandedOut(id, dataset, imported)
    ensures NqnName(NqnOf(id)) && IsCsi(NqnOf(id)) && |NqnOf(id)| > |CSI_NQN_PREFIX|
  {
    IdIsName(id, dataset, imported);
    NqnOfName(id);
  }

  lemma NqnOfName(id: string)
    requires AllOf(id, NameChar) && |NqnOf(id)| <= 223
    ensures NqnName(NqnOf(id))
  {
    PrefixIsName();
    var nqn := NqnOf(id);
    assert nqn[..4] == "nqn." && nqn[4..] == CSI_NQN_PREFIX[4..] + id;
  }

  lemma LetterIsName(d: Base32.Digit)
    ensures NameChar(Base32.Letter(d))
  {
  }

  lemma PrefixIsName()
    ensures AllOf(CSI_NQN_PREFIX[4..], NameChar)
  {
  }
}
