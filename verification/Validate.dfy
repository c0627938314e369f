/** The validators of the string types (crates/greendot-proto/src/validate.rs). */
module Validate {

  predicate IsDigit(c: char) {
    '0' <= c <= '9'
  }

  predicate IsLower(c: char) {
    'a' <= c <= 'z'
  }

  predicate IsAlnum(c: char) {
    IsDigit(c) || IsLower(c) || 'A' <= c <= 'Z'
  }

  predicate IsHex(c: char) {
    IsDigit(c) || 'a' <= c <= 'f'
  }

  predicate AllOf(s: string, ok: char -> bool) {
    forall i :: 0 <= i < |s| ==> ok(s[i])
  }

  /** The pieces between separators; one piece more than there are separators. */
  function Split(s: string, sep: char): (r: seq<string>)
    ensures |r| > 0
  {
    if s == "" then [""]
    else
      var rest := Split(s[1..], sep);
      if s[0] == sep then [""] + rest else [[s[0]] + rest[0]] + rest[1..]
  }

  lemma {:induction false} SplitJoined(a: string, sep: char, b: string)
    ensures Split(a + [sep] + b, sep) == Split(a, sep) + Split(b, sep)
  {
    var s := a + [sep] + b;
    if a == "" {
      assert s[1..] == b;
    } else {
      assert s[1..] == a[1..] + [sep] + b;
      SplitJoined(a[1..], sep, b);
    }
  }

  lemma {:induction false} SplitOne(s: string, sep: char)
    requires sep !in s
    ensures Split(s, sep) == [s]
  {
    if s != "" {
      assert forall c :: c in s[1..] ==> c in s;
      assert s[0] in s;
      SplitOne(s[1..], sep);
      assert s == [s[0]] + s[1..];
    }
  }

  ghost predicate Somewhere(pieces: seq<string>, c: char) {
    exists i :: 0 <= i < |pieces| && c in pieces[i]
  }

  /** The pieces hold exactly the characters that are not separators. */
  lemma {:induction false} SplitKeeps(s: string, sep: char, c: char)
    requires c != sep
    ensures c in s <==> Somewhere(Split(s, sep), c)
  {
    if s != "" {
      SplitKeeps(s[1..], sep, c);
      assert s == [s[0]] + s[1..];
      var rest, all := Split(s[1..], sep), Split(s, sep);
      if s[0] == sep {
        assert all == [""] + rest;
        forall i | 0 <= i < |rest| ensures all[i + 1] == rest[i] {}
        assert forall i :: 1 <= i < |all| ==> all[i] == rest[i - 1];
      } else {
        assert all[0] == [s[0]] + rest[0];
        assert forall i :: 1 <= i < |all| ==> all[i] == rest[i];
      }
    }
  }

  predicate NameChar(c: char) {
    IsAlnum(c) || c in "_.:-"
  }

  predicate Component(s: string) {
    s != "" && IsAlnum(s[0]) && AllOf(s, NameChar)
  }

  predicate DatasetName(s: string) {
    s != "" && |s| <= 255 && forall p :: p in Split(s, '/') ==> Component(p)
  }

  predicate LvmName(s: string) {
    && s != "" && |s| <= 127 && s != "." && s != ".." && s[0] != '-'
    && AllOf(s, c => IsAlnum(c) || c in "+_.-")
  }

  predicate BlockDev(s: string) {
    s != "" && |s| <= 32 && IsLower(s[0]) && AllOf(s, c => IsLower(c) || IsDigit(c))
  }

  predicate NqnName(s: string) {
    |s| <= 223 && "nqn." <= s && |s| > 4 && AllOf(s[4..], NameChar)
  }

  predicate DevicePath(s: string) {
    "/dev/" <= s &&
    var rest := s[5..];
    if "zvol/" <= rest then DatasetName(rest[5..])
    else
      var parts := Split(rest, '/');
      if |parts| == 1 then BlockDev(rest) else |parts| == 2 && LvmName(parts[0]) && LvmName(parts[1])
  }

  /** `DOMAIN:BUS:DEV.FUNC`, fixed width. */
  predicate PciAddress(s: string) {
    && |s| == 12 && s[4] == ':' && s[7] == ':' && s[10] == '.'
    && AllOf(s[..4] + s[5..7] + s[8..10], IsHex) && '0' <= s[11] <= '7'
  }

  /** Absolute, no empty or dot components, no trailing slash. */
  predicate NfsExportPath(s: string) {
    && |s| <= 4096 && s != "/" && s != "" && s[0] == '/' && s[|s| - 1] != '/'
    && forall p :: p in Split(s[1..], '/') ==>
         p != "" && p != "." && p != ".." && AllOf(p, c => IsAlnum(c) || c in "_-.")
  }

  predicate NfsClient(s: string) {
    s != "" && |s| <= 128 && s[0] != '-' && AllOf(s, c => IsAlnum(c) || c in ".:-/_*")
  }
}
