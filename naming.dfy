/** The string handling behind the names of the written files: the default
    `{kind}-{group}-{version}` template, lowercased, with `.json` appended,
    and the basename taken before the file is opened. */
module Naming {

  predicate IsUpper(c: char) {
    'A' <= c <= 'Z'
  }

  function LowerChar(c: char): char {
    if IsUpper(c) then (c as int - 'A' as int + 'a' as int) as char else c
  }

  /** `str.lower()`, on ASCII letters. */
  function Lower(s: string): (r: string)
    ensures |r| == |s|
    ensures forall i :: 0 <= i < |r| ==> !IsUpper(r[i])
    ensures forall i :: 0 <= i < |s| && !IsUpper(s[i]) ==> r[i] == s[i]
    ensures forall i :: 0 <= i < |s| && IsUpper(s[i]) ==> r[i] != s[i] && LowerChar(s[i]) == r[i]
  {
    seq(|s|, i requires 0 <= i < |s| => LowerChar(s[i]))
  }

  /** Lowercasing twice is lowercasing once. */
  lemma LowerIdempotent(s: string)
    ensures Lower(Lower(s)) == Lower(s)
  {
  }

  /** The first piece of the group split at dots (line 170): the longest
      prefix without a dot. */
  function FirstSegment(s: string): (r: string)
    ensures |r| <= |s| && s[..|r|] == r
    ensures '.' !in r
    ensures |r| < |s| ==> s[|r|] == '.'
  {
    if s == [] || s[0] == '.' then [] else [s[0]] + FirstSegment(s[1..])
  }

  /** The file name the default template gives: `{kind}-{group}-{version}`
      with the first dot-segment of the group, lowercased, plus `.json`. */
  function DefaultFilename(kind: string, group: string, version: string): string {
    Lower(kind + "-" + FirstSegment(group) + "-" + version) + ".json"
  }

  /** `os.path.basename(p)`: everything after the last `/`. */
  function Basename(p: string): (r: string)
    ensures '/' !in r
    ensures |r| <= |p| && p[|p| - |r|..] == r
    ensures |r| < |p| ==> p[|p| - |r| - 1] == '/'
  {
    if p == [] then []
    else if p[|p| - 1] == '/' then []
    else Basename(p[..|p| - 1]) + [p[|p| - 1]]
  }

  /** A suffix without `/` survives the basename step. */
  lemma BasenameKeepsSuffix(p: string, suffix: string)
    requires '/' !in suffix
    requires |suffix| <= |p| && p[|p| - |suffix|..] == suffix
    ensures var name := Basename(p); |suffix| <= |name| && name[|name| - |suffix|..] == suffix
  {
    var name := Basename(p);
    var n, m, len := |name|, |suffix|, |p|;
    assert p[len - n..] == name;
    assert p[len - n..][n - m..] == p[len - m..];
  }

  /** The name a schema is written under, whatever the CRD says: it contains
      no `/` (so the file lands in the working directory), has no upper-case
      letter, and ends in `.json`. */
  lemma WrittenNameShape(kind: string, group: string, version: string)
    ensures var name := Basename(DefaultFilename(kind, group, version));
      '/' !in name &&
      (forall i :: 0 <= i < |name| ==> !IsUpper(name[i])) &&
      |name| >= 5 && name[|name| - 5..] == ".json"
  {
    var stem := Lower(kind + "-" + FirstSegment(group) + "-" + version);
    var full := stem + ".json";
    assert full[|full| - 5..] == ".json";
    forall i | 0 <= i < |full| ensures !IsUpper(full[i]) {
      if i >= |stem| {
        assert full[i] == ".json"[i - |stem|];
      }
    }
    BasenameKeepsSuffix(full, ".json");
    BasenameNoUpper(full);
  }

  lemma BasenameNoUpper(p: string)
    requires forall i :: 0 <= i < |p| ==> !IsUpper(p[i])
    ensures var name := Basename(p); forall i :: 0 <= i < |name| ==> !IsUpper(name[i])
  {
    var name := Basename(p);
    forall i | 0 <= i < |name| ensures !IsUpper(name[i]) {
      assert name[i] == p[|p| - |name|..][i];
    }
  }

  /** The worked example: kind Foo, group bar.example.com, version v1. */
  lemma DefaultFilenameExample()
    ensures DefaultFilename("Foo", "bar.example.com", "v1") == "foo-bar-v1.json"
  {
    FirstSegmentExample();
    LowerExample();
    assert "Foo" + "-" + "bar" + "-" + "v1" == "Foo-bar-v1";
  }

  lemma FirstSegmentExample()
    ensures FirstSegment("bar.example.com") == "bar"
  {
    var group := "bar.example.com";
    assert group[3] == '.';
    assert FirstSegment(group[3..]) == [];
    assert group[2..][1..] == group[3..];
    assert FirstSegment(group[2..]) == "r";
    assert group[1..][1..] == group[2..];
    assert FirstSegment(group[1..]) == "ar";
  }

  lemma LowerExample()
    ensures Lower("Foo-bar-v1") == "foo-bar-v1"
  {
    assert LowerChar('F') == 'f';
  }
}
