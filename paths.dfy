/** The parts of `pathlib.PurePosixPath` the runners and the exporter use:
    the final component's suffix and stem, and replacing the stem. */
module Paths {
  import opened Python

  /** A path: the directory part and the final component (`Path.name`). */
  datatype FilePath = FilePath(parent: string, name: string)

  /** The position of the last `c` in `s`. */
  function LastIndexOf(s: string, c: char): (r: Option<nat>)
    ensures r.Some? ==> r.value < |s| && s[r.value] == c && c !in s[r.value + 1..]
    ensures r.None? ==> c !in s
  {
    if s == [] then None
    else if s[|s| - 1] == c then Some(|s| - 1)
    else
      var r := LastIndexOf(s[..|s| - 1], c);
      assert s == s[..|s| - 1] + [s[|s| - 1]];
      assert r.Some? ==> s[r.value + 1..] == s[..|s| - 1][r.value + 1..] + [s[|s| - 1]];
      r
  }

  /** The index of the dot that starts the suffix: the last dot of the name,
      when it is neither the first nor the last character. */
  function SuffixStart(name: string): (r: Option<nat>)
    ensures r.Some? ==> 0 < r.value < |name| - 1 && name[r.value] == '.' && '.' !in name[r.value + 1..]
  {
    match LastIndexOf(name, '.')
    case Some(i) => if 0 < i < |name| - 1 then Some(i) else None
    case None => None
  }

  /** `Path.suffix`: from that dot on, or empty. */
  function Suffix(p: FilePath): string
  {
    match SuffixStart(p.name)
    case Some(i) => p.name[i..]
    case None => ""
  }

  /** `Path.stem`: the name without its suffix. */
  function Stem(p: FilePath): string
  {
    match SuffixStart(p.name)
    case Some(i) => p.name[..i]
    case None => p.name
  }

  /** `Path.with_name(name)`: refused for a path without a name, and for a
      new name that is empty, is ".", or holds a separator. */
  function WithName(p: FilePath, name: string): (r: Result<FilePath>)
    ensures r.Ok? <==> p.name != "" && name != "" && name != "." && '/' !in name
    ensures r.Ok? ==> r.value == FilePath(p.parent, name)
  {
    if p.name == "" then Err(ValueError("path has an empty name"))
    else if name == "" || name == "." || '/' in name then Err(ValueError("Invalid name " + name))
    else Ok(FilePath(p.parent, name))
  }

  /** `Path.with_stem(stem)`: the same suffix after a new stem. */
  function WithStem(p: FilePath, stem: string): Result<FilePath>
  {
    WithName(p, stem + Suffix(p))
  }

  /** The last `c` of `a + [c] + b` is the one after `a` when `b` has
      none. */
  lemma {:induction false} LastIndexOfAfter(a: string, c: char, b: string)
    requires c !in b
    ensures LastIndexOf(a + [c] + b, c) == Some(|a|)
    decreases |b|
  {
    var s := a + [c] + b;
    if b == [] {
      assert s[|s| - 1] == c;
    } else {
      var b' := b[..|b| - 1];
      assert s[|s| - 1] == b[|b| - 1] && s[..|s| - 1] == a + [c] + b';
      LastIndexOfAfter(a, c, b');
    }
  }

  /** The stem and the suffix split the name. */
  lemma StemAndSuffix(p: FilePath)
    ensures Stem(p) + Suffix(p) == p.name
    ensures Suffix(p) == "" || (|Suffix(p)| >= 2 && Suffix(p)[0] == '.' && '.' !in Suffix(p)[1..])
  {
    match SuffixStart(p.name)
    case Some(i) =>
      assert p.name == p.name[..i] + p.name[i..];
      assert p.name[i..][1..] == p.name[i + 1..];
    case None =>
  }

  /** `with_stem` keeps the directory and the suffix and installs the new
      stem, for a stem that the suffix cannot absorb: one without a dot, or
      any non-empty stem when the path has a suffix. */
  lemma WithStemRoundTrip(p: FilePath, stem: string)
    requires p.name != "" && '/' !in p.name && stem != "" && '/' !in stem
    requires '.' !in stem || Suffix(p) != ""
    ensures WithStem(p, stem).Ok?
    ensures var q := WithStem(p, stem).value;
      q.parent == p.parent && Stem(q) == stem && Suffix(q) == Suffix(p)
  {
    StemAndSuffix(p);
    var suffix := Suffix(p);
    var name := stem + suffix;
    assert suffix == p.name[|Stem(p)|..];
    assert WithStem(p, stem) == WithName(p, name);
    if suffix == "" {
      assert name == stem;
      assert SuffixStart(name) == None;
    } else {
      var ext := suffix[1..];
      assert suffix == "." + ext;
      assert name == stem + ['.'] + ext;
      assert '/' !in suffix by {
        forall k | 0 <= k < |suffix| ensures suffix[k] != '/' {
          assert suffix[k] == p.name[|Stem(p)| + k];
        }
      }
      assert '/' !in name && |name| > 1;
      LastIndexOfAfter(stem, '.', ext);
      assert SuffixStart(name) == Some(|stem|);
      assert name[..|stem|] == stem && name[|stem|..] == suffix;
    }
  }
}
