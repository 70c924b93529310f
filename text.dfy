/** The string operations the pipeline's file naming relies on: Python's
    `str.lower`, `str.endswith`, `str.rsplit(sep, 1)`, `os.path.splitext`,
    `os.path.basename`, `os.path.join` and the decimal rendering of an `int`
    inside an f-string. */
module Text {
  import opened Wrappers

  /** Lower-casing of one character, restricted to the ASCII letters. */
  function LowerChar(c: char): char
  {
    if 'A' <= c <= 'Z' then (c as int + 32) as char else c
  }

  /** `s.lower()`: every character lower-cased, nothing else changes. */
  function Lower(s: string): (r: string)
    ensures |r| == |s|
    ensures forall i :: 0 <= i < |s| ==> r[i] == LowerChar(s[i])
  {
    if s == [] then [] else [LowerChar(s[0])] + Lower(s[1..])
  }

  /** Lower-casing never creates nor removes an underscore or a dot: only
      letters change. */
  lemma LowerKeepsPunctuation(s: string, c: char)
    requires !('A' <= c <= 'Z') && !('a' <= c <= 'z')
    ensures c in Lower(s) <==> c in s
  {
    if c in Lower(s) {
      var i :| 0 <= i < |s| && Lower(s)[i] == c;
      assert s[i] == c;
    }
    if c in s {
      var i :| 0 <= i < |s| && s[i] == c;
      assert Lower(s)[i] == c;
    }
  }

  /** `s.endswith(suffix)`. */
  predicate EndsWith(s: string, suffix: string)
  {
    |suffix| <= |s| && s[|s| - |suffix|..] == suffix
  }

  /** `s.endswith(suffixes)` for a tuple of suffixes. */
  predicate EndsWithAny(s: string, suffixes: seq<string>)
  {
    exists k :: 0 <= k < |suffixes| && EndsWith(s, suffixes[k])
  }

  /** The position of the last occurrence of `c` in `s` (`s.rfind(c)`, with
      None for -1). */
  function LastIndexOf(s: string, c: char): (r: Option<nat>)
    ensures r.None? <==> c !in s
    ensures r.Some? ==> r.value < |s| && s[r.value] == c && c !in s[r.value + 1..]
  {
    if s == [] then None
    else if s[|s| - 1] == c then Some(|s| - 1)
    else
      var r := LastIndexOf(s[..|s| - 1], c);
      assert s == s[..|s| - 1] + [s[|s| - 1]];
      r
  }

  /** `s.rsplit(sep, 1)` when it yields two parts: the text before and after
      the last `sep`; None when `sep` does not occur. */
  function RSplitOnce(s: string, sep: char): (r: Option<(string, string)>)
    ensures r.None? <==> sep !in s
    ensures r.Some? ==> s == r.value.0 + [sep] + r.value.1 && sep !in r.value.1
  {
    match LastIndexOf(s, sep)
    case None => None
    case Some(i) =>
      assert s == s[..i] + [sep] + s[i + 1..];
      Some((s[..i], s[i + 1..]))
  }

  /** The split at the last separator is the only split whose right part is
      free of the separator. */
  lemma RSplitOnceOf(left: string, sep: char, right: string)
    requires sep !in right
    ensures RSplitOnce(left + [sep] + right, sep) == Some((left, right))
  {
    var s := left + [sep] + right;
    assert s[|left|] == sep;
    var i := LastIndexOf(s, sep).value;
    forall k | i < k < |s| ensures s[k] != sep {
      assert s[k] == s[i + 1..][k - i - 1];
    }
    forall k | |left| < k < |s| ensures s[k] != sep {
      assert s[k] == right[k - |left| - 1];
    }
    assert i == |left|;
    assert s[..i] == left && s[i + 1..] == right;
  }

  /** `os.path.splitext`, taken as a split at the last dot: the root and the
      extension (dot included), or the whole name and "" without a dot. */
  function SplitExt(name: string): (r: (string, string))
    ensures r.0 + r.1 == name
    ensures '.' !in name ==> r.1 == ""
    ensures '.' in name ==> |r.1| > 0 && r.1[0] == '.' && '.' !in r.1[1..]
  {
    match LastIndexOf(name, '.')
    case None => (name, "")
    case Some(i) => (name[..i], name[i..])
  }

  /** A name built from a root and an extension with a single leading dot
      splits back into exactly that root and extension. */
  lemma SplitExtOf(root: string, ext: string)
    requires |ext| > 0 && ext[0] == '.' && '.' !in ext[1..]
    ensures SplitExt(root + ext) == (root, ext)
  {
    assert root + ext == root + ['.'] + ext[1..];
    RSplitOnceOf(root, '.', ext[1..]);
    var i := LastIndexOf(root + ext, '.').value;
    assert (root + ext)[..i] == root;
  }

  /** Equal texts with the same prefix and suffix have the same middle. */
  lemma CancelAround(prefix: string, x: string, y: string, suffix: string)
    requires prefix + x + suffix == prefix + y + suffix
    ensures x == y
  {
    var t, u := prefix + x + suffix, prefix + y + suffix;
    assert |x| == |y|;
    assert x == t[|prefix|..|prefix| + |x|];
    assert y == u[|prefix|..|prefix| + |y|];
  }

  /** `os.path.basename`: the text after the last slash. */
  function Basename(path: string): (r: string)
    ensures '/' !in r
    ensures EndsWith(path, r)
    ensures '/' !in path ==> r == path
  {
    match LastIndexOf(path, '/')
    case None => path
    case Some(i) => path[i + 1..]
  }

  /** `os.path.join(dir, name)` for two POSIX path components. */
  function PathJoin(dir: string, name: string): string
  {
    if |name| > 0 && name[0] == '/' then name
    else if dir == [] || dir[|dir| - 1] == '/' then dir + name
    else dir + "/" + name
  }

  /** Joining a plain file name onto a folder and taking the base name gives
      the file name back. */
  lemma BasenameOfJoin(dir: string, name: string)
    requires '/' !in name
    ensures Basename(PathJoin(dir, name)) == name
  {
    var p := PathJoin(dir, name);
    if dir == [] {
      assert p == name;
    } else if dir[|dir| - 1] == '/' {
      assert p == dir[..|dir| - 1] + ['/'] + name;
      RSplitOnceOf(dir[..|dir| - 1], '/', name);
    } else {
      assert p == dir + ['/'] + name;
      RSplitOnceOf(dir, '/', name);
    }
  }

  /** Two plain file names joined onto the same folder give different
      paths unless they are the same name. */
  lemma PathJoinInjective(dir: string, a: string, b: string)
    requires '/' !in a && '/' !in b
    requires PathJoin(dir, a) == PathJoin(dir, b)
    ensures a == b
  {
    BasenameOfJoin(dir, a);
    BasenameOfJoin(dir, b);
  }

  /** The decimal digit for `d`. */
  function DigitChar(d: nat): char
    requires d < 10
  {
    "0123456789"[d]
  }

  /** `str(n)` for a non-negative integer, as an f-string renders it. */
  function NatToString(n: nat): (r: string)
    ensures |r| > 0
    ensures forall i :: 0 <= i < |r| ==> '0' <= r[i] <= '9'
    ensures n >= 10 ==> |r| >= 2
  {
    if n < 10 then [DigitChar(n)] else NatToString(n / 10) + [DigitChar(n % 10)]
  }

  /** Different numbers are rendered differently. */
  lemma {:induction false} NatToStringInjective(a: nat, b: nat)
    requires NatToString(a) == NatToString(b)
    ensures a == b
  {
    var sa, sb := NatToString(a), NatToString(b);
    if a < 10 && b < 10 {
      assert DigitChar(a) == sa[0] == DigitChar(b);
    } else if a >= 10 && b >= 10 {
      assert sa[|sa| - 1] == DigitChar(a % 10) && sb[|sb| - 1] == DigitChar(b % 10);
      assert a % 10 == b % 10;
      assert sa[..|sa| - 1] == NatToString(a / 10) && sb[..|sb| - 1] == NatToString(b / 10);
      NatToStringInjective(a / 10, b / 10);
    }
  }
}
