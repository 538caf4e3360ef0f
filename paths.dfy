/** The string and path operations the organ, tissue and millitome code relies
    on: `str.split`, and `pathlib`'s `name`, `stem` and `suffix` of a POSIX
    path. */
module Paths {

  /** The index of the last `c` in `s`, or -1 when there is none
      (`str.rfind`). */
  function LastIndex(s: string, c: char): (r: int)
    ensures -1 <= r < |s|
    ensures r >= 0 ==> s[r] == c
    ensures forall j :: r < j < |s| ==> s[j] != c
    decreases |s|
  {
    if |s| == 0 then -1
    else if s[|s| - 1] == c then |s| - 1
    else LastIndex(s[..|s| - 1], c)
  }

  /** The index of the first `c` in `s`, or |s| when there is none. */
  function FirstIndex(s: string, c: char): (r: nat)
    ensures r <= |s|
    ensures r < |s| ==> s[r] == c
    ensures forall j :: 0 <= j < r ==> s[j] != c
    decreases |s|
  {
    if |s| == 0 then 0
    else if s[0] == c then 0
    else 1 + FirstIndex(s[1..], c)
  }

  /** `s.split(c)`: the pieces between the separators, in order; there is
      always at least one, and no piece contains the separator. */
  function Split(s: string, c: char): (parts: seq<string>)
    ensures |parts| > 0
    ensures forall k, j :: 0 <= k < |parts| && 0 <= j < |parts[k]| ==> parts[k][j] != c
    decreases |s|
  {
    var i := FirstIndex(s, c);
    if i == |s| then [s] else [s[..i]] + Split(s[i + 1..], c)
  }

  /** `s.split(c)[-1]` is everything after the last separator, or the
      whole string when there is none. */
  lemma {:induction false} SplitLast(s: string, c: char)
    ensures Split(s, c)[|Split(s, c)| - 1] == s[LastIndex(s, c) + 1..]
    decreases |s|
  {
    var i := FirstIndex(s, c);
    if i == |s| {
      assert forall j :: 0 <= j < |s| ==> s[j] != c;
      LastIndexAbsent(s, c);
    } else {
      var rest := s[i + 1..];
      SplitLast(rest, c);
      LastIndexAfter(s, c, i);
    }
  }

  /** Without `c` in `s` there is no last `c`. */
  lemma {:induction false} LastIndexAbsent(s: string, c: char)
    requires forall j :: 0 <= j < |s| ==> s[j] != c
    ensures LastIndex(s, c) == -1
    decreases |s|
  {
    if |s| > 0 {
      LastIndexAbsent(s[..|s| - 1], c);
    }
  }

  /** The last `c` of `s` lies in the part after any `c` at index `i`. */
  lemma {:induction false} LastIndexAfter(s: string, c: char, i: nat)
    requires i < |s| && s[i] == c
    ensures LastIndex(s, c) == i + 1 + LastIndex(s[i + 1..], c)
    decreases |s|
  {
    var t := s[i + 1..];
    if |t| == 0 {
      assert s[|s| - 1] == c;
    } else if s[|s| - 1] == c {
      assert t[|t| - 1] == c;
    } else {
      assert t[|t| - 1] != c;
      assert s[..|s| - 1][i + 1..] == t[..|t| - 1];
      LastIndexAfter(s[..|s| - 1], c, i);
    }
  }

  /** Splitting `prefix + c + name` on `c`, when `name` holds no `c`, gives
      back `name` as the last piece. */
  lemma SplitSuffix(prefix: string, c: char, name: string)
    requires forall j :: 0 <= j < |name| ==> name[j] != c
    ensures var s := prefix + [c] + name; Split(s, c)[|Split(s, c)| - 1] == name
  {
    var s := prefix + [c] + name;
    SplitLast(s, c);
    assert s[|prefix|] == c;
    assert forall j :: |prefix| < j < |s| ==> s[j] == name[j - |prefix| - 1];
    assert LastIndex(s, c) == |prefix|;
    assert s[|prefix| + 1..] == name;
  }

  /** The components of a path that carry a name: `pathlib` drops empty
      components and `.`. */
  function Named(parts: seq<string>): (r: seq<string>)
    ensures forall j :: 0 <= j < |r| ==> r[j] != "" && r[j] != "." && r[j] in parts
    ensures |r| <= |parts|
  {
    if |parts| == 0 then []
    else if parts[0] == "" || parts[0] == "." then Named(parts[1..])
    else [parts[0]] + Named(parts[1..])
  }

  /** `PurePosixPath(p).name`: the last named component, or "" for the
      root, "." and the empty path. */
  function Name(p: string): (name: string)
    ensures forall j :: 0 <= j < |name| ==> name[j] != '/'
    ensures name != "."
  {
    var parts := Named(Split(p, '/'));
    if |parts| == 0 then "" else parts[|parts| - 1]
  }

  /** Where `suffix` and `stem` cut the name: at its last dot, when that dot
      is neither the first nor the last character. */
  function Cut(name: string): (i: int)
    ensures i == -1 || (0 < i < |name| - 1 && name[i] == '.')
  {
    var i := LastIndex(name, '.');
    if 0 < i < |name| - 1 then i else -1
  }

  /** `Path(p).suffix`. */
  function Suffix(p: string): string
  {
    var name := Name(p);
    var i := Cut(name);
    if i == -1 then "" else name[i..]
  }

  /** `Path(p).stem`. */
  function Stem(p: string): string
  {
    var name := Name(p);
    var i := Cut(name);
    if i == -1 then name else name[..i]
  }

  /** The stem and the suffix split the file name: together they are the
      whole name, and a non-empty suffix is one dot followed by at least one
      character that is not a dot, after a non-empty stem. */
  lemma StemSuffix(p: string)
    ensures Stem(p) + Suffix(p) == Name(p)
    ensures Suffix(p) != "" ==>
              |Suffix(p)| >= 2 && Suffix(p)[0] == '.' && |Stem(p)| > 0
              && forall j :: 0 < j < |Suffix(p)| ==> Suffix(p)[j] != '.'
  {
    var name := Name(p);
    var i := Cut(name);
    if i != -1 {
      assert name[..i] + name[i..] == name;
      assert forall j :: 0 < j < |name[i..]| ==> name[i..][j] == name[i + j];
    }
  }
}
