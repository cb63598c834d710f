/**
 * The few JavaScript string operations the `/ensureuser` route relies on:
 * `String.prototype.toLowerCase`, `indexOf`, `replace` with a string pattern,
 * `Array.prototype.join`, and template-literal interpolation of a value that
 * may be `undefined`. `Split` is not used by the route: it is how the token
 * endpoint reads a space-separated scope list back, and serves as the inverse
 * of `Join`.
 */
module JsString {
  import opened Options

  predicate IsAsciiUpper(c: char) {
    'A' <= c <= 'Z'
  }

  /** Lower-cases one character (ASCII letters only). */
  function LowerChar(c: char): (r: char)
    ensures !IsAsciiUpper(r)
  {
    if IsAsciiUpper(c) then (c as int + 32) as char else c
  }

  predicate HasNoUpper(s: string) {
    forall i :: 0 <= i < |s| ==> !IsAsciiUpper(s[i])
  }

  /** `s.toLowerCase()`: every character lower-cased, nothing else changed. */
  function ToLowerCase(s: string): (r: string)
    ensures |r| == |s|
    ensures forall i :: 0 <= i < |s| ==> r[i] == LowerChar(s[i])
    ensures HasNoUpper(r)
  {
    seq(|s|, i requires 0 <= i < |s| => LowerChar(s[i]))
  }

  lemma ToLowerCaseIdempotent(s: string)
    ensures ToLowerCase(ToLowerCase(s)) == ToLowerCase(s)
  {
    var l := ToLowerCase(s);
    assert forall i :: 0 <= i < |l| ==> ToLowerCase(l)[i] == l[i];
  }

  lemma ToLowerCaseAppend(a: string, b: string)
    ensures ToLowerCase(a + b) == ToLowerCase(a) + ToLowerCase(b)
  {
    var l, r := ToLowerCase(a + b), ToLowerCase(a) + ToLowerCase(b);
    forall i | 0 <= i < |l| ensures l[i] == r[i] {
      if i < |a| {
        assert (a + b)[i] == a[i];
      } else {
        assert (a + b)[i] == b[i - |a|];
      }
    }
  }

  /** A string with no upper-case letter in it is its own lower case. */
  lemma ToLowerCaseOfLower(s: string)
    requires forall c | c in s :: !IsAsciiUpper(c)
    ensures ToLowerCase(s) == s
  {
    assert forall i | 0 <= i < |s| :: s[i] in s;
  }

  /** `pat` occurs in `s` starting at index `i`. */
  predicate OccursAt(s: string, pat: string, i: int) {
    0 <= i && i + |pat| <= |s| && s[i..i + |pat|] == pat
  }

  /** `i` is the first index at which `pat` occurs in `s`. */
  predicate FirstOccurrence(s: string, pat: string, i: int) {
    OccursAt(s, pat, i) && forall j :: 0 <= j < i ==> !OccursAt(s, pat, j)
  }

  /** `s.indexOf(pat, from)`, with `None` for JavaScript's -1. */
  function IndexOfFrom(s: string, pat: string, from: nat): (r: Option<nat>)
    ensures r.Some? ==> from <= r.value && OccursAt(s, pat, r.value)
    ensures r.Some? ==> forall j :: from <= j < r.value ==> !OccursAt(s, pat, j)
    ensures r.None? ==> forall j :: from <= j ==> !OccursAt(s, pat, j)
    decreases |s| - from
  {
    if from + |pat| > |s| then None
    else if s[from..from + |pat|] == pat then Some(from)
    else IndexOfFrom(s, pat, from + 1)
  }

  /** `s.indexOf(pat)`: the first occurrence, or `None` when there is none. */
  function IndexOf(s: string, pat: string): (r: Option<nat>)
    ensures r.Some? ==> FirstOccurrence(s, pat, r.value)
    ensures r.None? ==> forall j :: !OccursAt(s, pat, j)
  {
    IndexOfFrom(s, pat, 0)
  }

  /** `s.replace(pat, rep)` with a string pattern and a replacement free of `$` patterns. */
  function Replace(s: string, pat: string, rep: string): string {
    match IndexOf(s, pat)
    case None => s
    case Some(i) => s[..i] + rep + s[i + |pat|..]
  }

  /**
   * What `replace` with a string pattern promises: only the FIRST occurrence
   * of `pat` is replaced, and a string without an occurrence comes back as is.
   */
  ghost predicate ReplacedFirst(s: string, pat: string, rep: string, r: string) {
    || (exists i :: FirstOccurrence(s, pat, i) && r == s[..i] + rep + s[i + |pat|..])
    || ((forall j :: !OccursAt(s, pat, j)) && r == s)
  }

  lemma FirstOccurrenceUnique(s: string, pat: string, i: int, k: int)
    requires FirstOccurrence(s, pat, i) && FirstOccurrence(s, pat, k)
    ensures i == k
  {
  }

  /** `Replace` is exactly the first-occurrence replacement, in both directions. */
  lemma ReplaceSpec(s: string, pat: string, rep: string, r: string)
    ensures r == Replace(s, pat, rep) <==> ReplacedFirst(s, pat, rep, r)
  {
    match IndexOf(s, pat)
    case None =>
    case Some(i) =>
      if r == Replace(s, pat, rep) {
        assert FirstOccurrence(s, pat, i);
      }
      if ReplacedFirst(s, pat, rep, r) {
        assert !(forall j :: !OccursAt(s, pat, j)) by { assert OccursAt(s, pat, i); }
        var k :| FirstOccurrence(s, pat, k) && r == s[..k] + rep + s[k + |pat|..];
        FirstOccurrenceUnique(s, pat, i, k);
      }
  }

  /** Replacing with a replacement free of upper case keeps a string free of upper case. */
  lemma ReplaceKeepsNoUpper(s: string, pat: string, rep: string)
    requires HasNoUpper(s) && HasNoUpper(rep)
    ensures HasNoUpper(Replace(s, pat, rep))
  {
    match IndexOf(s, pat)
    case None =>
    case Some(i) =>
      var r := s[..i] + rep + s[i + |pat|..];
      forall k | 0 <= k < |r| ensures !IsAsciiUpper(r[k]) {
        if k < i {
          assert r[k] == s[k];
        } else if k < i + |rep| {
          assert r[k] == rep[k - i];
        } else {
          assert r[k] == s[k - |rep| + |pat|];
        }
      }
  }

  /** `parts.join(sep)`: the parts in order, separated by `sep`; `""` for no parts. */
  function Join(parts: seq<string>, sep: string): string {
    if |parts| == 0 then ""
    else if |parts| == 1 then parts[0]
    else parts[0] + sep + Join(parts[1..], sep)
  }

  /** `s.split(sep)` for a one-character separator: the pieces between separators. */
  function Split(s: string, sep: char): (r: seq<string>)
    ensures |r| >= 1
  {
    if s == [] then [""]
    else
      var rest := Split(s[1..], sep);
      if s[0] == sep then [""] + rest else [[s[0]] + rest[0]] + rest[1..]
  }

  lemma {:induction false} SplitWithoutSeparator(a: string, sep: char)
    requires sep !in a
    ensures Split(a, sep) == [a]
  {
    if a != [] {
      SplitWithoutSeparator(a[1..], sep);
      assert [a[0]] + a[1..] == a;
    }
  }

  lemma {:induction false} SplitAtFirstSeparator(a: string, b: string, sep: char)
    requires sep !in a
    ensures Split(a + [sep] + b, sep) == [a] + Split(b, sep)
  {
    if a == [] {
      assert (a + [sep] + b)[1..] == b;
    } else {
      SplitAtFirstSeparator(a[1..], b, sep);
      assert (a + [sep] + b)[1..] == a[1..] + [sep] + b;
      assert [a[0]] + a[1..] == a;
    }
  }

  /**
   * Joining with a one-character separator that no part contains can be undone
   * by splitting on it: the parts come back, in order and unchanged.
   */
  lemma {:induction false} SplitJoin(parts: seq<string>, sep: char)
    requires |parts| >= 1
    requires forall k :: 0 <= k < |parts| ==> sep !in parts[k]
    ensures Split(Join(parts, [sep]), sep) == parts
  {
    if |parts| == 1 {
      SplitWithoutSeparator(parts[0], sep);
    } else {
      SplitJoin(parts[1..], sep);
      SplitAtFirstSeparator(parts[0], Join(parts[1..], [sep]), sep);
      assert [parts[0]] + parts[1..] == parts;
    }
  }

  /** A template literal `${v}`: `undefined` is spelled out. */
  function Interpolate(v: Option<string>): string {
    match v
    case Some(s) => s
    case None => "undefined"
  }
}
