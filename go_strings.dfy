/**
 The few functions of Go's `strings` package that the route parser uses:
 `HasPrefix`, `HasSuffix`, `Index`, `Replace` with a count of one and the
 second field of `Split` on a one-character separator. Each is specified
 against the predicate `OccursAt`, which says where a pattern sits in a string.
 */
module GoStrings {
  import opened Wrappers

  /** `pat` occurs in `s` starting at index `i`. */
  predicate OccursAt(s: string, pat: string, i: nat) {
    i + |pat| <= |s| && s[i..i + |pat|] == pat
  }

  /** `i` is the leftmost occurrence of `pat` in `s`. */
  predicate FirstOccurrence(s: string, pat: string, i: nat) {
    OccursAt(s, pat, i) && forall j: nat :: j < i ==> !OccursAt(s, pat, j)
  }

  /** strings.HasPrefix: `s` is `prefix` followed by something. */
  predicate HasPrefix(s: string, prefix: string): (b: bool)
    ensures b <==> |prefix| <= |s| && s == prefix + s[|prefix|..]
  {
    OccursAt(s, prefix, 0)
  }

  /** strings.HasSuffix: `s` is something followed by `suffix`. */
  predicate HasSuffix(s: string, suffix: string): (b: bool)
    ensures b <==> |suffix| <= |s| && s == s[..|s| - |suffix|] + suffix
  {
    |suffix| <= |s| && OccursAt(s, suffix, |s| - |suffix|)
  }

  /** An occurrence in `s[1..]` is an occurrence in `s` one place further on. */
  lemma OccursInTail(s: string, pat: string)
    requires s != []
    ensures forall j: nat :: OccursAt(s[1..], pat, j) <==> OccursAt(s, pat, j + 1)
    ensures forall j: nat :: 0 < j ==> (OccursAt(s, pat, j) <==> OccursAt(s[1..], pat, j - 1))
  {
    forall j: nat
      ensures OccursAt(s[1..], pat, j) <==> OccursAt(s, pat, j + 1)
    {
      if j + 1 + |pat| <= |s| {
        assert s[1..][j..j + |pat|] == s[j + 1..j + 1 + |pat|];
      }
    }
  }

  /** strings.Index: the position of the leftmost occurrence of `pat`; None stands for Go's -1. */
  function Index(s: string, pat: string): (r: Option<nat>)
    ensures r.Some? ==> FirstOccurrence(s, pat, r.value)
    ensures r.None? <==> forall j: nat :: !OccursAt(s, pat, j)
    decreases |s|
  {
    if OccursAt(s, pat, 0) then Some(0)
    else if s == [] then None
    else
      OccursInTail(s, pat);
      match Index(s[1..], pat)
      case None => None
      case Some(i) => Some(i + 1)
  }

  /** strings.Replace(s, pat, repl, 1): the leftmost occurrence of `pat`, if any, becomes `repl`. */
  function ReplaceFirst(s: string, pat: string, repl: string): (r: string)
    ensures (forall j: nat :: !OccursAt(s, pat, j)) ==> r == s
    ensures forall i: nat :: FirstOccurrence(s, pat, i) ==> r == s[..i] + repl + s[i + |pat|..]
  {
    match Index(s, pat)
    case None => s
    case Some(i) => s[..i] + repl + s[i + |pat|..]
  }

  /** Replacing a prefix once replaces that prefix and keeps the rest. */
  lemma ReplaceFirstOfPrefix(s: string, pat: string, repl: string)
    requires HasPrefix(s, pat)
    ensures ReplaceFirst(s, pat, repl) == repl + s[|pat|..]
    ensures repl == "" ==> ReplaceFirst(s, pat, repl) == s[|pat|..]
  {
    assert FirstOccurrence(s, pat, 0);
    assert s[..0] + repl + s[|pat|..] == repl + s[|pat|..];
    assert "" + s[|pat|..] == s[|pat|..];
  }

  /** The position of the first `c` in `s`, or `|s|` when `c` does not occur. */
  function CharIndex(s: string, c: char): (r: nat)
    ensures r <= |s| && c !in s[..r]
    ensures r < |s| ==> s[r] == c
  {
    if s == [] then 0
    else if s[0] == c then 0
    else
      var r := 1 + CharIndex(s[1..], c);
      assert s[..r] == [s[0]] + s[1..][..r - 1];
      r
  }

  /**
   strings.Split(s, [sep])[1]: the text between the first and the second
   `sep`, or up to the end when there is no second one. Go panics on the index
   when `sep` does not occur, hence the precondition.
   */
  function SecondField(s: string, sep: char): (r: string)
    requires sep in s
    ensures sep !in r
    ensures var i := CharIndex(s, sep);
      i < |s| && r <= s[i + 1..] && (i + 1 + |r| == |s| || s[i + 1 + |r|] == sep)
  {
    var i := CharIndex(s, sep);
    var rest := s[i + 1..];
    var j := CharIndex(rest, sep);
    rest[..j]
  }
}
