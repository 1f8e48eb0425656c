/**
 The one regular expression of the route parser, `\$\{(.*?)\}`, as Go's
 `regexp.FindStringSubmatch` applies it: the match that starts leftmost, and
 at that start the shortest one, because `.*?` is lazy. The lazy group stops at
 the first `}` after the `${`; Go's `.` does not match a newline, so a newline
 before that `}` means there is no match at that start.
 */
module PlaceholderRegexp {
  import opened Wrappers

  /** A match: `${` at `start`, the closing `}` at `close`, the captured key in between. */
  datatype Match = Match(start: nat, close: nat)

  /** `j` is the first `}` at or after `q`, with no newline before it. */
  predicate ClosesAt(s: string, q: nat, j: nat) {
    q <= j < |s| && s[j] == '}' &&
    forall p :: q <= p < j ==> s[p] != '}' && s[p] != '\n'
  }

  /** The pattern matches `s[i..j + 1]`. */
  predicate MatchAt(s: string, i: nat, j: nat) {
    i + 1 < |s| && s[i] == '$' && s[i + 1] == '{' && ClosesAt(s, i + 2, j)
  }

  /** `s[i..j + 1]` is the match the regexp engine reports: no match starts further left. */
  ghost predicate LeftmostMatch(s: string, i: nat, j: nat) {
    MatchAt(s, i, j) && forall i': nat, j': nat :: i' < i ==> !MatchAt(s, i', j')
  }

  /** The pattern matches nowhere in `s`. */
  ghost predicate NoMatch(s: string) {
    forall i: nat, j: nat :: !MatchAt(s, i, j)
  }

  /** Where the lazy group ends when it starts at `q`: None when a newline or the end comes first. */
  function CloseFrom(s: string, q: nat): (r: Option<nat>)
    requires q <= |s|
    ensures r.Some? ==> ClosesAt(s, q, r.value)
    ensures r.None? ==> forall j: nat :: !ClosesAt(s, q, j)
    decreases |s| - q
  {
    if q == |s| then None
    else if s[q] == '}' then Some(q)
    else if s[q] == '\n' then None
    else
      CloseShift(s, q);
      CloseFrom(s, q + 1)
  }

  /** Past a character that is neither `}` nor a newline, the group closes where it closes one place on. */
  lemma CloseShift(s: string, q: nat)
    requires q < |s| && s[q] != '}' && s[q] != '\n'
    ensures forall j: nat :: ClosesAt(s, q, j) <==> ClosesAt(s, q + 1, j)
  {
  }

  /** The leftmost match that starts at `p` or later. */
  function FindFrom(s: string, p: nat): (r: Option<Match>)
    requires p <= |s|
    ensures r.Some? ==>
      p <= r.value.start && MatchAt(s, r.value.start, r.value.close) &&
      forall i: nat, j: nat :: p <= i < r.value.start ==> !MatchAt(s, i, j)
    ensures r.None? ==> forall i: nat, j: nat :: p <= i ==> !MatchAt(s, i, j)
    decreases |s| - p
  {
    if p + 1 >= |s| then None
    else if s[p] == '$' && s[p + 1] == '{' then
      match CloseFrom(s, p + 2)
      case Some(j) => Some(Match(p, j))
      case None => FindFrom(s, p + 1)
    else FindFrom(s, p + 1)
  }

  /** At most one `}` closes the lazy group from a given start. */
  lemma CloseUnique(s: string, q: nat, j: nat, j': nat)
    requires ClosesAt(s, q, j) && ClosesAt(s, q, j')
    ensures j == j'
  {
  }

  /** regexp.FindStringSubmatch(s): the reported match, or None when the pattern matches nowhere. */
  function FindPlaceholder(s: string): (r: Option<Match>)
    ensures r.None? <==> NoMatch(s)
    ensures forall i: nat, j: nat :: LeftmostMatch(s, i, j) <==> r == Some(Match(i, j))
  {
    var r := FindFrom(s, 0);
    assert forall i: nat, j: nat :: LeftmostMatch(s, i, j) ==> r == Some(Match(i, j)) by {
      forall i: nat, j: nat | LeftmostMatch(s, i, j)
        ensures r == Some(Match(i, j))
      {
        CloseUnique(s, i + 2, j, r.value.close);
      }
    }
    r
  }

  /** match[1]: the key named by the first `${KEY}` of `s`, when there is one. */
  function PlaceholderKey(s: string): (r: Option<string>)
    ensures r.None? <==> NoMatch(s)
    ensures forall i: nat, j: nat :: LeftmostMatch(s, i, j) ==> r == Some(s[i + 2..j])
    ensures r.Some? ==> '}' !in r.value && '\n' !in r.value
  {
    match FindPlaceholder(s)
    case None => None
    case Some(m) =>
      assert LeftmostMatch(s, m.start, m.close);
      Some(s[m.start + 2..m.close])
  }
}
