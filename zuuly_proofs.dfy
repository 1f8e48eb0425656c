/**
 Properties of the route-reconstruction pass: which keys can name a route,
 that entries the pass ignores leave no trace, that no route is removed, that
 each route holds the last `.url` and the last `.path` written to it, and
 hence that the table does not depend on the map's iteration order when each
 route receives at most one contribution of each kind.

 Most proofs are about Fold over a sequence of effects; Routes is Fold over
 the effects of the entries, so they carry over to the pass.
 */
module ZuulyProofs {
  import opened Wrappers
  import opened GoStrings
  import opened Zuuly

  /** The effect writes the route named `n`. */
  predicate Writes(e: Effect, n: string) {
    !e.Ignore? && e.name == n
  }

  /** Only keys the filter accepts write anything; under a nil filter, only keys with one of the two suffixes. */
  lemma OnlyAcceptedKeysWrite(ctx: Resolver, k: string, n: string)
    requires k in ctx.props && NoPanic(ctx, k)
    requires Writes(EffectOf(ctx, k), n)
    ensures FilteredKey(ctx.filterKeyFunc, k).Some?
    ensures ctx.filterKeyFunc.None? ==> HasSuffix(k, ".url") || HasSuffix(k, ".path")
  {
  }

  /**
   Where the pass can panic: never on a key the filter rejects, nor on one
   that takes neither branch; a `.path` entry only on a non-string value; a
   `.url` entry only on a non-string value or a URL that does not parse.
   */
  lemma PanicsOnlyInBranches(ctx: Resolver, k: string)
    requires k in ctx.props
    ensures FilteredKey(ctx.filterKeyFunc, k).None? ==> NoPanic(ctx, k)
    ensures FilteredKey(ctx.filterKeyFunc, k).Some? && HasSuffix(FilteredKey(ctx.filterKeyFunc, k).value, ".url") ==>
      (NoPanic(ctx, k) <==> ctx.props[k].Str? && ctx.parse(ZuulURL(ctx.props[k].s, ctx.props, ctx.env)).Some?)
    ensures FilteredKey(ctx.filterKeyFunc, k).Some? && !HasSuffix(FilteredKey(ctx.filterKeyFunc, k).value, ".url") ==>
      (NoPanic(ctx, k) <==> !HasSuffix(k, ".path") || ctx.props[k].Str?)
  {
  }

  /** A sequence without repeats has as many distinct elements as it has positions. */
  lemma {:induction false} DistinctCount(s: seq<string>)
    requires forall i, j :: 0 <= i < j < |s| ==> s[i] != s[j]
    ensures |set x | x in s| == |s|
  {
    if s != [] {
      var tail := s[1..];
      assert forall i, j :: 0 <= i < j < |tail| ==> tail[i] != tail[j] by {
        forall i, j | 0 <= i < j < |tail|
          ensures tail[i] != tail[j]
        {
          assert tail[i] == s[i + 1] && tail[j] == s[j + 1];
        }
      }
      DistinctCount(tail);
      assert s[0] !in tail by {
        forall j | 0 <= j < |tail|
          ensures tail[j] != s[0]
        {
          assert tail[j] == s[j + 1];
        }
      }
      assert (set x | x in s) == (set x | x in tail) + {s[0]} by {
        assert s == [s[0]] + tail;
      }
    }
  }

  /** An iteration order visits each key of the map exactly once: it has the map's keys and the map's size. */
  lemma IterationOrderVisitsEachKeyOnce(order: seq<string>, props: map<string, Value>)
    requires IsIterationOrder(order, props)
    ensures forall k :: k in props <==> k in order
    ensures |order| == |props|
  {
    DistinctCount(order);
    assert (set x | x in order) == props.Keys;
  }

  /** A name is in the fold exactly when some effect wrote it. */
  lemma {:induction false} FoldNames(es: seq<Effect>)
    ensures forall n :: n in Fold(es) <==> exists i :: 0 <= i < |es| && Writes(es[i], n)
    decreases |es|
  {
    if es != [] {
      var last := |es| - 1;
      var prefix := es[..last];
      FoldNames(prefix);
      assert Fold(es) == Apply(Fold(prefix), es[last]);
      forall n
        ensures n in Fold(es) <==> exists i :: 0 <= i < |es| && Writes(es[i], n)
      {
        if n in Fold(es) {
          if n in Fold(prefix) {
            var i :| 0 <= i < |prefix| && Writes(prefix[i], n);
            assert es[i] == prefix[i];
          } else {
            assert Writes(es[last], n);
          }
        } else {
          forall i | 0 <= i < |es|
            ensures !Writes(es[i], n)
          {
            if i < last {
              assert es[i] == prefix[i];
            } else {
              assert n !in Apply(Fold(prefix), es[last]);
            }
          }
        }
      }
    }
  }

  /**
   Every route in the table was written by an entry of the map, and every
   entry that writes a route leaves it in the table. With FilteredKey's and
   EffectOf's contracts: a key the filter rejects names no route.
   */
  lemma RouteNames(ctx: Resolver, order: seq<string>)
    requires Runnable(ctx, order)
    ensures forall n :: n in Routes(ctx, order) <==>
      exists i :: 0 <= i < |order| && Writes(EffectOf(ctx, order[i]), n)
  {
    FoldNames(Effects(ctx, order));
  }

  /** No record is removed: the fold of a prefix holds no name the whole fold lacks. */
  lemma {:induction false} FoldGrows(es: seq<Effect>, i: nat)
    requires i <= |es|
    ensures Fold(es[..i]).Keys <= Fold(es).Keys
    decreases |es|
  {
    if i < |es| {
      var prefix := es[..|es| - 1];
      assert prefix[..i] == es[..i];
      FoldGrows(prefix, i);
    } else {
      assert es[..i] == es;
    }
  }

  /** No route is ever removed: the table after the first `i` entries is contained in the final one. */
  lemma RoutesGrow(ctx: Resolver, order: seq<string>, i: nat)
    requires Runnable(ctx, order) && i <= |order|
    ensures Runnable(ctx, order[..i])
    ensures Routes(ctx, order[..i]).Keys <= Routes(ctx, order).Keys
  {
    assert Effects(ctx, order[..i]) == Effects(ctx, order)[..i];
    FoldGrows(Effects(ctx, order), i);
  }

  /** The positions of `es` holding an effect that does something: all of them, in increasing order. */
  ghost function ContributingPositions(es: seq<Effect>): (idx: seq<nat>)
    ensures forall t :: 0 <= t < |idx| ==> idx[t] < |es| && !es[idx[t]].Ignore?
    ensures forall t, u :: 0 <= t < u < |idx| ==> idx[t] < idx[u]
    ensures forall i :: 0 <= i < |es| && !es[i].Ignore? ==> i in idx
    decreases |es|
  {
    if es == [] then []
    else
      var n := |es| - 1;
      var p := ContributingPositions(es[..n]);
      assert forall t :: 0 <= t < |p| ==> es[p[t]] == es[..n][p[t]];
      if es[n].Ignore? then p else p + [n]
  }

  /**
   The effects of `es` that do something: the subsequence of `es` at
   ContributingPositions, so every such effect is kept, in order and as often
   as it occurs, and nothing else is.
   */
  function Contributing(es: seq<Effect>): (r: seq<Effect>)
    ensures |r| == |ContributingPositions(es)|
    ensures forall t :: 0 <= t < |r| ==> r[t] == es[ContributingPositions(es)[t]]
    ensures forall i :: 0 <= i < |r| ==> !r[i].Ignore?
    decreases |es|
  {
    if es == [] then []
    else
      var n := |es| - 1;
      var last := es[n];
      var rest := Contributing(es[..n]);
      assert forall t :: 0 <= t < |rest| ==> rest[t] == es[ContributingPositions(es[..n])[t]];
      if last.Ignore? then rest else rest + [last]
  }

  /** Dropping every effect that does nothing leaves the fold as it is. */
  lemma {:induction false} IgnoredEffectsDropOut(es: seq<Effect>)
    ensures Fold(es) == Fold(Contributing(es))
    decreases |es|
  {
    if es != [] {
      var prefix := es[..|es| - 1];
      IgnoredEffectsDropOut(prefix);
      var rest := Contributing(prefix);
      var last := es[|es| - 1];
      if !last.Ignore? {
        assert (rest + [last])[..|rest|] == rest;
      }
    }
  }

  /**
   Entries rejected by the filter, or whose keys have neither suffix, create
   and modify nothing: the table is that of the entries that write a route.
   */
  lemma IgnoredEntriesLeaveNoTrace(ctx: Resolver, order: seq<string>)
    requires Runnable(ctx, order)
    ensures Routes(ctx, order) == Fold(Contributing(Effects(ctx, order)))
  {
    IgnoredEffectsDropOut(Effects(ctx, order));
  }

  /** With a nil filter and no key ending in `.url` or `.path`, the table is empty. */
  lemma NoSuffixNoRoutes(ctx: Resolver, order: seq<string>)
    requires Runnable(ctx, order)
    requires ctx.filterKeyFunc.None?
    requires forall i :: 0 <= i < |order| ==> !HasSuffix(order[i], ".url") && !HasSuffix(order[i], ".path")
    ensures Routes(ctx, order) == map[]
  {
    var es := Effects(ctx, order);
    FoldNames(es);
    if n :| n in Routes(ctx, order) {
      var i :| 0 <= i < |es| && Writes(es[i], n);
      assert !EffectOf(ctx, order[i]).Ignore?;
    }
  }

  /** The URL of the last `.url` effect for `n`. */
  function LastUrl(es: seq<Effect>, n: string): Option<Url>
    decreases |es|
  {
    if es == [] then None
    else if es[|es| - 1].SetUrl? && es[|es| - 1].name == n then Some(es[|es| - 1].url)
    else LastUrl(es[..|es| - 1], n)
  }

  /** The front path of the last `.path` effect for `n`. */
  function LastFront(es: seq<Effect>, n: string): Option<string>
    decreases |es|
  {
    if es == [] then None
    else if es[|es| - 1].SetFront? && es[|es| - 1].name == n then Some(es[|es| - 1].front)
    else LastFront(es[..|es| - 1], n)
  }

  /** The record built from a URL contribution and a front-path contribution, each possibly absent. */
  function Merged(u: Option<Url>, front: Option<string>): ZuulRoute {
    match u
    case None => ZuulRoute("", "", "", front.GetOr(""))
    case Some(url) => ZuulRoute(url.scheme, url.host, url.path, front.GetOr(""))
  }

  /**
   Merging never discards a field set by the other kind of entry: each record
   holds the URL of its last `.url` effect and the front path of its last
   `.path` effect, and a group that no effect wrote stays empty.
   */
  lemma {:induction false} FoldIsLastWrites(es: seq<Effect>)
    ensures forall n :: n in Fold(es) <==> LastUrl(es, n).Some? || LastFront(es, n).Some?
    ensures forall n :: n in Fold(es) ==> Fold(es)[n] == Merged(LastUrl(es, n), LastFront(es, n))
    decreases |es|
  {
    if es != [] {
      FoldIsLastWrites(es[..|es| - 1]);
    }
  }

  /** LastUrl finds a URL exactly when some `.url` effect names `n`, and the URL is that of such an effect. */
  lemma {:induction false} LastUrlSource(es: seq<Effect>, n: string)
    ensures LastUrl(es, n).Some? <==> exists i :: 0 <= i < |es| && es[i].SetUrl? && es[i].name == n
    ensures LastUrl(es, n).Some? ==>
      exists i :: 0 <= i < |es| && es[i] == SetUrl(n, LastUrl(es, n).value)
    decreases |es|
  {
    if es != [] {
      var last := |es| - 1;
      var prefix := es[..last];
      LastUrlSource(prefix, n);
      forall i | 0 <= i < last
        ensures es[i] == prefix[i]
      {
      }
      if LastUrl(es, n).Some? && !(es[last].SetUrl? && es[last].name == n) {
        var i :| 0 <= i < |prefix| && prefix[i] == SetUrl(n, LastUrl(prefix, n).value);
        assert es[i] == prefix[i];
      }
    }
  }

  /** LastFront finds a front path exactly when some `.path` effect names `n`, and it is that of such an effect. */
  lemma {:induction false} LastFrontSource(es: seq<Effect>, n: string)
    ensures LastFront(es, n).Some? <==> exists i :: 0 <= i < |es| && es[i].SetFront? && es[i].name == n
    ensures LastFront(es, n).Some? ==>
      exists i :: 0 <= i < |es| && es[i] == SetFront(n, LastFront(es, n).value)
    decreases |es|
  {
    if es != [] {
      var last := |es| - 1;
      var prefix := es[..last];
      LastFrontSource(prefix, n);
      forall i | 0 <= i < last
        ensures es[i] == prefix[i]
      {
      }
      if LastFront(es, n).Some? && !(es[last].SetFront? && es[last].name == n) {
        var i :| 0 <= i < |prefix| && prefix[i] == SetFront(n, LastFront(prefix, n).value);
        assert es[i] == prefix[i];
      }
    }
  }

  /** No entry of the map panics. */
  predicate AllNoPanic(ctx: Resolver) {
    forall k :: k in ctx.props ==> NoPanic(ctx, k)
  }

  /** Each route name receives at most one `.url` entry and at most one `.path` entry. */
  ghost predicate OneContributionEach(ctx: Resolver)
    requires AllNoPanic(ctx)
  {
    forall k1, k2 :: k1 in ctx.props && k2 in ctx.props && k1 != k2 ==>
      && !(EffectOf(ctx, k1).SetUrl? && EffectOf(ctx, k2).SetUrl? && EffectOf(ctx, k1).name == EffectOf(ctx, k2).name)
      && !(EffectOf(ctx, k1).SetFront? && EffectOf(ctx, k2).SetFront? && EffectOf(ctx, k1).name == EffectOf(ctx, k2).name)
  }

  /** At most one entry of the map sets the URL of route `n`. */
  ghost predicate OneUrlFor(ctx: Resolver, n: string)
    requires AllNoPanic(ctx)
  {
    forall k1, k2 :: k1 in ctx.props && k2 in ctx.props && k1 != k2 ==>
      !(EffectOf(ctx, k1).SetUrl? && EffectOf(ctx, k2).SetUrl? && EffectOf(ctx, k1).name == n && EffectOf(ctx, k2).name == n)
  }

  /** At most one entry of the map sets the front path of route `n`. */
  ghost predicate OneFrontFor(ctx: Resolver, n: string)
    requires AllNoPanic(ctx)
  {
    forall k1, k2 :: k1 in ctx.props && k2 in ctx.props && k1 != k2 ==>
      !(EffectOf(ctx, k1).SetFront? && EffectOf(ctx, k2).SetFront? && EffectOf(ctx, k1).name == n && EffectOf(ctx, k2).name == n)
  }

  /** When only entry `k` sets the URL of `n`, any iteration order finds for `n` the URL of `k`. */
  lemma LastUrlIsTheContribution(ctx: Resolver, order: seq<string>, n: string, k: string)
    requires AllNoPanic(ctx) && OneUrlFor(ctx, n) && IsIterationOrder(order, ctx.props)
    requires k in ctx.props && EffectOf(ctx, k).SetUrl? && EffectOf(ctx, k).name == n
    ensures Runnable(ctx, order)
    ensures LastUrl(Effects(ctx, order), n) == Some(EffectOf(ctx, k).url)
  {
    var es := Effects(ctx, order);
    var i :| 0 <= i < |order| && order[i] == k;
    LastUrlSource(es, n);
    assert es[i].SetUrl? && es[i].name == n;
    var i' :| 0 <= i' < |es| && es[i'] == SetUrl(n, LastUrl(es, n).value);
    assert order[i'] == k;
  }

  /** When only entry `k` sets the front path of `n`, any iteration order finds for `n` the front path of `k`. */
  lemma LastFrontIsTheContribution(ctx: Resolver, order: seq<string>, n: string, k: string)
    requires AllNoPanic(ctx) && OneFrontFor(ctx, n) && IsIterationOrder(order, ctx.props)
    requires k in ctx.props && EffectOf(ctx, k).SetFront? && EffectOf(ctx, k).name == n
    ensures Runnable(ctx, order)
    ensures LastFront(Effects(ctx, order), n) == Some(EffectOf(ctx, k).front)
  {
    var es := Effects(ctx, order);
    var i :| 0 <= i < |order| && order[i] == k;
    LastFrontSource(es, n);
    assert es[i].SetFront? && es[i].name == n;
    var i' :| 0 <= i' < |es| && es[i'] == SetFront(n, LastFront(es, n).value);
    assert order[i'] == k;
  }

  /** Any two iteration orders find the same last contributions for `n`, under OneContributionEach. */
  lemma SameLastWrites(ctx: Resolver, o1: seq<string>, o2: seq<string>, n: string)
    requires AllNoPanic(ctx) && OneContributionEach(ctx)
    requires IsIterationOrder(o1, ctx.props) && IsIterationOrder(o2, ctx.props)
    ensures Runnable(ctx, o1) && Runnable(ctx, o2)
    ensures LastUrl(Effects(ctx, o1), n) == LastUrl(Effects(ctx, o2), n)
    ensures LastFront(Effects(ctx, o1), n) == LastFront(Effects(ctx, o2), n)
  {
    var e1, e2 := Effects(ctx, o1), Effects(ctx, o2);
    if k :| k in ctx.props && EffectOf(ctx, k).SetUrl? && EffectOf(ctx, k).name == n {
      LastUrlIsTheContribution(ctx, o1, n, k);
      LastUrlIsTheContribution(ctx, o2, n, k);
    } else {
      LastUrlSource(e1, n);
      LastUrlSource(e2, n);
    }
    if k :| k in ctx.props && EffectOf(ctx, k).SetFront? && EffectOf(ctx, k).name == n {
      LastFrontIsTheContribution(ctx, o1, n, k);
      LastFrontIsTheContribution(ctx, o2, n, k);
    } else {
      LastFrontSource(e1, n);
      LastFrontSource(e2, n);
    }
  }

  /**
   Order independence: when each route name receives at most one `.url` and
   one `.path` entry, every iteration order of the map yields the same table.
   */
  lemma OrderIndependent(ctx: Resolver, o1: seq<string>, o2: seq<string>)
    requires AllNoPanic(ctx) && OneContributionEach(ctx)
    requires IsIterationOrder(o1, ctx.props) && IsIterationOrder(o2, ctx.props)
    ensures Runnable(ctx, o1) && Runnable(ctx, o2)
    ensures Routes(ctx, o1) == Routes(ctx, o2)
  {
    var e1, e2 := Effects(ctx, o1), Effects(ctx, o2);
    FoldIsLastWrites(e1);
    FoldIsLastWrites(e2);
    forall n
      ensures (n in Fold(e1) <==> n in Fold(e2))
      ensures n in Fold(e1) ==> Fold(e1)[n] == Fold(e2)[n]
    {
      SameLastWrites(ctx, o1, o2, n);
    }
  }

  /**
   A `<name>.url` entry and a `<name>.path` entry merge into one record that
   carries both, in whichever order the map yields them, when no other entry
   sets the URL or the front path of that route.
   */
  lemma UrlAndPathMerge(ctx: Resolver, order: seq<string>, ku: string, kp: string, n: string)
    requires AllNoPanic(ctx) && OneUrlFor(ctx, n) && OneFrontFor(ctx, n) && IsIterationOrder(order, ctx.props)
    requires ku in ctx.props && EffectOf(ctx, ku).SetUrl? && EffectOf(ctx, ku).name == n
    requires kp in ctx.props && EffectOf(ctx, kp).SetFront? && EffectOf(ctx, kp).name == n
    ensures Runnable(ctx, order) && n in Routes(ctx, order)
    ensures var u := EffectOf(ctx, ku).url;
      Routes(ctx, order)[n] == ZuulRoute(u.scheme, u.host, u.path, EffectOf(ctx, kp).front)
  {
    LastUrlIsTheContribution(ctx, order, n, ku);
    LastFrontIsTheContribution(ctx, order, n, kp);
    FoldIsLastWrites(Effects(ctx, order));
  }
}
