/**
 The route-reconstruction pass of zuuly: the flat key/value map of the first
 property source of a config-server document is folded, one entry at a time,
 into a table of named reverse-proxy routes. `<name>.url` entries set a route's
 target scheme, host and path; `<name>.path` entries set its public path.

 Go iterates the map in an unspecified order; here that order is the
 parameter `order`, which lists every key exactly once. `os.Getenv` is the
 parameter `env`, and `url.Parse` the parameter `parse`, which yields None
 where Go returns an error.
 */
module Zuuly {
  import opened Wrappers
  import opened GoStrings
  import opened PlaceholderRegexp

  /** A decoded JSON value of a property source: a string, or anything else. */
  datatype Value = Str(s: string) | NonString

  /** A property source of the config document (only its flat map is used). */
  datatype PropertySource = PropertySource(name: string, source: map<string, Value>)

  /** The three parts of a parsed URL the parser keeps. */
  datatype Url = Url(scheme: string, host: string, path: string)

  /** A reverse-proxy route. */
  datatype ZuulRoute = ZuulRoute(
    reverseProxyScheme: string,
    reverseProxyBaseURL: string,
    reverseProxyPath: string,
    frontPath: string)

  /** The zero value of ZuulRoute, which a new map entry starts from. */
  const EmptyRoute := ZuulRoute("", "", "", "")

  datatype Proxy = Proxy(routes: map<string, ZuulRoute>)

  /** FilterFunc: a new key (possibly nil) and whether the key is accepted. */
  type FilterFunc = string -> (Option<string>, bool)

  /** FilterKeyFunc: the key to use, or None (nil) to drop the entry. */
  type FilterKeyFunc = string -> Option<string>

  /** GetKey: adapts a FilterFunc into a FilterKeyFunc that drops every key the FilterFunc does not accept. */
  function GetKey(filter: FilterFunc): (r: FilterKeyFunc)
    ensures forall k :: r(k).Some? <==> filter(k).1 && filter(k).0.Some?
    ensures forall k :: r(k).Some? ==> r(k) == filter(k).0
  {
    k => if filter(k).1 then filter(k).0 else None
  }

  /** The routing-table prefix of the repository's test. */
  const Prefix := "zuul.routes"

  /** The test's filter: keys that start with the prefix lose its first occurrence; all others are rejected. */
  function PrefixFilter(field: string): (r: (Option<string>, bool))
    ensures r.1 <==> HasPrefix(field, Prefix)
    ensures r.1 ==> r.0 == Some(field[|Prefix|..])
    ensures !r.1 ==> r.0 == None
  {
    if HasPrefix(field, Prefix) then
      ReplaceFirstOfPrefix(field, Prefix, "");
      (Some(ReplaceFirst(field, Prefix, "")), true)
    else (None, false)
  }

  /**
   envValue: when the leftmost `${...}` match in `s` has the group X, the
   environment value of X (not resolved any further), whatever surrounds that
   match; with no match, `s` unchanged.
   */
  function EnvValue(s: string, env: string -> string): (r: string)
    ensures NoMatch(s) ==> r == s
    ensures forall i: nat, j: nat :: LeftmostMatch(s, i, j) ==> r == env(s[i + 2..j])
  {
    match PlaceholderKey(s)
    case None => s
    case Some(x) => env(x)
  }

  /**
   zuulURL: a route value `${K}rest` resolves to envValue(props[K]) followed
   by the text between the first and the second `}` of the value. Text before
   the `${` is dropped. A missing K or a non-string props[K] yields "", and a
   value with no placeholder is returned unchanged.
   */
  function ZuulURL(route: string, props: map<string, Value>, env: string -> string): (r: string)
    ensures NoMatch(route) ==> r == route
    ensures forall i: nat, j: nat :: LeftmostMatch(route, i, j) ==>
      var key := route[i + 2..j];
      && (key !in props ==> r == "")
      && (key in props && props[key].NonString? ==> r == "")
      && (key in props && props[key].Str? ==> r == EnvValue(props[key].s, env) + SecondField(route, '}'))
  {
    match PlaceholderKey(route)
    case None => route
    case Some(key) =>
      if key !in props then ""
      else match props[key]
        case NonString => ""
        case Str(keyStr) =>
          assert '}' in route by {
            var m := FindPlaceholder(route).value;
            assert route[m.close] == '}';
          }
          EnvValue(keyStr, env) + SecondField(route, '}')
  }

  /**
   Everything one parsing pass depends on: the first property source's map,
   the caller's filter (None for a nil FilterKeyFunc), the environment and the
   URL parser.
   */
  datatype Resolver = Resolver(
    props: map<string, Value>,
    filterKeyFunc: Option<FilterKeyFunc>,
    env: string -> string,
    parse: string -> Option<Url>)

  /** The key the pass works with: the raw key under a nil filter, else the filter's answer. */
  function FilteredKey(filterKeyFunc: Option<FilterKeyFunc>, k: string): (r: Option<string>)
    ensures filterKeyFunc.None? ==> r == Some(k)
    ensures filterKeyFunc.Some? ==> r == filterKeyFunc.value(k)
  {
    match filterKeyFunc
    case None => Some(k)
    case Some(f) => f(k)
  }

  /**
   Processing the entry for `k` does not panic: a `.url` entry must hold a
   string whose resolved URL parses (Go would dereference the nil *url.URL),
   and a `.path` entry must hold a string (the type assertion `v.(string)`).
   */
  predicate NoPanic(ctx: Resolver, k: string)
    requires k in ctx.props
  {
    match FilteredKey(ctx.filterKeyFunc, k)
    case None => true
    case Some(key) =>
      if HasSuffix(key, ".url") then
        ctx.props[k].Str? && ctx.parse(ZuulURL(ctx.props[k].s, ctx.props, ctx.env)).Some?
      else if HasSuffix(k, ".path") then ctx.props[k].Str?
      else true
  }

  /** What one map entry does to the table. */
  datatype Effect =
    | Ignore
    | SetUrl(name: string, url: Url)
    | SetFront(name: string, front: string)

  /**
   The effect of the entry for `k`. A rejected key does nothing. A filtered key
   ending in `.url` sets the URL fields of the route named by the key without
   its first `.url`. Otherwise a RAW key ending in `.path` sets the front path
   of the route named by the filtered key without its first `.path`, with the
   first double wildcard of the value made a single one. Any other key does nothing.
   */
  function EffectOf(ctx: Resolver, k: string): (e: Effect)
    requires k in ctx.props && NoPanic(ctx, k)
    ensures FilteredKey(ctx.filterKeyFunc, k).None? ==> e == Ignore
    ensures e.SetUrl? <==>
      FilteredKey(ctx.filterKeyFunc, k).Some? && HasSuffix(FilteredKey(ctx.filterKeyFunc, k).value, ".url")
    ensures e.SetFront? <==>
      && FilteredKey(ctx.filterKeyFunc, k).Some?
      && !HasSuffix(FilteredKey(ctx.filterKeyFunc, k).value, ".url")
      && HasSuffix(k, ".path")
    ensures e.SetUrl? ==>
      && e.name == ReplaceFirst(FilteredKey(ctx.filterKeyFunc, k).value, ".url", "")
      && ctx.props[k].Str?
      && ctx.parse(ZuulURL(ctx.props[k].s, ctx.props, ctx.env)) == Some(e.url)
    ensures e.SetFront? ==>
      && e.name == ReplaceFirst(FilteredKey(ctx.filterKeyFunc, k).value, ".path", "")
      && ctx.props[k].Str?
      && e.front == ReplaceFirst(ctx.props[k].s, "/**", "/*")
  {
    match FilteredKey(ctx.filterKeyFunc, k)
    case None => Ignore
    case Some(key) =>
      if HasSuffix(key, ".url") then
        SetUrl(ReplaceFirst(key, ".url", ""), ctx.parse(ZuulURL(ctx.props[k].s, ctx.props, ctx.env)).value)
      else if HasSuffix(k, ".path") then
        SetFront(ReplaceFirst(key, ".path", ""), ReplaceFirst(ctx.props[k].s, "/**", "/*"))
      else Ignore
  }

  /**
   One fetch-modify-store step on the table. It writes only the record the
   effect names, creating it from EmptyRoute when absent, and changes only its
   own group of fields.
   */
  function Apply(table: map<string, ZuulRoute>, e: Effect): (r: map<string, ZuulRoute>)
    ensures e.Ignore? ==> r == table
    ensures !e.Ignore? ==> r.Keys == table.Keys + {e.name}
    ensures !e.Ignore? ==> forall n :: n in table && n != e.name ==> r[n] == table[n]
    ensures e.SetUrl? ==>
      var was := if e.name in table then table[e.name] else EmptyRoute;
      r[e.name] == ZuulRoute(e.url.scheme, e.url.host, e.url.path, was.frontPath)
    ensures e.SetFront? ==>
      var was := if e.name in table then table[e.name] else EmptyRoute;
      r[e.name] == ZuulRoute(was.reverseProxyScheme, was.reverseProxyBaseURL, was.reverseProxyPath, e.front)
  {
    match e
    case Ignore => table
    case SetUrl(n, u) =>
      var zr := if n in table then table[n] else EmptyRoute;
      table[n := zr.(reverseProxyBaseURL := u.host, reverseProxyScheme := u.scheme, reverseProxyPath := u.path)]
    case SetFront(n, f) =>
      var zr := if n in table then table[n] else EmptyRoute;
      table[n := zr.(frontPath := f)]
  }

  /** Every key of `order` is in the map, and processing it does not panic. */
  predicate Runnable(ctx: Resolver, order: seq<string>) {
    forall i :: 0 <= i < |order| ==> order[i] in ctx.props && NoPanic(ctx, order[i])
  }

  /** The effects of the entries of `order`, in turn. */
  function Effects(ctx: Resolver, order: seq<string>): (es: seq<Effect>)
    requires Runnable(ctx, order)
    ensures |es| == |order|
    ensures forall i :: 0 <= i < |order| ==> es[i] == EffectOf(ctx, order[i])
  {
    seq(|order|, i requires 0 <= i < |order| => EffectOf(ctx, order[i]))
  }

  /** The table after applying `es` in turn to an empty one. */
  function Fold(es: seq<Effect>): map<string, ZuulRoute> {
    if es == [] then map[]
    else Apply(Fold(es[..|es| - 1]), es[|es| - 1])
  }

  /** The table after processing the entries of `order` in turn. */
  function Routes(ctx: Resolver, order: seq<string>): map<string, ZuulRoute>
    requires Runnable(ctx, order)
  {
    Fold(Effects(ctx, order))
  }

  /** Folding one more effect is Apply on the fold of the ones before. */
  lemma FoldStep(es: seq<Effect>, i: nat)
    requires i < |es|
    ensures Fold(es[..i + 1]) == Apply(Fold(es[..i]), es[i])
  {
    assert es[..i + 1][..i] == es[..i];
  }

  /** `order` is one iteration order of `props`: every key exactly once. */
  predicate IsIterationOrder(order: seq<string>, props: map<string, Value>) {
    && (forall i, j :: 0 <= i < j < |order| ==> order[i] != order[j])
    && (forall i :: 0 <= i < |order| ==> order[i] in props)
    && (forall k :: k in props ==> k in order)
  }

  /** The `.url` upsert: fetch the named record or start from the zero record, set its URL fields, store it back. */
  method UpsertUrl(zuulRoutes: map<string, ZuulRoute>, name: string, u: Url) returns (updated: map<string, ZuulRoute>)
    ensures updated == Apply(zuulRoutes, SetUrl(name, u))
  {
    if name in zuulRoutes {
      var zr := zuulRoutes[name];
      zr := zr.(reverseProxyBaseURL := u.host, reverseProxyScheme := u.scheme, reverseProxyPath := u.path);
      updated := zuulRoutes[name := zr];
    } else {
      updated := zuulRoutes[name := ZuulRoute(u.scheme, u.host, u.path, "")];
    }
  }

  /** The `.path` upsert: fetch the named record or start from the zero record, set its front path, store it back. */
  method UpsertFront(zuulRoutes: map<string, ZuulRoute>, name: string, strVal: string) returns (updated: map<string, ZuulRoute>)
    ensures updated == Apply(zuulRoutes, SetFront(name, strVal))
  {
    if name in zuulRoutes {
      var zr := zuulRoutes[name];
      zr := zr.(frontPath := strVal);
      updated := zuulRoutes[name := zr];
    } else {
      updated := zuulRoutes[name := ZuulRoute("", "", "", strVal)];
    }
  }

  /**
   The body of GetProxy's loop: the entry for `k` is filtered, then upserted
   into the table, exactly as EffectOf and Apply say.
   */
  method ProcessEntry(
    zuulRoutes: map<string, ZuulRoute>,
    propertySources: map<string, Value>,
    k: string,
    filterKeyFunc: Option<FilterKeyFunc>,
    env: string -> string,
    parse: string -> Option<Url>)
    returns (updated: map<string, ZuulRoute>)
    requires k in propertySources && NoPanic(Resolver(propertySources, filterKeyFunc, env, parse), k)
    ensures updated == Apply(zuulRoutes, EffectOf(Resolver(propertySources, filterKeyFunc, env, parse), k))
  {
    updated := zuulRoutes;
    var v := propertySources[k];
    var key := Some(k);
    if filterKeyFunc.Some? {
      key := filterKeyFunc.value(k);
    }
    assert key == FilteredKey(filterKeyFunc, k);
    if key.Some? {
      if HasSuffix(key.value, ".url") {
        var name := ReplaceFirst(key.value, ".url", "");
        var u := parse(ZuulURL(v.s, propertySources, env)).value;
        updated := UpsertUrl(updated, name, u);
      } else if HasSuffix(k, ".path") {
        var name := ReplaceFirst(key.value, ".path", "");
        var strVal := ReplaceFirst(v.s, "/**", "/*");
        updated := UpsertFront(updated, name, strVal);
      }
    }
  }

  /**
   The parse half of GetProxy: folds the first property source into the route
   table. An empty source list makes Go panic on the index, and so does a
   panicking entry; both are preconditions.
   */
  method GetProxy(
    sources: seq<PropertySource>,
    order: seq<string>,
    filterKeyFunc: Option<FilterKeyFunc>,
    env: string -> string,
    parse: string -> Option<Url>)
    returns (proxy: Proxy)
    requires |sources| > 0
    requires IsIterationOrder(order, sources[0].source)
    requires forall k :: k in sources[0].source ==>
      NoPanic(Resolver(sources[0].source, filterKeyFunc, env, parse), k)
    ensures Runnable(Resolver(sources[0].source, filterKeyFunc, env, parse), order)
    ensures proxy.routes == Routes(Resolver(sources[0].source, filterKeyFunc, env, parse), order)
  {
    var propertySources := sources[0].source;
    ghost var ctx := Resolver(propertySources, filterKeyFunc, env, parse);
    assert Runnable(ctx, order);
    var zuulRoutes: map<string, ZuulRoute> := map[];
    var i := 0;
    ghost var es := Effects(ctx, order);
    while i < |order|
      invariant 0 <= i <= |order|
      invariant zuulRoutes == Fold(es[..i])
    {
      zuulRoutes := ProcessEntry(zuulRoutes, propertySources, order[i], filterKeyFunc, env, parse);
      FoldStep(es, i);
      i := i + 1;
    }
    assert es[..i] == es;
    proxy := Proxy(zuulRoutes);
  }
}
