/**
 What the parser's helpers do on particular inputs: the placeholder example
 of zuulURL's doc comment, one level of environment lookup, the rewrite of
 a double wildcard in front paths, route naming by the first occurrence of a suffix,
 and the prefix filter of the repository's test.

 The lemmas about particular strings take those strings as parameters that a
 requires clause fixes, rather than writing the literals into the ensures:
 the verifier unfolds a recursive function applied to literal arguments
 without bound, and a parameter keeps that unfolding in check.
 */
module ZuulyExamples {
  import opened Wrappers
  import opened GoStrings
  import opened PlaceholderRegexp
  import opened Zuuly

  /** A string with no `$` holds no placeholder. */
  lemma NoDollarNoMatch(s: string)
    requires '$' !in s
    ensures NoMatch(s)
  {
    forall i: nat, j: nat
      ensures !MatchAt(s, i, j)
    {
      if i < |s| {
        assert s[i] != '$';
      }
    }
  }

  /**
   A value laid out as `pre${key}rest`, with no `$` or `}` in `pre`, no `}` or
   newline in `key` and no `}` in `rest`: the reported match is the `${key}`
   and the second `}`-separated field is `rest`.
   */
  lemma {:induction false} PlaceholderLayout(pre: string, key: string, rest: string)
    requires '$' !in pre && '}' !in pre
    requires '}' !in key && '\n' !in key
    requires '}' !in rest
    ensures var route := pre + "${" + key + "}" + rest;
      && LeftmostMatch(route, |pre|, |pre| + 2 + |key|)
      && route[|pre| + 2..|pre| + 2 + |key|] == key
      && '}' in route
      && SecondField(route, '}') == rest
  {
    var route := pre + "${" + key + "}" + rest;
    var p, c := |pre|, |pre| + 2 + |key|;
    assert route[p + 2..c] == key;
    assert MatchAt(route, p, c) by {
      forall q | p + 2 <= q < c
        ensures route[q] != '}' && route[q] != '\n'
      {
        assert route[q] == key[q - p - 2];
      }
    }
    forall i': nat, j': nat | i' < p
      ensures !MatchAt(route, i', j')
    {
      assert route[i'] == pre[i'];
    }
    assert route[..c] == pre + "${" + key;
    assert CharIndex(route, '}') == c;
    var r := SecondField(route, '}');
    assert route[c + 1..] == rest;
  }

  /**
   zuulURL on `pre${key}rest`, laid out so that `${key}` is the leftmost match:
   the text before the placeholder is dropped and the text after it kept; a
   missing or non-string key yields "".
   */
  lemma ZuulURLOfPlaceholder(pre: string, key: string, rest: string, props: map<string, Value>, env: string -> string)
    requires '$' !in pre && '}' !in pre
    requires '}' !in key && '\n' !in key
    requires '}' !in rest
    ensures ZuulURL(pre + "${" + key + "}" + rest, props, env) ==
      if key in props && props[key].Str? then EnvValue(props[key].s, env) + rest else ""
  {
    PlaceholderLayout(pre, key, rest);
  }

  /**
   envValue on `pre${x}rest` is the environment value of x, taken verbatim,
   when `${x}` is the leftmost match: pre holds no `$` or `}`, x no `}` or
   newline, and rest no `}`.
   */
  lemma EnvValueOfPlaceholder(pre: string, x: string, rest: string, env: string -> string)
    requires '$' !in pre && '}' !in pre
    requires '}' !in x && '\n' !in x
    requires '}' !in rest
    ensures EnvValue(pre + "${" + x + "}" + rest, env) == env(x)
  {
    PlaceholderLayout(pre, x, rest);
  }

  /**
   The doc example: with SOME_OTHER_ENV_KEY=http://google.com in the
   environment and other.key.url holding "${SOME_OTHER_ENV_KEY}", the value
   "${other.key.url}/api/path" resolves to "http://google.com" followed by
   "/api/path". The values are written as `${` + key + `}` + rest.
   */
  lemma DocExample(route: string, key: string, envKey: string, props: map<string, Value>, env: string -> string)
    requires key == "other.key.url" && envKey == "SOME_OTHER_ENV_KEY"
    requires route == "${" + key + "}" + "/api/path"
    requires key in props && props[key] == Str("${" + envKey + "}")
    requires env(envKey) == "http://google.com"
    ensures ZuulURL(route, props, env) == "http://google.com" + "/api/path"
  {
    assert '}' !in key && '\n' !in key;
    assert '}' !in "/api/path";
    assert route == "" + "${" + key + "}" + "/api/path";
    ZuulURLOfPlaceholder("", key, "/api/path", props, env);
    DocExampleEnv(props[key].s, envKey, env);
  }

  /** The inner step of the doc example: "${SOME_OTHER_ENV_KEY}" is looked up in the environment. */
  lemma DocExampleEnv(value: string, envKey: string, env: string -> string)
    requires envKey == "SOME_OTHER_ENV_KEY" && value == "${" + envKey + "}"
    requires env(envKey) == "http://google.com"
    ensures EnvValue(value, env) == "http://google.com"
  {
    assert '}' !in envKey && '\n' !in envKey;
    assert value == "" + "${" + envKey + "}" + "";
    EnvValueOfPlaceholder("", envKey, "", env);
  }

  /** A value from the environment is not resolved again, even when it looks like a placeholder. */
  lemma EnvValueOneLevel(s: string, env: string -> string)
    requires s == "${A}" && env("A") == "${B}"
    ensures EnvValue(s, env) == "${B}"
  {
    assert s == "" + "${" + "A" + "}" + "";
    EnvValueOfPlaceholder("", "A", "", env);
  }

  /**
   A front path ending in a double wildcard loses one star: the path of the
   requires, `/service/` and two stars, becomes `/service/` and one star.
   */
  lemma FrontPathWildcard(path: string, wildcard: string, single: string)
    requires path == "/service/**" && wildcard == "/**" && single == "/*"
    ensures ReplaceFirst(path, wildcard, single) == "/service/*"
  {
    assert FirstOccurrence(path, wildcard, 8) by {
      forall j: nat | j < 8
        ensures !OccursAt(path, wildcard, j)
      {
        assert path[j + 1] != '*';
        if j + 3 <= |path| {
          assert path[j..j + 3][1] == path[j + 1];
          assert path[j..j + 3] != wildcard;
        }
      }
    }
    assert path[..8] + single + path[11..] == "/service/*";
  }

  /** A front path without a slash followed by two stars is kept as it is. */
  lemma FrontPathWithoutWildcard(path: string)
    requires forall j: nat :: !OccursAt(path, "/**", j)
    ensures ReplaceFirst(path, "/**", "/*") == path
  {
  }

  /** When the suffix occurs only at the end, removing its first occurrence strips the suffix. */
  lemma {:induction false} NameIsSuffixStrip(key: string, suffix: string)
    requires HasSuffix(key, suffix)
    requires forall j: nat :: j < |key| - |suffix| ==> !OccursAt(key, suffix, j)
    ensures ReplaceFirst(key, suffix, "") == key[..|key| - |suffix|]
  {
    assert FirstOccurrence(key, suffix, |key| - |suffix|);
    assert key[|key|..] == [];
  }

  /** Route names drop the FIRST ".url", not the suffix: "a.url.b.url" names route "a.b.url". */
  lemma NameDropsFirstOccurrence(key: string, suffix: string)
    requires key == "a.url.b.url" && suffix == ".url"
    ensures HasSuffix(key, suffix)
    ensures ReplaceFirst(key, suffix, "") == "a.b.url"
  {
    assert FirstOccurrence(key, suffix, 1) by {
      assert key[0] != '.';
    }
    assert key[..1] + "" + key[5..] == "a.b.url";
  }

  /** The test's filter keeps keys that start with "zuul.routes" minus that prefix, and rejects all others. */
  lemma PrefixFilterStrips(field: string)
    ensures GetKey(PrefixFilter)(field) ==
      if HasPrefix(field, Prefix) then Some(field[|Prefix|..]) else None
  {
  }
}
