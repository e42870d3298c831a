/** The routing script of docs/spa-redirect.js for a single-page site on a
    static host: restoring a route saved in session storage, and rebuilding a
    route that a not-found page encoded into the query string (`?p=<route>&q=<query>`,
    with `&` written as `~and~`). */
module SpaRedirect {
  import opened Wrappers

  // ----- Split and join -----

  /** `s.split(sep)` for a one-character separator: never empty; "" gives [""]. */
  function Split(s: string, sep: char): (r: seq<string>)
    ensures |r| >= 1
    ensures forall i :: 0 <= i < |r| ==> sep !in r[i]
    decreases |s|
  {
    if s == [] then [""]
    else
      var rest := Split(s[1..], sep);
      if s[0] == sep then [""] + rest
      else [[s[0]] + rest[0]] + rest[1..]
  }

  /** `parts.join(sep)` */
  function Join(parts: seq<string>, sep: char): string
    decreases |parts|
  {
    if parts == [] then ""
    else if |parts| == 1 then parts[0]
    else parts[0] + [sep] + Join(parts[1..], sep)
  }

  /** Joining what was split gives the string back. */
  lemma {:induction false} JoinSplit(s: string, sep: char)
    ensures Join(Split(s, sep), sep) == s
    decreases |s|
  {
    if s != [] {
      var rest := Split(s[1..], sep);
      JoinSplit(s[1..], sep);
      if s[0] == sep {
        assert Split(s, sep) == [""] + rest;
        assert s == "" + [sep] + s[1..];
      } else {
        var r := Split(s, sep);
        assert r == [[s[0]] + rest[0]] + rest[1..];
        if |rest| == 1 {
          assert r == [[s[0]] + rest[0]];
        } else {
          assert r[1..] == rest[1..];
          assert Join(rest, sep) == rest[0] + [sep] + Join(rest[1..], sep);
        }
      }
    }
  }

  /** A string without the separator is one piece. */
  lemma {:induction false} SplitWithout(s: string, sep: char)
    requires sep !in s
    ensures Split(s, sep) == [s]
    decreases |s|
  {
    if s != [] {
      SplitWithout(s[1..], sep);
      assert [s[0]] + s[1..] == s;
    }
  }

  /** Splitting around one separator splits each side. */
  lemma {:induction false} SplitAround(a: string, b: string, sep: char)
    ensures Split(a + [sep] + b, sep) == Split(a, sep)[..|Split(a, sep)| - 1] +
                                        [Split(a, sep)[|Split(a, sep)| - 1]] + Split(b, sep)
    decreases |a|
  {
    var s := a + [sep] + b;
    if a == [] {
      assert s[1..] == b;
    } else {
      assert s[1..] == a[1..] + [sep] + b;
      SplitAround(a[1..], b, sep);
    }
  }

  /** The pieces of `a + sep + b` when `a` holds no separator: `a`, then the
      pieces of `b`. */
  lemma SplitFirst(a: string, b: string, sep: char)
    requires sep !in a
    ensures Split(a + [sep] + b, sep) == [a] + Split(b, sep)
  {
    SplitAround(a, b, sep);
    SplitWithout(a, sep);
  }

  // ----- Unescaping -----

  const AndMark: string := "~and~"

  /** `.replace(/~and~/g, '&')`: left to right, without overlaps. */
  function Unescape(s: string): string
    decreases |s|
  {
    if |s| >= 5 && s[..5] == AndMark then "&" + Unescape(s[5..])
    else if s == [] then []
    else [s[0]] + Unescape(s[1..])
  }

  /** The encoding on the other side: every `&` written as `~and~`. */
  function Escape(s: string): (r: string)
    ensures '&' !in r
    decreases |s|
  {
    if s == [] then []
    else (if s[0] == '&' then AndMark else [s[0]]) + Escape(s[1..])
  }

  /** Unescaping undoes the encoding of any text without `~`. */
  lemma {:induction false} UnescapeEscape(s: string)
    requires '~' !in s
    ensures Unescape(Escape(s)) == s
    decreases |s|
  {
    if s != [] {
      UnescapeEscape(s[1..]);
      var e := Escape(s);
      if s[0] == '&' {
        assert e == AndMark + Escape(s[1..]);
        assert e[..5] == AndMark && e[5..] == Escape(s[1..]);
      } else {
        assert e == [s[0]] + Escape(s[1..]);
        assert e[1..] == Escape(s[1..]);
      }
      assert s == [s[0]] + s[1..];
    }
  }

  // ----- The query object -----

  /** `a[0]` of `v.split('=')`. */
  function Key(pair: string): string {
    Split(pair, '=')[0]
  }

  /** `a.slice(1).join('=').replace(/~and~/g, '&')` */
  function Value(pair: string): string {
    Unescape(Join(Split(pair, '=')[1..], '='))
  }

  /** A pair is split at its first `=`: the key is what precedes it and the
      value is everything after it, later `=` included. */
  lemma PairAtFirstEquals(key: string, rest: string)
    requires '=' !in key
    ensures Key(key + "=" + rest) == key
    ensures Value(key + "=" + rest) == Unescape(rest)
  {
    SplitFirst(key, rest, '=');
    JoinSplit(rest, '=');
  }

  /** A pair without `=` is a key with the empty value. */
  lemma PairWithoutEquals(pair: string)
    requires '=' !in pair
    ensures Key(pair) == pair && Value(pair) == ""
  {
    SplitWithout(pair, '=');
  }

  /** The query object after the pairs, each pair overwriting its key. */
  function Query(pairs: seq<string>): map<string, string>
    decreases |pairs|
  {
    if pairs == [] then map[]
    else Query(pairs[..|pairs| - 1])[Key(pairs[|pairs| - 1]) := Value(pairs[|pairs| - 1])]
  }

  /** A key is present exactly when some pair has it, and its value is that
      of the last such pair. */
  lemma {:induction false} QueryLastWins(pairs: seq<string>, k: string)
    ensures k in Query(pairs) <==> exists i :: 0 <= i < |pairs| && Key(pairs[i]) == k
    ensures forall i :: (0 <= i < |pairs| && Key(pairs[i]) == k &&
                         forall j :: i < j < |pairs| ==> Key(pairs[j]) != k) ==> Query(pairs)[k] == Value(pairs[i])
    decreases |pairs|
  {
    if pairs != [] {
      var n := |pairs| - 1;
      var init := pairs[..n];
      QueryLastWins(init, k);
      assert forall i :: 0 <= i < n ==> init[i] == pairs[i];
      if Key(pairs[n]) == k {
        assert Query(pairs)[k] == Value(pairs[n]);
      } else {
        assert Query(pairs) == Query(init)[Key(pairs[n]) := Value(pairs[n])];
        assert (k in Query(pairs)) == (k in Query(init));
      }
    }
  }

  /** The parse loop (`forEach` over the pairs). */
  method ParseQuery(search: string) returns (query: map<string, string>)
    requires search != ""
    ensures query == Query(Split(search[1..], '&'))
  {
    var pairs := Split(search[1..], '&');
    query := map[];
    var i := 0;
    while i < |pairs|
      invariant 0 <= i <= |pairs|
      invariant query == Query(pairs[..i])
    {
      var a := Split(pairs[i], '=');
      query := query[a[0] := Unescape(Join(a[1..], '='))];
      assert pairs[..i + 1][..i] == pairs[..i];
      i := i + 1;
    }
    assert pairs[..|pairs|] == pairs;
  }

  /** The rewritten address: the path without its last character, the route
      (or nothing), `?` and the query only when it is non-empty, the hash. */
  function NewUrl(pathname: string, query: map<string, string>, hash: string): string {
    (if |pathname| > 0 then pathname[..|pathname| - 1] else "") +
    (if "p" in query then query["p"] else "") +
    (if "q" in query && query["q"] != "" then "?" + query["q"] else "") +
    hash
  }

  /** The round trip with the not-found page: a route and a query without `~`,
      encoded as `?p=<route>&q=<query>`, are
      rebuilt after the base path. */
  lemma RewriteRestoresRoute(base: string, route: string, q: string, hash: string)
    requires '~' !in route && '~' !in q
    ensures var search := "?p=" + Escape(route) + "&q=" + Escape(q);
            NewUrl(base + "/", Query(Split(search[1..], '&')), hash) ==
              base + route + (if q != "" then "?" + q else "") + hash
  {
    EncodedQueryDecodes(route, q);
    assert (base + "/")[..|base + "/"| - 1] == base;
  }

  /** The query the not-found page encodes parses back to the route and the
      query it started from. */
  lemma EncodedQueryDecodes(route: string, q: string)
    requires '~' !in route && '~' !in q
    ensures var search := "?p=" + Escape(route) + "&q=" + Escape(q);
            Query(Split(search[1..], '&')) == map["p" := route, "q" := q]
  {
    var p, qq := "p" + "=" + Escape(route), "q" + "=" + Escape(q);
    EncodedQuerySplits(route, q);
    PairAtFirstEquals("p", Escape(route));
    PairAtFirstEquals("q", Escape(q));
    UnescapeEscape(route);
    UnescapeEscape(q);
    assert [p, qq][..1] == [p] && [p][..0] == [];
    assert Query([p]) == map[]["p" := route];
    assert Query([p, qq]) == Query([p])["q" := q];
  }

  /** The encoded query splits at `&` into exactly its two pairs. */
  lemma EncodedQuerySplits(route: string, q: string)
    ensures var search := "?p=" + Escape(route) + "&q=" + Escape(q);
            Split(search[1..], '&') == ["p" + "=" + Escape(route), "q" + "=" + Escape(q)]
  {
    var p, qq := "p=" + Escape(route), "q=" + Escape(q);
    var search := "?p=" + Escape(route) + "&q=" + Escape(q);
    assert search[1..] == p + "&" + qq;
    assert '&' !in p by {
      assert forall i :: 0 <= i < |p| ==> p[i] == (if i < 2 then "p="[i] else Escape(route)[i - 2]);
    }
    SplitFirst(p, qq, '&');
    assert '&' !in qq by {
      assert forall i :: 0 <= i < |qq| ==> qq[i] == (if i < 2 then "q="[i] else Escape(q)[i - 2]);
    }
    SplitWithout(qq, '&');
    assert p == "p" + "=" + Escape(route) && qq == "q" + "=" + Escape(q);
  }

  // ----- The page -----

  class Page {
    var href: string
    var pathname: string
    var search: string
    var hash: string
    /** `sessionStorage.redirect` */
    var redirect: Option<string>

    constructor (href: string, pathname: string, search: string, hash: string, redirect: Option<string>)
      ensures this.href == href && this.pathname == pathname && this.search == search
      ensures this.hash == hash && this.redirect == redirect
    {
      this.href, this.pathname, this.search, this.hash := href, pathname, search, hash;
      this.redirect := redirect;
    }

    /** The first script: the saved route is always deleted, and replaces the
        address only when present, non-empty and different from it. */
    method RestoreRedirect()
      modifies this
      ensures redirect == None
      ensures href == if old(redirect).Some? && old(redirect).value != "" && old(redirect).value != old(href)
                      then old(redirect).value else old(href)
      ensures href == old(href) ==> pathname == old(pathname) && search == old(search) && hash == old(hash)
    {
      var saved := redirect;
      redirect := None;
      if saved.Some? && saved.value != "" && saved.value != href {
        href := saved.value;
      }
    }

    /** The second script: with a query holding `p`, the address is rebuilt
        from it; otherwise it is left alone. */
    method RewriteFromQuery()
      modifies this
      ensures search != "" && "p" in Query(Split(search[1..], '&')) ==>
                href == NewUrl(pathname, Query(Split(search[1..], '&')), hash)
      ensures !(search != "" && "p" in Query(Split(search[1..], '&'))) ==> href == old(href)
      ensures pathname == old(pathname) && search == old(search) && hash == old(hash) && redirect == old(redirect)
    {
      if search != "" {
        var query := ParseQuery(search);
        if "p" in query {
          href := NewUrl(pathname, query, hash);
        }
      }
    }
  }
}
