/**
 * The query string that the extension's `xhrGet` helper appends to every
 * request URL (chrome-extension/background/slack.js), a parser that takes it
 * apart again, and the extraction of the OAuth `code` parameter from the
 * redirect URL in `connect`.
 */
module QueryString {
  import opened Wrappers

  /** `parts` with `sep` between consecutive elements, as `Array.prototype.join`. */
  function Join(parts: seq<string>, sep: char): string
  {
    if |parts| == 0 then ""
    else if |parts| == 1 then parts[0]
    else parts[0] + [sep] + Join(parts[1..], sep)
  }

  /** `String.prototype.split` on a single character: always at least one piece. */
  function Split(s: string, sep: char): (r: seq<string>)
    ensures |r| >= 1
    decreases |s|
  {
    if |s| == 0 then [""]
    else
      var rest := Split(s[1..], sep);
      if s[0] == sep then [""] + rest
      else [[s[0]] + rest[0]] + rest[1..]
  }

  /** One `k=v` assignment per parameter, in key order. */
  function Assignments(params: seq<(string, string)>): (r: seq<string>)
    ensures |r| == |params|
    ensures forall i :: 0 <= i < |params| ==> r[i] == params[i].0 + "=" + params[i].1
  {
    if |params| == 0 then []
    else [params[0].0 + "=" + params[0].1] + Assignments(params[1..])
  }

  /**
   * The URL `xhrGet(url, params, ...)` opens: the url, a `?`, and the `k=v`
   * assignments joined by `&`, with no percent-encoding. `params` lists the
   * object's keys in `Object.keys` order.
   */
  function RequestUrl(url: string, params: seq<(string, string)>): (r: string)
    ensures |params| == 0 ==> r == url + "?"
    ensures |params| == 1 ==> r == url + "?" + params[0].0 + "=" + params[0].1
    ensures |r| > |url| && r[..|url| + 1] == url + "?"
  {
    url + "?" + Join(Assignments(params), '&')
  }

  /**
   * The piece after the first `?`, as `url.split("?")[1]`: the text between
   * the first `?` and the next one (or the end); None when `url` has no `?`.
   */
  function QueryOf(url: string): (r: Option<string>)
    ensures r.Some? <==> '?' in url
    ensures r.Some? ==>
      (|TakeUntil(url, '?')| < |url| && r.value == TakeUntil(url[|TakeUntil(url, '?')| + 1..], '?'))
  {
    var pieces := Split(url, '?');
    SplitPieces(url, '?');
    if |pieces| >= 2 then
      SplitPieces(url[|TakeUntil(url, '?')| + 1..], '?');
      Some(pieces[1])
    else None
  }

  /**
   * The first piece of a split runs up to the first separator, there are
   * further pieces exactly when the separator occurs, and they are the split
   * of what follows it.
   */
  lemma {:induction false} SplitPieces(s: string, sep: char)
    ensures Split(s, sep)[0] == TakeUntil(s, sep)
    ensures |Split(s, sep)| >= 2 <==> sep in s
    ensures sep in s ==>
      (|TakeUntil(s, sep)| < |s| && Split(s, sep)[1..] == Split(s[|TakeUntil(s, sep)| + 1..], sep))
    decreases |s|
  {
    if |s| == 0 {
    } else if s[0] == sep {
      assert sep in s;
    } else {
      var t := s[1..];
      SplitPieces(t, sep);
      assert sep in s <==> sep in t by {
        assert s == [s[0]] + t;
      }
      if sep in s {
        assert s[|TakeUntil(s, sep)| + 1..] == t[|TakeUntil(t, sep)| + 1..];
      }
    }
  }

  /** Splits `s` at the first `c`. */
  function SplitFirst(s: string, c: char): (r: Option<(string, string)>)
    decreases |s|
  {
    if |s| == 0 then None
    else if s[0] == c then Some(("", s[1..]))
    else match SplitFirst(s[1..], c)
      case None => None
      case Some(kv) => Some(([s[0]] + kv.0, kv.1))
  }

  /** Reads a query string back into its `k=v` parameters (the inverse of `RequestUrl`). */
  function ParseQuery(q: string): Option<seq<(string, string)>>
  {
    ParseAssignments(Split(q, '&'))
  }

  function ParseAssignments(parts: seq<string>): Option<seq<(string, string)>>
  {
    if |parts| == 0 then Some([])
    else match (SplitFirst(parts[0], '='), ParseAssignments(parts[1..]))
      case (Some(kv), Some(rest)) => Some([kv] + rest)
      case _ => None
  }

  /** A parameter list `xhrGet` can send so that it reads back unchanged. */
  predicate PlainParams(params: seq<(string, string)>)
  {
    forall i :: 0 <= i < |params| ==>
      && '&' !in params[i].0 && '=' !in params[i].0 && '?' !in params[i].0
      && '&' !in params[i].1 && '?' !in params[i].1
  }

  lemma {:induction false} SplitNoSeparator(s: string, sep: char)
    requires sep !in s
    ensures Split(s, sep) == [s]
    decreases |s|
  {
    if |s| > 0 {
      SplitNoSeparator(s[1..], sep);
      assert [s[0]] + s[1..] == s;
    }
  }

  lemma {:induction false} SplitAfterPiece(a: string, sep: char, b: string)
    requires sep !in a
    ensures Split(a + [sep] + b, sep) == [a] + Split(b, sep)
    decreases |a|
  {
    var s := a + [sep] + b;
    if |a| == 0 {
      assert s[1..] == b;
    } else {
      assert s[1..] == a[1..] + [sep] + b;
      SplitAfterPiece(a[1..], sep, b);
      assert [a[0]] + a[1..] == a;
    }
  }

  /** Splitting a join gives the parts back when no part holds the separator. */
  lemma {:induction false} SplitJoin(parts: seq<string>, sep: char)
    requires |parts| >= 1
    requires forall i :: 0 <= i < |parts| ==> sep !in parts[i]
    ensures Split(Join(parts, sep), sep) == parts
    decreases |parts|
  {
    if |parts| == 1 {
      SplitNoSeparator(parts[0], sep);
    } else {
      SplitAfterPiece(parts[0], sep, Join(parts[1..], sep));
      SplitJoin(parts[1..], sep);
      assert [parts[0]] + parts[1..] == parts;
    }
  }

  lemma {:induction false} SplitFirstAt(a: string, c: char, b: string)
    requires c !in a
    ensures SplitFirst(a + [c] + b, c) == Some((a, b))
    decreases |a|
  {
    var s := a + [c] + b;
    if |a| == 0 {
      assert s[1..] == b;
    } else {
      assert s[1..] == a[1..] + [c] + b;
      SplitFirstAt(a[1..], c, b);
      assert [a[0]] + a[1..] == a;
    }
  }

  lemma {:induction false} ParseAssignmentsOf(params: seq<(string, string)>)
    requires PlainParams(params)
    ensures ParseAssignments(Assignments(params)) == Some(params)
    decreases |params|
  {
    if |params| > 0 {
      var parts := Assignments(params);
      SplitFirstAt(params[0].0, '=', params[0].1);
      assert parts[0] == params[0].0 + ['='] + params[0].1;
      assert parts[1..] == Assignments(params[1..]);
      ParseAssignmentsOf(params[1..]);
      assert [params[0]] + params[1..] == params;
    }
  }

  lemma JoinHasNo(parts: seq<string>, sep: char, c: char)
    requires c != sep
    requires forall i :: 0 <= i < |parts| ==> c !in parts[i]
    ensures c !in Join(parts, sep)
    decreases |parts|
  {
    if |parts| > 1 {
      JoinHasNo(parts[1..], sep, c);
    }
  }

  /**
   * Round trip: the query string of a request URL reads back as exactly the
   * parameters it was built from, in order, when the url has no `?` and no
   * key or value holds a separator (nothing is percent-encoded).
   */
  lemma RequestUrlRoundTrip(url: string, params: seq<(string, string)>)
    requires '?' !in url
    requires |params| >= 1
    requires PlainParams(params)
    ensures QueryOf(RequestUrl(url, params)).Some?
    ensures ParseQuery(QueryOf(RequestUrl(url, params)).value) == Some(params)
  {
    var parts := Assignments(params);
    var q := Join(parts, '&');
    forall i | 0 <= i < |parts| ensures '?' !in parts[i] && '&' !in parts[i] {
      assert parts[i] == params[i].0 + "=" + params[i].1;
    }
    JoinHasNo(parts, '&', '?');
    assert RequestUrl(url, params) == url + ['?'] + q;
    SplitAfterPiece(url, '?', q);
    SplitNoSeparator(q, '?');
    SplitJoin(parts, '&');
    ParseAssignmentsOf(params);
  }

  /** The longest prefix of `s` without `c`: the `[^&]+` run of the regex. */
  function TakeUntil(s: string, c: char): (r: string)
    ensures |r| <= |s| && r == s[..|r|]
    ensures c !in r
    ensures |r| < |s| ==> s[|r|] == c
  {
    if |s| == 0 || s[0] == c then "" else [s[0]] + TakeUntil(s[1..], c)
  }

  /** The regex `code=([^&]+)` matches at position `i` of `q`. */
  predicate CodeMatchAt(q: string, i: int)
  {
    0 <= i && i + 5 < |q| && q[i..i + 5] == "code=" && q[i + 5] != '&'
  }

  /**
   * `q.match(/code=([^&]+)/)`: the capture at the leftmost position where the
   * pattern matches, or None when it matches nowhere.
   */
  function CodeParam(q: string): (r: Option<string>)
    ensures r.Some? <==> exists i | 0 <= i < |q| :: CodeMatchAt(q, i)
    ensures r.Some? ==> r.value != "" && '&' !in r.value
    ensures r.Some? ==> exists i | 0 <= i < |q| :: LeftmostCapture(q, i, r.value)
    decreases |q|
  {
    if |q| < 6 then None
    else if CodeMatchAt(q, 0) then
      assert LeftmostCapture(q, 0, TakeUntil(q[5..], '&'));
      Some(TakeUntil(q[5..], '&'))
    else
      var r := CodeParam(q[1..]);
      assert forall i | 1 <= i < |q| :: CodeMatchAt(q, i) == CodeMatchAt(q[1..], i - 1);
      assert r.Some? ==> CodeMatchAt(q[1..], LeftmostWitness(q[1..])) && CodeMatchAt(q, LeftmostWitness(q[1..]) + 1);
      if r.Some? then
        CaptureShift(q, r.value);
        r
      else r
  }

  /**
   * `v` is the regex's capture when its leftmost match is at `i`: no earlier
   * position matches, and `v` is the greedy `[^&]+` run after `code=`.
   */
  predicate LeftmostCapture(q: string, i: int, v: string)
  {
    && CodeMatchAt(q, i)
    && (forall j | 0 <= j < i :: !CodeMatchAt(q, j))
    && v == TakeUntil(q[i + 5..], '&')
  }

  /** A capture found after the first character is the capture of the whole, when the first position does not match. */
  lemma CaptureShift(q: string, v: string)
    requires |q| >= 1 && !CodeMatchAt(q, 0)
    requires exists k | 0 <= k < |q[1..]| :: LeftmostCapture(q[1..], k, v)
    ensures exists i | 0 <= i < |q| :: LeftmostCapture(q, i, v)
  {
    var k :| 0 <= k < |q[1..]| && LeftmostCapture(q[1..], k, v);
    assert q[1..][k + 5..] == q[k + 1 + 5..];
    forall j | 0 <= j < k + 1 ensures !CodeMatchAt(q, j) {
      if j > 0 && j + 5 < |q| {
        assert q[1..][j - 1..j - 1 + 5] == q[j..j + 5];
        assert !CodeMatchAt(q[1..], j - 1);
      }
    }
    assert LeftmostCapture(q, k + 1, v);
  }

  ghost function LeftmostWitness(q: string): int
    requires exists i | 0 <= i < |q| :: CodeMatchAt(q, i)
    ensures 0 <= LeftmostWitness(q) < |q| && CodeMatchAt(q, LeftmostWitness(q))
  {
    var i :| 0 <= i < |q| && CodeMatchAt(q, i); i
  }

  /**
   * The authorization code `connect` extracts from the OAuth redirect URL:
   * the `code` capture of the piece after the first `?`. None when there is no
   * `?` (the source then throws before any request) or no match.
   */
  function AuthorizationCode(redirectUrl: string): (r: Option<string>)
    ensures r.Some? <==>
      ('?' in redirectUrl && exists i | 0 <= i < |QueryOf(redirectUrl).value| :: CodeMatchAt(QueryOf(redirectUrl).value, i))
    ensures r.Some? ==>
      exists i | 0 <= i < |QueryOf(redirectUrl).value| :: LeftmostCapture(QueryOf(redirectUrl).value, i, r.value)
  {
    match QueryOf(redirectUrl)
    case None => None
    case Some(q) => CodeParam(q)
  }

  /** A redirect carrying `?code=c&...` yields exactly `c`. */
  lemma AuthorizationCodeOf(base: string, c: string, rest: string)
    requires '?' !in base && '?' !in c && '?' !in rest
    requires c != "" && '&' !in c
    ensures AuthorizationCode(base + "?code=" + c + "&" + rest) == Some(c)
  {
    var q := "code=" + c + "&" + rest;
    assert base + "?code=" + c + "&" + rest == base + ['?'] + q;
    SplitAfterPiece(base, '?', q);
    SplitNoSeparator(q, '?');
    CodeParamOf(c, rest);
  }

  /** A query that starts with `code=c&` captures exactly `c`. */
  lemma CodeParamOf(c: string, rest: string)
    requires c != "" && '&' !in c
    ensures CodeParam("code=" + c + "&" + rest) == Some(c)
  {
    var q := "code=" + c + "&" + rest;
    assert q[..5] == "code=" && q[5] == c[0];
    assert CodeMatchAt(q, 0);
    assert q[5..] == c + ['&'] + rest;
    TakeUntilAt(c, '&', rest);
  }

  lemma {:induction false} TakeUntilAt(a: string, c: char, b: string)
    requires c !in a
    ensures TakeUntil(a + [c] + b, c) == a
    decreases |a|
  {
    if |a| > 0 {
      assert (a + [c] + b)[1..] == a[1..] + [c] + b;
      TakeUntilAt(a[1..], c, b);
    }
  }
}
