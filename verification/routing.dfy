/**
 * The route key of a navigation: the default `locationChange` handler turns the
 * absolute URL it is given into the key of the route table with
 * `'/' + next.split('/').splice(3).join('/').split('?')[0]`.
 * `Split`, `Splice` and `Join` model the three JavaScript library calls on
 * strings and arrays, `RouteKey` the whole expression.
 */
module Routing {

  /** `s.split(sep)` for a one-character separator: the pieces between the separators, in order. */
  function Split(s: string, sep: char): (pieces: seq<string>)
    ensures |pieces| >= 1
    decreases |s|
  {
    if s == [] then [[]]
    else
      var rest := Split(s[1..], sep);
      if s[0] == sep then [[]] + rest
      else [[s[0]] + rest[0]] + rest[1..]
  }

  /** `pieces.join(sep)`: the pieces with one separator between consecutive ones. */
  function Join(pieces: seq<string>, sep: char): string
  {
    if |pieces| == 0 then []
    else if |pieces| == 1 then pieces[0]
    else pieces[0] + [sep] + Join(pieces[1..], sep)
  }

  /** `pieces.splice(start)` used for its result: the elements from index `start` on, none if there are fewer. */
  function Splice(pieces: seq<string>, start: nat): (removed: seq<string>)
    ensures |pieces| <= start ==> removed == []
    ensures |pieces| > start ==> |removed| == |pieces| - start
    ensures forall i :: 0 <= i < |removed| ==> removed[i] == pieces[start + i]
  {
    if |pieces| <= start then [] else pieces[start..]
  }

  /** The route key of the URL `next` (cs_auth.js line 211). */
  function RouteKey(next: string): (key: string)
    ensures |key| >= 1 && key[0] == '/'
    ensures '?' !in key
  {
    var path := Join(Splice(Split(next, '/'), 3), '/');
    PiecesAvoidSeparator(path, '?');
    "/" + Split(path, '?')[0]
  }

  /** A split has one piece more than the string has separators. */
  lemma {:induction false} PieceCount(s: string, sep: char)
    ensures |Split(s, sep)| == multiset(s)[sep] + 1
    decreases |s|
  {
    if s != [] {
      PieceCount(s[1..], sep);
      assert s == [s[0]] + s[1..];
    }
  }

  /** No piece of a split contains the separator. */
  lemma {:induction false} PiecesAvoidSeparator(s: string, sep: char)
    ensures forall i :: 0 <= i < |Split(s, sep)| ==> sep !in Split(s, sep)[i]
    decreases |s|
  {
    if s != [] {
      PiecesAvoidSeparator(s[1..], sep);
    }
  }

  /** A string without the separator splits into itself alone. */
  lemma {:induction false} SplitWithoutSeparator(s: string, sep: char)
    requires sep !in s
    ensures Split(s, sep) == [s]
    decreases |s|
  {
    if s != [] {
      SplitWithoutSeparator(s[1..], sep);
      assert [s[0]] + s[1..] == s;
    }
  }

  /** Splitting at the first separator: the part before it, then the pieces of the part after it. */
  lemma {:induction false} SplitAtFirst(a: string, sep: char, b: string)
    requires sep !in a
    ensures Split(a + [sep] + b, sep) == [a] + Split(b, sep)
    decreases |a|
  {
    var s := a + [sep] + b;
    if a == [] {
      assert s[0] == sep && s[1..] == b;
    } else {
      assert s[0] == a[0] && s[1..] == a[1..] + [sep] + b;
      SplitAtFirst(a[1..], sep, b);
      assert [a[0]] + a[1..] == a;
    }
  }

  /** Joining the pieces of a split gives back the string. */
  lemma {:induction false} JoinSplit(s: string, sep: char)
    ensures Join(Split(s, sep), sep) == s
    decreases |s|
  {
    if s != [] {
      var rest := Split(s[1..], sep);
      JoinSplit(s[1..], sep);
      if s[0] == sep {
        assert ([[]] + rest)[1..] == rest;
      } else if |rest| > 1 {
        assert ([[s[0]] + rest[0]] + rest[1..])[1..] == rest[1..];
      }
      assert s == [s[0]] + s[1..];
    }
  }

  /** Splitting the join of separator-free pieces gives back the pieces. */
  lemma {:induction false} SplitJoin(pieces: seq<string>, sep: char)
    requires |pieces| >= 1
    requires forall i :: 0 <= i < |pieces| ==> sep !in pieces[i]
    ensures Split(Join(pieces, sep), sep) == pieces
    decreases |pieces|
  {
    if |pieces| == 1 {
      SplitWithoutSeparator(pieces[0], sep);
    } else {
      SplitJoin(pieces[1..], sep);
      SplitAtFirst(pieces[0], sep, Join(pieces[1..], sep));
      assert [pieces[0]] + pieces[1..] == pieces;
    }
  }

  /** The first piece of a split is the longest prefix without the separator. */
  lemma {:induction false} FirstPiece(s: string, sep: char)
    ensures Split(s, sep)[0] <= s
    ensures sep !in Split(s, sep)[0]
    ensures |Split(s, sep)[0]| < |s| ==> s[|Split(s, sep)[0]|] == sep
    decreases |s|
  {
    if s != [] {
      FirstPiece(s[1..], sep);
    }
  }

  /**
   * The key is the path after the scheme and host, cut before its first `?`:
   * its tail is a prefix of that path without `?`, followed in the path by a `?` if shorter.
   */
  lemma RouteKeyCutsAtQuery(next: string)
    ensures var path := Join(Splice(Split(next, '/'), 3), '/');
            var key := RouteKey(next);
            key[1..] <= path && (|key| - 1 < |path| ==> path[|key| - 1] == '?')
  {
    var path := Join(Splice(Split(next, '/'), 3), '/');
    FirstPiece(path, '?');
    assert RouteKey(next)[1..] == Split(path, '?')[0];
  }

  /** The slashes of `scheme//host/rest` before `rest` make the first three pieces. */
  lemma SplitUrl(scheme: string, host: string, rest: string)
    requires '/' !in scheme && '/' !in host
    ensures Split(scheme + "//" + host + "/" + rest, '/') == [scheme, [], host] + Split(rest, '/')
  {
    var afterHost := host + ['/'] + rest;
    var afterEmpty := [] + ['/'] + afterHost;
    var url := scheme + ['/'] + afterEmpty;
    assert url == scheme + "//" + host + "/" + rest;
    assert Split(afterHost, '/') == [host] + Split(rest, '/') by {
      SplitAtFirst(host, '/', rest);
    }
    assert Split(afterEmpty, '/') == [[]] + Split(afterHost, '/') by {
      SplitAtFirst([], '/', afterHost);
    }
    assert Split(url, '/') == [scheme] + Split(afterEmpty, '/') by {
      SplitAtFirst(scheme, '/', afterEmpty);
    }
  }

  /** The key of `scheme//host/rest` is `/` followed by `rest` cut before its first `?`. */
  lemma RouteKeyOfRest(scheme: string, host: string, rest: string)
    requires '/' !in scheme && '/' !in host
    ensures RouteKey(scheme + "//" + host + "/" + rest) == "/" + Split(rest, '?')[0]
  {
    var url := scheme + "//" + host + "/" + rest;
    assert Splice(Split(url, '/'), 3) == Split(rest, '/') by {
      SplitUrl(scheme, host, rest);
    }
    JoinSplit(rest, '/');
  }

  /** A URL with nothing after the host, `scheme//host`, has the key `/`. */
  lemma RouteKeyOfOrigin(scheme: string, host: string)
    requires '/' !in scheme && '/' !in host
    ensures RouteKey(scheme + "//" + host) == "/"
  {
    var origin := scheme + "//" + host;
    var afterEmpty := [] + ['/'] + host;
    assert origin == scheme + ['/'] + afterEmpty;
    assert Split(host, '/') == [host] by {
      SplitWithoutSeparator(host, '/');
    }
    assert Split(afterEmpty, '/') == [[]] + Split(host, '/') by {
      SplitAtFirst([], '/', host);
    }
    assert Split(origin, '/') == [scheme] + Split(afterEmpty, '/') by {
      SplitAtFirst(scheme, '/', afterEmpty);
    }
    assert Join(Splice(Split(origin, '/'), 3), '/') == [];
    assert Split([], '?') == [[]];
  }

  /**
   * For an absolute URL `scheme//host/path?query`, the key is `/path`, whatever
   * slashes the path and the query hold.
   */
  lemma RouteKeyOfUrl(scheme: string, host: string, path: string, query: string)
    requires '/' !in scheme && '/' !in host && '?' !in path
    ensures RouteKey(scheme + "//" + host + "/" + path) == "/" + path
    ensures RouteKey(scheme + "//" + host + "/" + path + "?" + query) == "/" + path
  {
    RouteKeyOfRest(scheme, host, path);
    SplitWithoutSeparator(path, '?');
    var rest := path + ['?'] + query;
    RouteKeyOfRest(scheme, host, rest);
    SplitAtFirst(path, '?', query);
    assert scheme + "//" + host + "/" + path + "?" + query == scheme + "//" + host + "/" + rest;
  }
}
