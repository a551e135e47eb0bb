/** Path handling: `sanitizePath` (index.js:155-158) and the parameter
    extraction of `getDefaultTransform` (index.js:108-115). */
module Paths {

  /** The characters JavaScript's regex `.` refuses to match. */
  predicate IsLineTerminator(c: char)
  {
    c == '\n' || c == '\r' || c == '\U{2028}' || c == '\U{2029}'
  }

  predicate HasLineTerminator(s: string)
  {
    exists i :: 0 <= i < |s| && IsLineTerminator(s[i])
  }

  /** `path.replace(/^\/?(.+)\/?$/, '/$1')`. The pattern needs at least one
      character and cannot match across a line terminator, so on such inputs
      the string is returned as it is. Otherwise the greedy `(.+)` keeps every
      trailing slash, and the optional leading slash is only consumed when at
      least one character follows it. */
  function SanitizePath(path: string): string
  {
    if path == "" || HasLineTerminator(path) then path
    else if |path| >= 2 && path[0] == '/' then path
    else "/" + path
  }

  /** Sanitising keeps the empty path, gives any other path on one line a
      leading slash and at least one character after it, and otherwise only
      ever adds that one slash in front: the original path is a suffix of the
      result. */
  lemma SanitizeShape(path: string)
    ensures var r := SanitizePath(path);
            && (path == "" ==> r == "")
            && (path != "" && !HasLineTerminator(path) ==> |r| >= 2 && r[0] == '/')
            && |path| <= |r| <= |path| + 1
            && r[|r| - |path|..] == path
  {
  }

  /** A path that sanitising leaves as it is. */
  predicate IsSanitized(path: string)
  {
    SanitizePath(path) == path
  }

  lemma LineTerminatorInPrefix(a: string, b: string)
    requires HasLineTerminator(a)
    ensures HasLineTerminator(a + b)
  {
    var i :| 0 <= i < |a| && IsLineTerminator(a[i]);
    assert (a + b)[i] == a[i];
  }

  /** Sanitising is idempotent. */
  lemma SanitizeIdempotent(path: string)
    ensures SanitizePath(SanitizePath(path)) == SanitizePath(path)
  {
    if path != "" && !HasLineTerminator(path) && !(|path| >= 2 && path[0] == '/') {
      var r := "/" + path;
      assert forall i :: 0 < i < |r| ==> r[i] == path[i - 1];
    }
  }

  /** A sanitised base followed by anything is sanitised, as long as the base
      is not empty; the empty base needs a sanitised suffix. This is why the
      route compiler's re-sanitising of `basePath + sanitizePath(key)` never
      changes the path. */
  lemma SanitizedConcat(base: string, rest: string)
    requires IsSanitized(base)
    requires base != "" || IsSanitized(rest)
    ensures IsSanitized(base + rest)
  {
    if base == "" {
      assert base + rest == rest;
    } else if HasLineTerminator(base) {
      LineTerminatorInPrefix(base, rest);
    } else if HasLineTerminator(base + rest) {
    } else {
      assert (base + rest)[0] == base[0];
    }
  }

  /** `path.split('/')`: the pieces between the slashes, in order. */
  function Split(s: string): (r: seq<string>)
    ensures |r| >= 1
  {
    if s == "" then [""]
    else if s[0] == '/' then [""] + Split(s[1..])
    else
      var rest := Split(s[1..]);
      [[s[0]] + rest[0]] + rest[1..]
  }

  /** No piece of a split holds a slash. */
  lemma {:induction false} SplitPieces(s: string)
    ensures forall i :: 0 <= i < |Split(s)| ==> '/' !in Split(s)[i]
  {
    if s != "" {
      SplitPieces(s[1..]);
      var rest := Split(s[1..]);
      if s[0] != '/' {
        assert '/' !in [s[0]] + rest[0];
      }
    }
  }

  lemma AppendAssociative<T>(a: seq<T>, b: seq<T>, c: seq<T>)
    ensures a + b + c == a + (b + c)
  {
  }

  /** `segments.join('/')`. */
  function Join(segments: seq<string>): string
  {
    if segments == [] then ""
    else if |segments| == 1 then segments[0]
    else segments[0] + "/" + Join(segments[1..])
  }

  /** Joining the pieces of a split gives the string back. */
  lemma {:induction false} JoinSplit(s: string)
    ensures Join(Split(s)) == s
  {
    if s == "" {
    } else if s[0] == '/' {
      JoinSplit(s[1..]);
      var rest := Split(s[1..]);
      assert Split(s) == [""] + rest;
      assert ([""] + rest)[1..] == rest;
    } else {
      JoinSplit(s[1..]);
      var rest := Split(s[1..]);
      var r := [[s[0]] + rest[0]] + rest[1..];
      assert Split(s) == r;
      if |rest| == 1 {
        assert r == [[s[0]] + rest[0]];
      } else {
        assert r[1..] == rest[1..];
        assert Join(rest) == rest[0] + "/" + Join(rest[1..]);
      }
    }
  }

  /** Splitting a slash-free join gives the pieces back. */
  lemma {:induction false} SplitJoin(segments: seq<string>)
    requires |segments| >= 1
    requires forall i :: 0 <= i < |segments| ==> '/' !in segments[i]
    ensures Split(Join(segments)) == segments
  {
    if |segments| == 1 {
      SplitSlashFree(segments[0]);
    } else {
      var tail := segments[1..];
      SplitJoin(tail);
      SplitAround(segments[0], Join(tail));
      assert segments == [segments[0]] + tail;
    }
  }

  /** A string without a slash splits into itself. */
  lemma {:induction false} SplitSlashFree(s: string)
    requires '/' !in s
    ensures Split(s) == [s]
  {
    if s != "" {
      SplitSlashFree(s[1..]);
      assert [s[0]] + s[1..] == s;
    }
  }

  /** Splitting at a slash that follows a slash-free piece. */
  lemma {:induction false} SplitAround(a: string, b: string)
    requires '/' !in a
    ensures Split(a + "/" + b) == [a] + Split(b)
  {
    if a == "" {
      assert a + "/" + b == "/" + b;
      assert ("/" + b)[1..] == b;
    } else {
      var s := a + "/" + b;
      assert s[0] == a[0];
      assert s[1..] == a[1..] + "/" + b;
      SplitAround(a[1..], b);
      assert [a[0]] + a[1..] == a;
    }
  }

  /** Splitting a path made of two parts joined by a slash. */
  lemma {:induction false} SplitConcat(a: string, b: string)
    ensures Split(a + "/" + b) == Split(a) + Split(b)
  {
    var s := a + "/" + b;
    if a == "" {
      assert s == "/" + b;
      assert s[1..] == b;
    } else {
      assert s[0] == a[0];
      assert s[1..] == a[1..] + "/" + b;
      SplitConcat(a[1..], b);
      var ra, rb := Split(a[1..]), Split(b);
      if a[0] == '/' {
        assert Split(s) == [""] + (ra + rb);
        assert Split(a) == [""] + ra;
        AppendAssociative([""], ra, rb);
      } else {
        var r := ra + rb;
        assert r[0] == ra[0] && r[1..] == ra[1..] + rb;
        assert Split(s) == [[a[0]] + ra[0]] + (ra[1..] + rb);
        assert Split(a) == [[a[0]] + ra[0]] + ra[1..];
        AppendAssociative([[a[0]] + ra[0]], ra[1..], rb);
      }
    }
  }

  /** A segment the default transform reads as a route parameter:
      `element.charAt(0) === ':'`. */
  predicate IsParam(segment: string)
  {
    |segment| > 0 && segment[0] == ':'
  }

  /** The parameter names of the segments, left to right, each without its
      leading colon. */
  function ParamNames(segments: seq<string>): (names: seq<string>)
    ensures |names| <= |segments|
  {
    if segments == [] then []
    else
      (if IsParam(segments[0]) then [segments[0][1..]] else [])
      + ParamNames(segments[1..])
  }

  /** The parameter names are the parameter segments, in order, each
      without its leading colon: one name per parameter segment. */
  lemma {:induction false} ParamNamesOfParamSegments(segments: seq<string>)
    ensures var names, ps := ParamNames(segments), ParamSegments(segments);
            |names| == |ps| && forall i :: 0 <= i < |ps| ==> names[i] == ps[i][1..]
  {
    if segments != [] {
      var rest := segments[1..];
      ParamNamesOfParamSegments(rest);
      var names, ps := ParamNames(rest), ParamSegments(rest);
      if IsParam(segments[0]) {
        assert ParamNames(segments) == [segments[0][1..]] + names;
        assert ParamSegments(segments) == [segments[0]] + ps;
      } else {
        assert ParamNames(segments) == names;
        assert ParamSegments(segments) == ps;
      }
    }
  }

  /** The segments of a path that are parameters, kept in order. */
  function ParamSegments(segments: seq<string>): (ps: seq<string>)
    ensures forall i :: 0 <= i < |ps| ==> IsParam(ps[i]) && ps[i] in segments
  {
    if segments == [] then []
    else if IsParam(segments[0]) then [segments[0]] + ParamSegments(segments[1..])
    else ParamSegments(segments[1..])
  }

  /** Parameter names of consecutive segments come in path order. */
  lemma {:induction false} ParamNamesAppend(a: seq<string>, b: seq<string>)
    ensures ParamNames(a + b) == ParamNames(a) + ParamNames(b)
  {
    if a == [] {
      assert a + b == b;
    } else {
      var head := if IsParam(a[0]) then [a[0][1..]] else [];
      assert (a + b)[0] == a[0];
      assert (a + b)[1..] == a[1..] + b;
      ParamNamesAppend(a[1..], b);
      assert ParamNames(a + b) == head + (ParamNames(a[1..]) + ParamNames(b));
      assert ParamNames(a) == head + ParamNames(a[1..]);
    }
  }

  /** The parameters of a path made of two parts are those of the first part
      followed by those of the second. */
  lemma ParamsOfConcat(a: string, b: string)
    ensures ParamNames(Split(a + "/" + b)) == ParamNames(Split(a)) + ParamNames(Split(b))
  {
    SplitConcat(a, b);
    ParamNamesAppend(Split(a), Split(b));
  }

  /** A single `:name` segment yields exactly `name`. */
  lemma ParamOfSegment(name: string)
    requires '/' !in name
    ensures ParamNames(Split(":" + name)) == [name]
  {
    SplitSlashFree(":" + name);
    assert (":" + name)[1..] == name;
  }

  /** The first half of `getDefaultTransform`: split the compiled path and
      push the name of every `:`-segment, left to right. */
  method CollectParams(path: string) returns (params: seq<string>)
    ensures params == ParamNames(Split(path))
  {
    var elements := Split(path);
    params := [];
    var i := 0;
    while i < |elements|
      invariant 0 <= i <= |elements|
      invariant params == ParamNames(elements[..i])
    {
      var element := elements[i];
      ParamNamesAppend(elements[..i], [element]);
      assert elements[..i + 1] == elements[..i] + [element];
      if |element| > 0 && element[0] == ':' {
        params := params + [element[1..]];
      }
      i := i + 1;
    }
    assert elements[..i] == elements;
  }
}
