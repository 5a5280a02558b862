/**
 * The JavaScript string primitives the application relies on:
 * `String.prototype.trim`, `split(/\s+/)`, `split(c)` on one character and
 * `Array.prototype.join`. Whitespace is the set ECMAScript calls WhiteSpace
 * together with LineTerminator, which is what both `trim` and the regular
 * expression class `\s` match.
 */
module JsText {

  /** ECMAScript WhiteSpace and LineTerminator code points. */
  predicate IsSpace(c: char)
  {
    || c == ' ' || c == '\t' || c == '\n' || c == '\r'
    || c == '\U{000B}' || c == '\U{000C}' || c == '\U{00A0}' || c == '\U{FEFF}'
    || c == '\U{1680}' || ('\U{2000}' <= c <= '\U{200A}')
    || c == '\U{2028}' || c == '\U{2029}' || c == '\U{202F}' || c == '\U{205F}'
    || c == '\U{3000}'
  }

  predicate AllSpace(s: string)
  {
    forall i :: 0 <= i < |s| ==> IsSpace(s[i])
  }

  /** True when `s` neither starts nor ends with whitespace. */
  predicate Trimmed(s: string)
  {
    s == [] || (!IsSpace(s[0]) && !IsSpace(s[|s| - 1]))
  }

  /** Drops the maximal whitespace prefix. */
  function TrimStart(s: string): (r: string)
    ensures |r| <= |s|
    ensures r == [] || !IsSpace(r[0])
  {
    if s != [] && IsSpace(s[0]) then TrimStart(s[1..]) else s
  }

  /** Drops the maximal whitespace suffix. */
  function TrimEnd(s: string): (r: string)
    ensures |r| <= |s|
    ensures r == [] || !IsSpace(r[|r| - 1])
  {
    if s != [] && IsSpace(s[|s| - 1]) then TrimEnd(s[..|s| - 1]) else s
  }

  /** What `TrimStart` drops is whitespace, and it drops nothing else. */
  lemma {:induction false} TrimStartParts(s: string) returns (w: string)
    ensures AllSpace(w) && s == w + TrimStart(s)
  {
    if s != [] && IsSpace(s[0]) {
      var w' := TrimStartParts(s[1..]);
      w := [s[0]] + w';
      assert s == [s[0]] + s[1..];
      AllSpaceAppend([s[0]], w');
    } else {
      w := [];
    }
  }

  /** What `TrimEnd` drops is whitespace, and it drops nothing else. */
  lemma {:induction false} TrimEndParts(s: string) returns (w: string)
    ensures AllSpace(w) && s == TrimEnd(s) + w
  {
    if s != [] && IsSpace(s[|s| - 1]) {
      var w' := TrimEndParts(s[..|s| - 1]);
      w := w' + [s[|s| - 1]];
      assert s == s[..|s| - 1] + [s[|s| - 1]];
      AllSpaceAppend(w', [s[|s| - 1]]);
    } else {
      w := [];
      assert s + [] == s;
    }
  }

  /** `s.trim()`: the text between the leading and the trailing whitespace. */
  function Trim(s: string): (r: string)
    ensures Trimmed(r)
    ensures r == [] <==> AllSpace(s)
  {
    TrimShape(s);
    TrimEnd(TrimStart(s))
  }

  lemma TrimShape(s: string)
    ensures Trimmed(TrimEnd(TrimStart(s)))
    ensures TrimEnd(TrimStart(s)) == [] <==> AllSpace(s)
  {
    var t := TrimStart(s);
    var r := TrimEnd(t);
    var lead := TrimStartParts(s);
    var trail := TrimEndParts(t);
    if r != [] {
      assert r[0] == t[0];
    } else {
      assert t == trail;
      AllSpaceAppend(lead, t);
    }
    if AllSpace(s) {
      AllSpaceAppend(lead, t);
    }
  }

  /** The whitespace `Trim` removes on each side. */
  lemma TrimParts(s: string) returns (lead: string, trail: string)
    ensures AllSpace(lead) && AllSpace(trail)
    ensures s == lead + Trim(s) + trail
  {
    lead := TrimStartParts(s);
    trail := TrimEndParts(TrimStart(s));
  }

  lemma AllSpaceAppend(a: string, b: string)
    ensures AllSpace(a + b) <==> AllSpace(a) && AllSpace(b)
  {
    if AllSpace(a + b) {
      forall i | 0 <= i < |a| ensures IsSpace(a[i]) {
        assert a[i] == (a + b)[i];
      }
      forall i | 0 <= i < |b| ensures IsSpace(b[i]) {
        assert b[i] == (a + b)[|a| + i];
      }
    }
    if AllSpace(a) && AllSpace(b) {
      forall i | 0 <= i < |a + b| ensures IsSpace((a + b)[i]) {
        if i < |a| {
          assert (a + b)[i] == a[i];
        } else {
          assert (a + b)[i] == b[i - |a|];
        }
      }
    }
  }

  /** A whitespace prefix is exactly what `TrimStart` removes. */
  lemma {:induction false} TrimStartSpacePrefix(w: string, s: string)
    requires AllSpace(w)
    requires s == [] || !IsSpace(s[0])
    ensures TrimStart(w + s) == s
  {
    if w != [] {
      assert (w + s)[1..] == w[1..] + s;
      TrimStartSpacePrefix(w[1..], s);
    }
  }

  /** Whitespace added at the end does not survive `TrimEnd`. */
  lemma {:induction false} TrimEndSpaceSuffix(s: string, w: string)
    requires AllSpace(w)
    ensures TrimEnd(s + w) == TrimEnd(s)
  {
    if w == [] {
      assert s + w == s;
    } else {
      var w' := w[..|w| - 1];
      assert (s + w)[|s + w| - 1] == w[|w| - 1];
      assert (s + w)[..|s + w| - 1] == s + w';
      assert AllSpace(w') by {
        forall i | 0 <= i < |w'| ensures IsSpace(w'[i]) {
          assert w'[i] == w[i];
        }
      }
      TrimEndSpaceSuffix(s, w');
    }
  }

  /** `TrimEnd` only looks past a prefix that ends in a non-space character. */
  lemma {:induction false} TrimEndAfter(a: string, b: string)
    requires a == [] || !IsSpace(a[|a| - 1])
    ensures TrimEnd(a + b) == a + TrimEnd(b)
  {
    if b == [] {
      assert a + b == a;
    } else if IsSpace(b[|b| - 1]) {
      var b' := b[..|b| - 1];
      assert (a + b)[..|a + b| - 1] == a + b';
      TrimEndAfter(a, b');
    } else {
      assert (a + b)[|a + b| - 1] == b[|b| - 1];
    }
  }

  /**
   * `s.split(/\s+/)` continued from a partly read piece `cur`: every maximal
   * whitespace run ends one piece and starts the next.
   */
  function SplitWsFrom(s: string, cur: string): (r: seq<string>)
    decreases |s|
  {
    if s == [] then [cur]
    else if IsSpace(s[0]) then [cur] + SplitWsFrom(TrimStart(s[1..]), [])
    else SplitWsFrom(s[1..], cur + [s[0]])
  }

  /** `s.split(/\s+/)`. */
  function SplitWs(s: string): seq<string>
  {
    SplitWsFrom(s, [])
  }

  /**
   * The number of maximal non-whitespace runs in `s`, given whether the
   * character before `s` was whitespace (or there was none).
   */
  function RunsFrom(s: string, afterSpace: bool): nat
  {
    if s == [] then 0
    else (if afterSpace && !IsSpace(s[0]) then 1 else 0) + RunsFrom(s[1..], IsSpace(s[0]))
  }

  /** The number of maximal non-whitespace runs ("words") in `s`. */
  function Runs(s: string): nat
  {
    RunsFrom(s, true)
  }

  lemma {:induction false} RunsAppend(a: string, b: string, afterSpace: bool)
    ensures RunsFrom(a + b, afterSpace)
         == RunsFrom(a, afterSpace) + RunsFrom(b, if a == [] then afterSpace else IsSpace(a[|a| - 1]))
  {
    if a == [] {
      assert a + b == b;
    } else {
      assert (a + b)[1..] == a[1..] + b;
      RunsAppend(a[1..], b, IsSpace(a[0]));
    }
  }

  lemma {:induction false} RunsAllSpace(w: string, afterSpace: bool)
    requires AllSpace(w)
    ensures RunsFrom(w, afterSpace) == 0
  {
    if w != [] {
      RunsAllSpace(w[1..], true);
    }
  }

  /** Whitespace around a text adds no run and splits none. */
  lemma RunsPadding(w1: string, s: string, w2: string)
    requires AllSpace(w1) && AllSpace(w2)
    ensures Runs(w1 + s + w2) == Runs(s)
  {
    RunsAppend(w1, s + w2, true);
    RunsAllSpace(w1, true);
    assert w1 + s + w2 == w1 + (s + w2);
    var p := if s == [] then true else IsSpace(s[|s| - 1]);
    RunsAppend(s, w2, true);
    RunsAllSpace(w2, p);
    if w1 != [] {
      assert IsSpace(w1[|w1| - 1]);
    }
  }

  /** Splitting on whitespace runs yields one piece more than the runs after the first piece. */
  lemma {:induction false} SplitWsFromCount(s: string, cur: string)
    requires s == [] || !IsSpace(s[|s| - 1])
    ensures |SplitWsFrom(s, cur)| == 1 + RunsFrom(s, false)
    decreases |s|
  {
    if s == [] {
    } else if IsSpace(s[0]) {
      var u := s[1..];
      var t := TrimStart(u);
      var w := TrimStartParts(u);
      assert u[|u| - 1] == s[|s| - 1];
      assert t != [] by {
        AllSpaceAppend(w, t);
      }
      assert t[1..] == [] || t[1..][|t[1..]| - 1] == s[|s| - 1];
      SplitWsFromCount(t[1..], [t[0]]);
      assert [] + [t[0]] == [t[0]];
      assert SplitWsFrom(t, []) == SplitWsFrom(t[1..], [t[0]]);
      assert SplitWsFrom(s, cur) == [cur] + SplitWsFrom(t, []);
      RunsAppend(w, t, true);
      RunsAllSpace(w, true);
      if w != [] {
        assert IsSpace(w[|w| - 1]);
      }
      assert RunsFrom(u, true) == RunsFrom(t, true);
      assert RunsFrom(t, true) == 1 + RunsFrom(t[1..], false);
      assert RunsFrom(s, false) == RunsFrom(u, true);
    } else {
      assert s[1..] == [] || s[1..][|s[1..]| - 1] == s[|s| - 1];
      SplitWsFromCount(s[1..], cur + [s[0]]);
    }
  }

  /** On a non-empty trimmed text, `split(/\s+/)` yields exactly one piece per word. */
  lemma SplitWsCount(s: string)
    requires s != [] && Trimmed(s)
    ensures |SplitWs(s)| == Runs(s)
  {
    assert s[1..] == [] || s[1..][|s[1..]| - 1] == s[|s| - 1];
    SplitWsFromCount(s[1..], [s[0]]);
    assert [] + [s[0]] == [s[0]];
    assert SplitWs(s) == SplitWsFrom(s[1..], [s[0]]);
  }

  /** `Array.prototype.join`: the parts with `sep` between consecutive ones. */
  function Join(parts: seq<string>, sep: string): string
  {
    if |parts| == 0 then []
    else if |parts| == 1 then parts[0]
    else parts[0] + sep + Join(parts[1..], sep)
  }

  lemma {:induction false} JoinAppend(a: seq<string>, b: seq<string>, sep: string)
    requires a != [] && b != []
    ensures Join(a + b, sep) == Join(a, sep) + sep + Join(b, sep)
  {
    if |a| == 1 {
      assert (a + b)[1..] == b;
    } else {
      assert (a + b)[1..] == a[1..] + b;
      JoinAppend(a[1..], b, sep);
    }
  }

  /** `s.split(c)` for a single character `c`. */
  function SplitOn(s: string, c: char): (r: seq<string>)
    ensures r != []
    decreases |s|
  {
    if c !in s then [s]
    else
      var i := IndexOf(s, c);
      [s[..i]] + SplitOn(s[i + 1..], c)
  }

  /** The position of the first `c` in `s`. */
  function IndexOf(s: string, c: char): (i: nat)
    requires c in s
    ensures i < |s| && s[i] == c && c !in s[..i]
  {
    if s[0] == c then 0 else IndexOf(s[1..], c) + 1
  }

  lemma SplitOnAfter(a: string, c: char, b: string)
    requires c !in a
    ensures SplitOn(a + [c] + b, c) == [a] + SplitOn(b, c)
  {
    var s := a + [c] + b;
    assert s[|a|] == c;
    assert s[..|a|] == a;
    var i := IndexOf(s, c);
    assert s[..i] == a;
    assert s[i + 1..] == b;
  }

  /** Splitting a join of separator-free parts on the separator gives back the parts. */
  lemma {:induction false} SplitOnJoin(parts: seq<string>, c: char)
    requires parts != []
    requires forall k :: 0 <= k < |parts| ==> c !in parts[k]
    ensures SplitOn(Join(parts, [c]), c) == parts
  {
    if |parts| > 1 {
      SplitOnJoin(parts[1..], c);
      SplitOnAfter(parts[0], c, Join(parts[1..], [c]));
    }
  }

  // ---------------------------------------------------------------- positions

  predicate IsPrefix(pre: string, s: string)
  {
    |pre| <= |s| && s[..|pre|] == pre
  }

  /** `needle` occurs in `hay` at position `at`. */
  predicate OccursAt(needle: string, hay: string, at: nat)
  {
    at + |needle| <= |hay| && hay[at..at + |needle|] == needle
  }

  lemma PrefixConcat(a: string, b: string)
    ensures IsPrefix(a, a + b) && (a + b)[|a|..] == b
  {
    assert (a + b)[..|a|] == a;
  }

  lemma PrefixSplit(pre: string, s: string)
    requires IsPrefix(pre, s)
    ensures s == pre + s[|pre|..]
  {
  }

  lemma OccursConcat(a: string, b: string, r: string)
    ensures OccursAt(b, a + (b + r), |a|)
  {
    assert (a + (b + r))[|a|..|a| + |b|] == b;
  }

  lemma OccursShift(n: string, h: string, at: nat, a: string)
    requires OccursAt(n, h, at)
    ensures OccursAt(n, a + h, |a| + at)
  {
    assert (a + h)[|a| + at..|a| + at + |n|] == h[at..at + |n|];
  }
}
