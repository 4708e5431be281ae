/** Option, for the optional fields of the source's records. */
module Wrappers {
  datatype Option<+T> = None | Some(value: T)
}

/**
 * The pieces of JavaScript's string library that the core relies on:
 * `\s` and `trim`, `\w`, ASCII case mapping, `includes`, `split`/`join`,
 * `replace(/X+/g, c)`, `replace(/[^...]/g, '')`, UTF-16 `length`, and
 * number-to-string for non-negative integers.
 */
module Strings {

  // ---------------------------------------------------------------------
  // Character classes
  // ---------------------------------------------------------------------

  /** The characters JavaScript's `\s` matches and `String.prototype.trim` strips
      (ECMAScript WhiteSpace and LineTerminator). */
  predicate IsSpace(c: char) {
    var n := c as int;
    (0x09 <= n <= 0x0D) || n == 0x20 || n == 0xA0 || n == 0x1680
    || (0x2000 <= n <= 0x200A) || n == 0x2028 || n == 0x2029
    || n == 0x202F || n == 0x205F || n == 0x3000 || n == 0xFEFF
  }

  /** The characters JavaScript's `\w` matches (no `u` flag): `[A-Za-z0-9_]`. */
  predicate IsWordChar(c: char) {
    ('a' <= c <= 'z') || ('A' <= c <= 'Z') || ('0' <= c <= '9') || c == '_'
  }

  predicate IsHyphen(c: char) { c == '-' }

  predicate IsLowerAscii(c: char) { 'a' <= c <= 'z' }

  predicate IsUpperAscii(c: char) { 'A' <= c <= 'Z' }

  /** `toUpperCase` on one character, ASCII letters only. */
  function ToUpper(c: char): (u: char)
    ensures IsLowerAscii(c) ==> IsUpperAscii(u) && u as int == c as int - 32
    ensures !IsLowerAscii(c) ==> u == c
  {
    if IsLowerAscii(c) then (c as int - 32) as char else c
  }

  /** `toLowerCase` on one character, ASCII letters only. */
  function ToLower(c: char): (l: char)
    ensures IsUpperAscii(c) ==> IsLowerAscii(l) && l as int == c as int + 32
    ensures !IsUpperAscii(c) ==> l == c
  {
    if IsUpperAscii(c) then (c as int + 32) as char else c
  }

  /** `toLowerCase` on a string. */
  function LowerStr(s: string): (r: string)
    ensures |r| == |s|
    ensures forall i :: 0 <= i < |s| ==> r[i] == ToLower(s[i])
  {
    seq(|s|, i requires 0 <= i < |s| => ToLower(s[i]))
  }

  // ---------------------------------------------------------------------
  // Prefixes, suffixes, substrings
  // ---------------------------------------------------------------------

  predicate StartsWith(s: string, prefix: string) {
    |prefix| <= |s| && s[..|prefix|] == prefix
  }

  predicate EndsWith(s: string, suffix: string) {
    |suffix| <= |s| && s[|s| - |suffix|..] == suffix
  }

  predicate OccursAt(s: string, sub: string, i: nat) {
    i + |sub| <= |s| && s[i..i + |sub|] == sub
  }

  /** `s.includes(sub)` */
  predicate Contains(s: string, sub: string) {
    exists i: nat :: i <= |s| && OccursAt(s, sub, i)
  }

  lemma ContainsInfix(a: string, b: string, c: string)
    ensures Contains(a + b + c, b)
  {
    assert (a + b + c)[|a|..|a| + |b|] == b;
    assert OccursAt(a + b + c, b, |a|);
  }

  lemma StartsWithConcat(p: string, x: string)
    ensures StartsWith(p + x, p)
  {
    assert (p + x)[..|p|] == p;
  }

  lemma StartsWithExtend(s: string, p: string, x: string)
    requires StartsWith(s, p)
    ensures StartsWith(s + x, p)
  {
    assert (s + x)[..|p|] == s[..|p|];
  }

  lemma StartsWithTrans(s: string, p: string, q: string)
    requires StartsWith(s, p) && StartsWith(p, q)
    ensures StartsWith(s, q)
  {
    assert s[..|q|] == s[..|p|][..|q|];
  }

  lemma EndsWithConcat(x: string, q: string)
    ensures EndsWith(x + q, q)
  {
    assert (x + q)[|x + q| - |q|..] == q;
  }

  /** A string contains every one of its prefixes. */
  lemma ContainsPrefix(s: string, p: string)
    requires StartsWith(s, p)
    ensures Contains(s, p)
  {
    assert OccursAt(s, p, 0);
  }

  lemma ContainsSuffix(a: string, b: string)
    ensures Contains(a + b, b)
  {
    assert (a + b)[|a|..|a| + |b|] == b;
    assert OccursAt(a + b, b, |a|);
  }

  lemma ContainsExtend(s: string, sub: string, x: string)
    requires Contains(s, sub)
    ensures Contains(s + x, sub)
  {
    var i: nat :| i <= |s| && OccursAt(s, sub, i);
    assert (s + x)[i..i + |sub|] == s[i..i + |sub|];
    assert OccursAt(s + x, sub, i);
  }

  /** Containment is transitive. */
  lemma ContainsWithin(s: string, mid: string, sub: string)
    requires Contains(s, mid) && Contains(mid, sub)
    ensures Contains(s, sub)
  {
    var i: nat :| i <= |s| && OccursAt(s, mid, i);
    var j: nat :| j <= |mid| && OccursAt(mid, sub, j);
    forall k | 0 <= k < |sub| ensures s[i + j + k] == sub[k] {
      assert s[i + j + k] == s[i..i + |mid|][j + k];
      assert mid[j + k] == mid[j..j + |sub|][k];
    }
    assert s[i + j..i + j + |sub|] == sub;
    assert OccursAt(s, sub, i + j);
  }

  lemma ConcatAssociative(x: string, y: string, z: string)
    ensures (x + y) + z == x + (y + z)
  {
  }

  // ---------------------------------------------------------------------
  // trim
  // ---------------------------------------------------------------------

  /** Drops the leading white space. */
  function TrimStart(s: string): (r: string)
    ensures |r| <= |s| && r == s[|s| - |r|..]
    ensures forall k :: 0 <= k < |s| - |r| ==> IsSpace(s[k])
    ensures r == [] || !IsSpace(r[0])
    decreases |s|
  {
    if |s| > 0 && IsSpace(s[0]) then TrimStart(s[1..]) else s
  }

  /** Drops the trailing white space. */
  function TrimEnd(s: string): (r: string)
    ensures |r| <= |s| && r == s[..|r|]
    ensures forall k :: |r| <= k < |s| ==> IsSpace(s[k])
    ensures r == [] || !IsSpace(r[|r| - 1])
    decreases |s|
  {
    if |s| > 0 && IsSpace(s[|s| - 1]) then TrimEnd(s[..|s| - 1]) else s
  }

  /** `s.trim()`: what is left after removing the white space at both ends.
      Its properties are stated by `TrimProperties`. */
  function Trim(s: string): string {
    TrimEnd(TrimStart(s))
  }

  /** The trimmed text neither starts nor ends with white space, it is empty
      exactly when the text is all white space, and a text without white space
      at its ends is its own trim. */
  lemma TrimProperties(s: string)
    ensures var r := Trim(s);
      && (r == [] || (!IsSpace(r[0]) && !IsSpace(r[|r| - 1])))
      && (r == [] <==> forall k :: 0 <= k < |s| ==> IsSpace(s[k]))
      && (s == [] || (!IsSpace(s[0]) && !IsSpace(s[|s| - 1])) ==> r == s)
  {
    TrimEdges(s);
    TrimBlank(s, TrimStart(s), Trim(s));
    if s == [] || (!IsSpace(s[0]) && !IsSpace(s[|s| - 1])) {
      TrimUnchanged(s);
    }
  }

  lemma TrimEdges(s: string)
    ensures var r := Trim(s);
      r == [] || (!IsSpace(r[0]) && !IsSpace(r[|r| - 1]))
  {
    var t := TrimStart(s);
    var r := TrimEnd(t);
    if r != [] {
      assert r[0] == t[0];
    }
  }

  lemma TrimUnchanged(s: string)
    requires s == [] || (!IsSpace(s[0]) && !IsSpace(s[|s| - 1]))
    ensures Trim(s) == s
  {
    TrimStartUnchanged(s);
    TrimEndUnchanged(s);
  }

  lemma TrimStartUnchanged(s: string)
    requires s == [] || !IsSpace(s[0])
    ensures TrimStart(s) == s
  {
  }

  lemma TrimEndUnchanged(s: string)
    requires s == [] || !IsSpace(s[|s| - 1])
    ensures TrimEnd(s) == s
  {
  }

  lemma TrimBlank(s: string, t: string, r: string)
    requires t == TrimStart(s) && r == TrimEnd(t)
    ensures r == [] <==> forall k :: 0 <= k < |s| ==> IsSpace(s[k])
  {
    if r == [] {
      forall k | 0 <= k < |s| ensures IsSpace(s[k]) {
        if k >= |s| - |t| {
          assert s[k] == t[k - (|s| - |t|)];
        }
      }
    } else {
      assert s[|s| - |t|] == t[0];
    }
  }

  /** A string without white space is its own trim. */
  lemma TrimNoSpace(s: string)
    requires forall k :: 0 <= k < |s| ==> !IsSpace(s[k])
    ensures Trim(s) == s
  {
    TrimProperties(s);
  }

  // ---------------------------------------------------------------------
  // split and join
  // ---------------------------------------------------------------------

  /** `s.split(sep)` for a one-character separator: the pieces between the
      separators, so `Split("", c) == [""]`. */
  function Split(s: string, sep: char): (parts: seq<string>)
    ensures |parts| > 0
    ensures forall k :: 0 <= k < |parts| ==> sep !in parts[k]
    decreases |s|
  {
    if s == [] then [""]
    else
      var rest := Split(s[1..], sep);
      if s[0] == sep then [""] + rest
      else [[s[0]] + rest[0]] + rest[1..]
  }

  /** `parts.join(sep)` */
  function Join(parts: seq<string>, sep: string): string
  {
    if |parts| == 0 then ""
    else if |parts| == 1 then parts[0]
    else parts[0] + sep + Join(parts[1..], sep)
  }

  /** Joining the pieces with the separator gives back the string. */
  lemma {:induction false} JoinSplit(s: string, sep: char)
    ensures Join(Split(s, sep), [sep]) == s
    decreases |s|
  {
    if s != [] {
      var rest := Split(s[1..], sep);
      JoinSplit(s[1..], sep);
      if s[0] == sep {
        assert Split(s, sep) == [""] + rest;
        assert ([""] + rest)[1..] == rest;
      } else {
        var parts := Split(s, sep);
        assert parts == [[s[0]] + rest[0]] + rest[1..];
        if |rest| == 1 {
          assert Join(rest, [sep]) == rest[0];
        } else {
          assert parts[1..] == rest[1..];
          assert Join(rest, [sep]) == rest[0] + [sep] + Join(rest[1..], [sep]);
        }
      }
    }
  }

  /** A string without the separator is one piece. */
  lemma {:induction false} SplitNoSeparator(a: string, sep: char)
    requires sep !in a
    ensures Split(a, sep) == [a]
    decreases |a|
  {
    if a != [] {
      SplitNoSeparator(a[1..], sep);
      assert [a[0]] + a[1..] == a;
    }
  }

  /** The first separator ends the first piece. */
  lemma {:induction false} SplitAtFirst(a: string, sep: char, b: string)
    requires sep !in a
    ensures Split(a + [sep] + b, sep) == [a] + Split(b, sep)
    decreases |a|
  {
    var s := a + [sep] + b;
    if a == [] {
      assert s[1..] == b;
    } else {
      assert s[1..] == a[1..] + [sep] + b;
      SplitAtFirst(a[1..], sep, b);
      assert [a[0]] + a[1..] == a;
    }
  }

  /** Splitting what was joined gives back the pieces, when no piece holds the separator. */
  lemma {:induction false} SplitJoin(parts: seq<string>, sep: char)
    requires |parts| > 0
    requires forall k :: 0 <= k < |parts| ==> sep !in parts[k]
    ensures Split(Join(parts, [sep]), sep) == parts
    decreases |parts|
  {
    if |parts| == 1 {
      SplitNoSeparator(parts[0], sep);
    } else {
      SplitJoin(parts[1..], sep);
      SplitAtFirst(parts[0], sep, Join(parts[1..], [sep]));
      assert [parts[0]] + parts[1..] == parts;
    }
  }

  /** `s.split(sep).length` is one more than the number of separators in `s`. */
  lemma {:induction false} SplitLength(s: string, sep: char)
    ensures |Split(s, sep)| == multiset(s)[sep] + 1
    decreases |s|
  {
    if s != [] {
      SplitLength(s[1..], sep);
      assert s == [s[0]] + s[1..];
      assert multiset(s) == multiset{s[0]} + multiset(s[1..]);
    }
  }

  /** Every line followed by the separator, concatenated. */
  function Terminated(lines: seq<string>, sep: char): string
  {
    if lines == [] then "" else Terminated(lines[..|lines| - 1], sep) + lines[|lines| - 1] + [sep]
  }

  lemma TerminatedSnoc(lines: seq<string>, line: string, sep: char)
    ensures Terminated(lines + [line], sep) == Terminated(lines, sep) + (line + [sep])
  {
    assert (lines + [line])[..|lines|] == lines;
    ConcatAssociative(Terminated(lines, sep), line, [sep]);
  }

  lemma SplitLastLine(a: seq<string>, b: seq<string>)
    requires b != []
    ensures a + b == (a + b[..|b| - 1]) + [b[|b| - 1]]
    ensures b == b[..|b| - 1] + [b[|b| - 1]]
  {
  }

  lemma {:induction false} TerminatedAppend(a: seq<string>, b: seq<string>, sep: char)
    ensures Terminated(a + b, sep) == Terminated(a, sep) + Terminated(b, sep)
    decreases |b|
  {
    if b == [] {
      assert a + b == a;
    } else {
      var n := |b| - 1;
      SplitLastLine(a, b);
      var front, last := a + b[..n], b[n];
      TerminatedSnoc(front, last, sep);
      TerminatedSnoc(b[..n], last, sep);
      TerminatedAppend(a, b[..n], sep);
      var x, y, z := Terminated(a, sep), Terminated(b[..n], sep), last + [sep];
      calc {
        Terminated(a + b, sep);
        Terminated(front + [last], sep);
        Terminated(front, sep) + z;
        (x + y) + z;
        { ConcatAssociative(x, y, z); }
        x + (y + z);
        x + Terminated(b[..n] + [last], sep);
        x + Terminated(b, sep);
      }
    }
  }

  /** Terminated lines followed by a last line are the lines joined by the separator. */
  lemma {:induction false} TerminatedIsJoin(lines: seq<string>, last: string, sep: char)
    ensures Terminated(lines, sep) + last == Join(lines + [last], [sep])
    decreases |lines|
  {
    if lines != [] {
      var tail := lines[1..];
      TerminatedIsJoin(tail, last, sep);
      TerminatedAppend([lines[0]], tail, sep);
      assert [lines[0]] + tail == lines;
      assert Terminated([lines[0]], sep) == lines[0] + [sep];
      assert (lines + [last])[1..] == tail + [last];
    }
  }

  // ---------------------------------------------------------------------
  // Character filtering and run replacement
  // ---------------------------------------------------------------------

  /** `s.replace(/[^K]/g, '')`: keeps exactly the characters of class `keep`, in order. */
  function Filter(s: string, keep: char -> bool): (r: string)
    ensures |r| <= |s|
    decreases |s|
  {
    if s == [] then []
    else if keep(s[0]) then [s[0]] + Filter(s[1..], keep)
    else Filter(s[1..], keep)
  }

  /** Every character the filter keeps is of class `keep`. */
  lemma {:induction false} FilterKeeps(s: string, keep: char -> bool)
    ensures forall i :: 0 <= i < |Filter(s, keep)| ==> keep(Filter(s, keep)[i])
    decreases |s|
  {
    if s != [] {
      FilterKeeps(s[1..], keep);
    }
  }

  /** A text made only of characters of class `keep` passes the filter unchanged. */
  lemma {:induction false} FilterAll(s: string, keep: char -> bool)
    requires forall i :: 0 <= i < |s| ==> keep(s[i])
    ensures Filter(s, keep) == s
    decreases |s|
  {
    if s != [] {
      assert keep(s[0]);
      var tail := s[1..];
      forall i | 0 <= i < |tail| ensures keep(tail[i]) {
        assert tail[i] == s[i + 1];
      }
      FilterAll(tail, keep);
      assert s == [s[0]] + tail;
    }
  }

  /** Drops the leading characters of class `p`. */
  function DropWhile(s: string, p: char -> bool): (r: string)
    ensures |r| <= |s| && r == s[|s| - |r|..]
    ensures forall k :: 0 <= k < |s| - |r| ==> p(s[k])
    ensures r == [] || !p(r[0])
    decreases |s|
  {
    if |s| > 0 && p(s[0]) then DropWhile(s[1..], p) else s
  }

  /** `s.replace(/R+/g, rep)`: every maximal run of characters of class `inRun`
      becomes the one character `rep`; the other characters are kept.
      `ReplaceRunsProperties` states what the result looks like. */
  function ReplaceRuns(s: string, inRun: char -> bool, rep: char): (r: string)
    ensures |r| <= |s|
    decreases |s|
  {
    if s == [] then []
    else if inRun(s[0]) then [rep] + ReplaceRuns(DropWhile(s[1..], inRun), inRun, rep)
    else [s[0]] + ReplaceRuns(s[1..], inRun, rep)
  }

  /** The result is empty only for an empty text, and a first or last character
      outside the runs stays where it was. */
  lemma {:induction false} ReplaceRunsEnds(s: string, inRun: char -> bool, rep: char)
    ensures var r := ReplaceRuns(s, inRun, rep);
      && (r == [] <==> s == [])
      && (s != [] && !inRun(s[0]) ==> r[0] == s[0])
      && (s != [] && !inRun(s[|s| - 1]) ==> r[|r| - 1] == s[|s| - 1])
    decreases |s|
  {
    if s != [] {
      if inRun(s[0]) {
        var t := DropWhile(s[1..], inRun);
        ReplaceRunsEnds(t, inRun, rep);
        assert t != [] ==> t[|t| - 1] == s[|s| - 1];
      } else {
        var tail := s[1..];
        ReplaceRunsEnds(tail, inRun, rep);
        assert tail != [] ==> tail[|tail| - 1] == s[|s| - 1];
      }
    }
  }

  /** No two characters of class `inRun` are adjacent in the result. */
  lemma {:induction false} ReplaceRunsSeparated(s: string, inRun: char -> bool, rep: char)
    ensures var r := ReplaceRuns(s, inRun, rep);
      forall i :: 0 <= i < |r| - 1 ==> !(inRun(r[i]) && inRun(r[i + 1]))
    decreases |s|
  {
    if s != [] {
      var t := if inRun(s[0]) then DropWhile(s[1..], inRun) else s[1..];
      ReplaceRunsSeparated(t, inRun, rep);
      ReplaceRunsEnds(t, inRun, rep);
      var rt := ReplaceRuns(t, inRun, rep);
      var c := if inRun(s[0]) then rep else s[0];
      assert ReplaceRuns(s, inRun, rep) == [c] + rt;
      SeparatedCons(c, rt, inRun);
    }
  }

  /** No two adjacent characters of class `inRun`. */
  predicate Separated(r: string, inRun: char -> bool) {
    forall i :: 0 <= i < |r| - 1 ==> !(inRun(r[i]) && inRun(r[i + 1]))
  }

  /** A character put in front of separated text keeps it separated unless both are in the class. */
  lemma SeparatedCons(c: char, r: string, inRun: char -> bool)
    requires Separated(r, inRun)
    requires inRun(c) ==> r == [] || !inRun(r[0])
    ensures Separated([c] + r, inRun)
  {
    var cr := [c] + r;
    forall i | 0 <= i < |cr| - 1 ensures !(inRun(cr[i]) && inRun(cr[i + 1])) {
      if i > 0 {
        assert cr[i] == r[i - 1] && cr[i + 1] == r[i];
      } else {
        assert cr[1] == r[0];
      }
    }
  }

  /** Everything `ReplaceRuns` promises: the ends, the replaced runs and their separation. */
  lemma ReplaceRunsProperties(s: string, inRun: char -> bool, rep: char)
    ensures var r := ReplaceRuns(s, inRun, rep);
      && (r == [] <==> s == [])
      && (forall i :: 0 <= i < |r| ==> r[i] == rep || !inRun(r[i]))
      && (forall i :: 0 <= i < |r| - 1 ==> !(inRun(r[i]) && inRun(r[i + 1])))
      && (s != [] && !inRun(s[0]) ==> r[0] == s[0])
      && (s != [] && !inRun(s[|s| - 1]) ==> r[|r| - 1] == s[|s| - 1])
  {
    ReplaceRunsEnds(s, inRun, rep);
    ReplaceRunsSeparated(s, inRun, rep);
    ReplaceRunsClass(s, inRun, rep, c => c == rep || !inRun(c));
  }

  /** A class of characters that contains the replacement and every character
      outside the runs contains every character of the result. */
  lemma {:induction false} ReplaceRunsClass(s: string, inRun: char -> bool, rep: char, p: char -> bool)
    requires forall i :: 0 <= i < |s| ==> inRun(s[i]) || p(s[i])
    requires p(rep)
    ensures forall i :: 0 <= i < |ReplaceRuns(s, inRun, rep)| ==> p(ReplaceRuns(s, inRun, rep)[i])
    decreases |s|
  {
    if s != [] {
      var tail := s[1..];
      if inRun(s[0]) {
        var t := DropWhile(tail, inRun);
        forall i | 0 <= i < |t| ensures inRun(t[i]) || p(t[i]) {
          assert t[i] == s[|s| - |t| + i];
        }
        ReplaceRunsClass(t, inRun, rep, p);
      } else {
        forall i | 0 <= i < |tail| ensures inRun(tail[i]) || p(tail[i]) {
          assert tail[i] == s[i + 1];
        }
        ReplaceRunsClass(tail, inRun, rep, p);
      }
    }
  }

  /** Replacing runs changes nothing when every run is already the single character `rep`. */
  lemma {:induction false} ReplaceRunsNoop(s: string, inRun: char -> bool, rep: char)
    requires forall i :: 0 <= i < |s| && inRun(s[i]) ==> s[i] == rep
    requires forall i :: 0 <= i < |s| - 1 ==> !(inRun(s[i]) && inRun(s[i + 1]))
    ensures ReplaceRuns(s, inRun, rep) == s
    decreases |s|
  {
    if s != [] {
      var tail := s[1..];
      forall i | 0 <= i < |tail| && inRun(tail[i]) ensures tail[i] == rep {
        assert tail[i] == s[i + 1];
      }
      forall i | 0 <= i < |tail| - 1 ensures !(inRun(tail[i]) && inRun(tail[i + 1])) {
        assert tail[i] == s[i + 1] && tail[i + 1] == s[i + 2];
      }
      ReplaceRunsNoop(tail, inRun, rep);
      assert s == [s[0]] + tail;
      if inRun(s[0]) {
        assert s[0] == rep;
        assert tail == [] || !inRun(tail[0]) by {
          if tail != [] { assert tail[0] == s[1]; }
        }
        assert DropWhile(tail, inRun) == tail;
        assert ReplaceRuns(s, inRun, rep) == [rep] + ReplaceRuns(tail, inRun, rep);
      } else {
        assert ReplaceRuns(s, inRun, rep) == [s[0]] + ReplaceRuns(tail, inRun, rep);
      }
    }
  }

  // ---------------------------------------------------------------------
  // Which characters survive, in order
  // ---------------------------------------------------------------------

  /** A character that is not white space. */
  predicate IsVisible(c: char) {
    !IsSpace(c)
  }

  lemma FilterCons(c: char, x: string, q: char -> bool)
    ensures Filter([c] + x, q) == if q(c) then [c] + Filter(x, q) else Filter(x, q)
  {
    assert ([c] + x)[0] == c && ([c] + x)[1..] == x;
  }

  /** Filtering a concatenation filters each part. */
  lemma {:induction false} FilterAppend(a: string, b: string, q: char -> bool)
    ensures Filter(a + b, q) == Filter(a, q) + Filter(b, q)
    decreases |a|
  {
    if a == [] {
      assert a + b == b;
    } else {
      assert a + b == [a[0]] + (a[1..] + b);
      FilterCons(a[0], a[1..] + b, q);
      FilterAppend(a[1..], b, q);
      FilterCons(a[0], a[1..], q);
      assert [a[0]] + a[1..] == a;
      if q(a[0]) {
        ConcatAssociative([a[0]], Filter(a[1..], q), Filter(b, q));
      }
    }
  }

  /** The characters of class `q` in a prefix, then those in the rest, are those of the whole text. */
  lemma FilterSplitAt(s: string, n: nat, q: char -> bool)
    requires n <= |s|
    ensures Filter(s[..n], q) + Filter(s[n..], q) == Filter(s, q)
  {
    PrefixSuffixJoin(s, n);
    FilterAppend(s[..n], s[n..], q);
  }

  lemma PrefixSuffixJoin(s: string, n: nat)
    requires n <= |s|
    ensures s[..n] + s[n..] == s
  {
  }

  /** Filtering by a wider class first does not change what a narrower filter keeps. */
  lemma {:induction false} FilterFilter(s: string, p: char -> bool, q: char -> bool)
    requires forall c :: q(c) ==> p(c)
    ensures Filter(Filter(s, p), q) == Filter(s, q)
    decreases |s|
  {
    if s != [] {
      FilterFilter(s[1..], p, q);
      if p(s[0]) {
        FilterCons(s[0], Filter(s[1..], p), q);
      }
    }
  }

  /** Dropping leading characters the filter would drop anyway changes nothing. */
  lemma {:induction false} FilterDropWhile(s: string, p: char -> bool, q: char -> bool)
    requires forall c :: p(c) ==> !q(c)
    ensures Filter(DropWhile(s, p), q) == Filter(s, q)
    decreases |s|
  {
    if |s| > 0 && p(s[0]) {
      FilterDropWhile(s[1..], p, q);
    }
  }

  /** Replacing runs of characters outside class `q` by a character outside `q`
      keeps every character of class `q`, in order. */
  lemma {:induction false} FilterReplaceRuns(s: string, inRun: char -> bool, rep: char, q: char -> bool)
    requires forall c :: inRun(c) ==> !q(c)
    requires !q(rep)
    ensures Filter(ReplaceRuns(s, inRun, rep), q) == Filter(s, q)
    decreases |s|
  {
    if s != [] {
      if inRun(s[0]) {
        var t := DropWhile(s[1..], inRun);
        FilterReplaceRuns(t, inRun, rep, q);
        FilterCons(rep, ReplaceRuns(t, inRun, rep), q);
        FilterDropWhile(s[1..], inRun, q);
      } else {
        FilterReplaceRuns(s[1..], inRun, rep, q);
        FilterCons(s[0], ReplaceRuns(s[1..], inRun, rep), q);
      }
    }
  }

  lemma {:induction false} FilterTrimStart(s: string, q: char -> bool)
    requires forall c :: IsSpace(c) ==> !q(c)
    ensures Filter(TrimStart(s), q) == Filter(s, q)
    decreases |s|
  {
    if |s| > 0 && IsSpace(s[0]) {
      FilterTrimStart(s[1..], q);
    }
  }

  lemma {:induction false} FilterTrimEnd(s: string, q: char -> bool)
    requires forall c :: IsSpace(c) ==> !q(c)
    ensures Filter(TrimEnd(s), q) == Filter(s, q)
    decreases |s|
  {
    if |s| > 0 && IsSpace(s[|s| - 1]) {
      var front := s[..|s| - 1];
      FilterTrimEnd(front, q);
      assert s == front + [s[|s| - 1]];
      FilterAppend(front, [s[|s| - 1]], q);
      FilterCons(s[|s| - 1], [], q);
    }
  }

  /** Trimming keeps every character the filter keeps when the filter drops white space. */
  lemma FilterTrim(s: string, q: char -> bool)
    requires forall c :: IsSpace(c) ==> !q(c)
    ensures Filter(Trim(s), q) == Filter(s, q)
  {
    FilterTrimStart(s, q);
    FilterTrimEnd(TrimStart(s), q);
  }

  /** Lower-casing a concatenation lower-cases each part. */
  lemma LowerAppend(a: string, b: string)
    ensures LowerStr(a + b) == LowerStr(a) + LowerStr(b)
  {
    var l, r := LowerStr(a + b), LowerStr(a) + LowerStr(b);
    forall i | 0 <= i < |l| ensures l[i] == r[i] {
      if i < |a| {
        assert (a + b)[i] == a[i];
      } else {
        assert (a + b)[i] == b[i - |a|];
      }
    }
  }

  /** Lower-casing and filtering commute for a class that ignores case. */
  lemma {:induction false} FilterLower(s: string, q: char -> bool)
    requires forall c :: q(ToLower(c)) == q(c)
    ensures Filter(LowerStr(s), q) == LowerStr(Filter(s, q))
    decreases |s|
  {
    if s != [] {
      var lower := LowerStr(s);
      FilterLower(s[1..], q);
      assert lower == [ToLower(s[0])] + LowerStr(s[1..]);
      FilterCons(ToLower(s[0]), LowerStr(s[1..]), q);
      if q(s[0]) {
        LowerAppend([s[0]], Filter(s[1..], q));
      }
    }
  }

  /** Lower-casing never turns a character into white space or out of it. */
  lemma VisibleIgnoresCase()
    ensures forall c :: IsVisible(ToLower(c)) == IsVisible(c)
  {
    forall c ensures IsVisible(ToLower(c)) == IsVisible(c) {
      if IsUpperAscii(c) {
        assert !IsSpace(c) && !IsSpace(ToLower(c));
      }
    }
  }

  // ---------------------------------------------------------------------
  // Lengths and numbers
  // ---------------------------------------------------------------------

  /** JavaScript's `length`: UTF-16 code units, two for a character outside the BMP. */
  function Utf16Length(s: string): (n: nat)
    ensures |s| <= n <= 2 * |s|
  {
    if s == [] then 0 else (if s[0] as int > 0xFFFF then 2 else 1) + Utf16Length(s[1..])
  }

  predicate IsDigit(c: char) { '0' <= c <= '9' }

  /** The decimal text of `n`, as `${n}` prints a non-negative integer. */
  function NatToString(n: nat): (s: string)
    ensures |s| > 0
    ensures forall i :: 0 <= i < |s| ==> IsDigit(s[i])
    ensures s[0] == '0' ==> n == 0
    decreases n
  {
    if n < 10 then [('0' as int + n) as char]
    else NatToString(n / 10) + [('0' as int + n % 10) as char]
  }

  /** The value of a string of decimal digits. */
  function DecimalValue(s: string): nat
    requires forall i :: 0 <= i < |s| ==> IsDigit(s[i])
  {
    if s == [] then 0
    else
      assert IsDigit(s[|s| - 1]);
      10 * DecimalValue(s[..|s| - 1]) + (s[|s| - 1] as int - '0' as int)
  }

  /** Reading the printed number back gives the number. */
  lemma {:induction false} DecimalRoundTrip(n: nat)
    ensures DecimalValue(NatToString(n)) == n
    decreases n
  {
    if n >= 10 {
      DecimalRoundTrip(n / 10);
      var s := NatToString(n);
      assert s[..|s| - 1] == NatToString(n / 10);
    }
  }
}
