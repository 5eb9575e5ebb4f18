/** The Python string operations the scripts rely on: `str.strip()`,
    `str.split()` with no argument, `str.split(sep)` and the `in` test for
    substrings. Whitespace is what Python's `str.isspace` accepts. */
module Text {
  import opened Seqs

  /** Python's whitespace characters (`str.isspace`). */
  predicate IsSpace(c: char) {
    var n := c as int;
    (9 <= n <= 13) || (28 <= n <= 32) || n == 0x85 || n == 0xA0 || n == 0x1680
    || (0x2000 <= n <= 0x200A) || n == 0x2028 || n == 0x2029 || n == 0x202F
    || n == 0x205F || n == 0x3000
  }

  predicate AllSpace(s: string) {
    forall i :: 0 <= i < |s| ==> IsSpace(s[i])
  }

  predicate NoSpace(s: string) {
    forall i :: 0 <= i < |s| ==> !IsSpace(s[i])
  }

  /** Number of leading whitespace characters. */
  function Lead(s: string): (n: nat)
    ensures n <= |s|
    ensures forall k :: 0 <= k < n ==> IsSpace(s[k])
    ensures n < |s| ==> !IsSpace(s[n])
  {
    if s != [] && IsSpace(s[0]) then 1 + Lead(s[1..]) else 0
  }

  /** Number of trailing whitespace characters. */
  function Trail(s: string): (n: nat)
    ensures n <= |s|
    ensures forall k :: |s| - n <= k < |s| ==> IsSpace(s[k])
    ensures n < |s| ==> !IsSpace(s[|s| - n - 1])
  {
    if s != [] && IsSpace(s[|s| - 1]) then 1 + Trail(s[..|s| - 1]) else 0
  }

  /** `t.rstrip()`: the longest prefix of `t` that does not end in whitespace. */
  function StripEnd(t: string): (r: string)
    ensures |r| <= |t| && r == t[..|r|]
    ensures forall k :: |r| <= k < |t| ==> IsSpace(t[k])
    ensures r != [] ==> !IsSpace(r[|r| - 1])
  {
    t[..|t| - Trail(t)]
  }

  /** `s.strip()`: drops leading and trailing whitespace and nothing else. */
  function Strip(s: string): (r: string)
    ensures Lead(s) + |r| <= |s| && r == s[Lead(s)..Lead(s) + |r|]
    ensures forall k :: Lead(s) + |r| <= k < |s| ==> IsSpace(s[k])
    ensures r != [] ==> !IsSpace(r[0]) && !IsSpace(r[|r| - 1])
    ensures r == [] <==> AllSpace(s)
  {
    StripSlice(s);
    StripTail(s);
    StripEnds(s);
    StripEmpty(s);
    StripEnd(s[Lead(s)..])
  }

  lemma StripSlice(s: string)
    ensures var r := StripEnd(s[Lead(s)..]);
      Lead(s) + |r| <= |s| && r == s[Lead(s)..Lead(s) + |r|]
  {
    var a := Lead(s);
    var r := StripEnd(s[a..]);
    SliceOfSuffix(s, a, |r|);
  }

  lemma StripTail(s: string)
    ensures var r := StripEnd(s[Lead(s)..]);
      forall k :: Lead(s) + |r| <= k < |s| ==> IsSpace(s[k])
  {
    var a := Lead(s);
    var t := s[a..];
    var r := StripEnd(t);
    forall k | a + |r| <= k < |s| ensures IsSpace(s[k]) {
      SuffixAt(s, a, k);
    }
  }


  lemma StripEnds(s: string)
    ensures var r := StripEnd(s[Lead(s)..]);
      r != [] ==> !IsSpace(r[0]) && !IsSpace(r[|r| - 1])
  {
    var a := Lead(s);
    var t := s[a..];
    var r := StripEnd(t);
    if r != [] {
      assert r[0] == t[0] == s[a];
    }
  }

  lemma StripEmpty(s: string)
    ensures StripEnd(s[Lead(s)..]) == [] <==> AllSpace(s)
  {
    var a := Lead(s);
    var t := s[a..];
    if AllSpace(s) {
      assert a == |s|;
      assert t == [];
    } else {
      var i :| 0 <= i < |s| && !IsSpace(s[i]);
      assert a <= i;
      SuffixAt(s, a, i);
      assert StripEnd(t) != [];
    }
  }

  /** Whitespace-only text around a word does not survive `strip`. */
  lemma {:induction false} StripAround(pre: string, w: string, post: string)
    requires AllSpace(pre) && AllSpace(post)
    requires w != [] && !IsSpace(w[0]) && !IsSpace(w[|w| - 1])
    ensures Strip(pre + w + post) == w
  {
    var s := pre + w + post;
    LeadExact(pre, w + post);
    assert s == pre + (w + post);
    assert s[|pre|..] == w + post;
    TrailExact(w, post);
  }

  lemma {:induction false} LeadExact(pre: string, rest: string)
    requires AllSpace(pre) && rest != [] && !IsSpace(rest[0])
    ensures Lead(pre + rest) == |pre|
    decreases |pre|
  {
    if pre != [] {
      assert (pre + rest)[1..] == pre[1..] + rest;
      LeadExact(pre[1..], rest);
    } else {
      assert pre + rest == rest;
    }
  }

  lemma {:induction false} TrailExact(w: string, post: string)
    requires AllSpace(post) && w != [] && !IsSpace(w[|w| - 1])
    ensures Trail(w + post) == |post|
    decreases |post|
  {
    if post != [] {
      assert (w + post)[..|w + post| - 1] == w + post[..|post| - 1];
      TrailExact(w, post[..|post| - 1]);
    } else {
      assert w + post == w;
    }
  }

  /** Length of the run of non-whitespace characters that starts `s`. */
  function TokenLen(s: string): (n: nat)
    ensures n <= |s| && NoSpace(s[..n])
    ensures n < |s| ==> IsSpace(s[n])
  {
    if s != [] && !IsSpace(s[0]) then
      var m := TokenLen(s[1..]);
      assert s[..m + 1] == [s[0]] + s[1..][..m];
      m + 1
    else 0
  }

  /** `s.split()`: the maximal runs of non-whitespace characters, in order. */
  function Words(s: string): (ws: seq<string>)
    ensures forall k :: 0 <= k < |ws| ==> ws[k] != [] && NoSpace(ws[k])
    decreases |s|
  {
    if s == [] then []
    else if IsSpace(s[0]) then Words(s[1..])
    else
      var n := TokenLen(s);
      [s[..n]] + Words(s[n..])
  }

  lemma {:induction false} TokenLenWord(w: string, rest: string)
    requires NoSpace(w) && (rest == [] || IsSpace(rest[0]))
    ensures TokenLen(w + rest) == |w|
    decreases |w|
  {
    if w != [] {
      assert (w + rest)[1..] == w[1..] + rest;
      TokenLenWord(w[1..], rest);
    } else {
      assert w + rest == rest;
    }
  }

  /** A word followed by a space is split off as the first word. */
  lemma WordsCons(a: string, rest: string)
    requires a != [] && NoSpace(a)
    ensures Words(a + " " + rest) == [a] + Words(rest)
  {
    var tail := " " + rest;
    var s := a + tail;
    AppendAssoc(a, " ", rest);
    TokenLenWord(a, tail);
    SplitConcat(a, tail);
    assert s[0] == a[0] && !IsSpace(s[0]);
    assert Words(s) == [a] + Words(tail);
    SplitConcat(" ", rest);
    assert IsSpace(tail[0]);
  }

  /** Two words joined by one space split back into exactly those two words. */
  lemma {:induction false} WordsOfPair(a: string, b: string)
    requires a != [] && b != [] && NoSpace(a) && NoSpace(b)
    ensures Words(a + " " + b) == [a, b]
  {
    var rest := " " + b;
    var s := a + rest;
    AppendAssoc(a, " ", b);
    TokenLenWord(a, rest);
    SplitConcat(a, rest);
    assert s[0] == a[0] && !IsSpace(s[0]);
    assert Words(s) == [a] + Words(rest);
    SplitConcat(" ", b);
    assert IsSpace(rest[0]);
    assert Words(rest) == Words(b);
    SplitConcat(b, []);
    assert b + [] == b;
    TokenLenWord(b, []);
    assert Words(b) == [b] + Words([]);
  }

  /** A string of whitespace only has no words. */
  lemma {:induction false} WordsBlank(s: string)
    requires AllSpace(s)
    ensures Words(s) == []
    decreases |s|
  {
    if s != [] {
      assert IsSpace(s[0]);
      WordsBlank(s[1..]);
    }
  }

  /** Leading whitespace is skipped, and a maximal run of non-whitespace
      characters is the next word: together with `WordsBlank` this pins
      `Words` down as the split at whitespace. */
  lemma {:induction false} WordsSplit(pre: string, w: string, post: string)
    requires AllSpace(pre) && w != [] && NoSpace(w)
    requires post == [] || IsSpace(post[0])
    ensures Words(pre + w + post) == [w] + Words(post)
    decreases |pre|
  {
    var s := pre + w + post;
    if pre == [] {
      assert s == w + post;
      assert s[0] == w[0] && !IsSpace(s[0]);
      TokenLenWord(w, post);
      SplitConcat(w, post);
    } else {
      assert s[0] == pre[0] && IsSpace(s[0]);
      assert s[1..] == pre[1..] + w + post;
      WordsSplit(pre[1..], w, post);
    }
  }

  /** `s.split(sep)`: the pieces between occurrences of `sep`, empty pieces
      included; there is always at least one piece. */
  function SplitOn(s: string, sep: char): (parts: seq<string>)
    ensures |parts| >= 1
    ensures forall k :: 0 <= k < |parts| ==> sep !in parts[k]
  {
    if s == [] then [""]
    else if s[0] == sep then [""] + SplitOn(s[1..], sep)
    else
      var rest := SplitOn(s[1..], sep);
      [[s[0]] + rest[0]] + rest[1..]
  }

  /** `sep.join(parts)`. */
  function Join(parts: seq<string>, sep: char): string
    requires |parts| >= 1
  {
    if |parts| == 1 then parts[0] else parts[0] + [sep] + Join(parts[1..], sep)
  }

  /** Splitting loses nothing: joining the pieces back gives the input. */
  lemma {:induction false} SplitJoin(s: string, sep: char)
    ensures Join(SplitOn(s, sep), sep) == s
    decreases |s|
  {
    if s != [] {
      SplitJoin(s[1..], sep);
      var rest := SplitOn(s[1..], sep);
      if s[0] == sep {
        assert SplitOn(s, sep)[1..] == rest;
      } else if |rest| == 1 {
        assert s == [s[0]] + s[1..];
      } else {
        assert SplitOn(s, sep)[1..] == rest[1..];
        assert Join(rest, sep) == rest[0] + [sep] + Join(rest[1..], sep);
        assert s == [s[0]] + s[1..];
      }
    }
  }

  /** A piece free of `sep` followed by `sep` is split off as the first piece. */
  lemma {:induction false} SplitOnPrefix(p: string, sep: char, rest: string)
    requires sep !in p
    ensures SplitOn(p + [sep] + rest, sep) == [p] + SplitOn(rest, sep)
    decreases |p|
  {
    if p == [] {
      assert p + [sep] + rest == [sep] + rest;
      assert ([sep] + rest)[1..] == rest;
    } else {
      assert (p + [sep] + rest)[1..] == p[1..] + [sep] + rest;
      SplitOnPrefix(p[1..], sep, rest);
      assert [p[0]] + p[1..] == p;
    }
  }

  /** `sub in s`: `sub` occurs in `s` at some position. */
  predicate Contains(s: string, sub: string) {
    sub <= s || (s != [] && Contains(s[1..], sub))
  }

  /** `Contains` holds exactly when some slice of `s` equals `sub`. */
  lemma {:induction false} ContainsAt(s: string, sub: string)
    ensures Contains(s, sub) <==> exists i :: 0 <= i <= |s| && sub <= s[i..]
    decreases |s|
  {
    if s != [] {
      ContainsAt(s[1..], sub);
      if Contains(s, sub) {
        if sub <= s {
          DropNone(s);
          assert sub <= s[0..];
        } else {
          var i :| 0 <= i <= |s| - 1 && sub <= s[1..][i..];
          DropDrop(s, i + 1);
          assert sub <= s[i + 1..];
        }
      }
      if exists i :: 0 <= i <= |s| && sub <= s[i..] {
        var i :| 0 <= i <= |s| && sub <= s[i..];
        if i == 0 {
          DropNone(s);
          assert sub <= s;
        } else {
          DropDrop(s, i);
          assert 0 <= i - 1 <= |s[1..]| && sub <= s[1..][i - 1..];
        }
      }
    } else {
      assert forall i :: 0 <= i <= |s| ==> s[i..] == [];
    }
  }
}
