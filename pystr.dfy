/** The few Python `str` built-ins the formatting and classification code
    relies on, over ASCII: `strip()`, `lower()`, `startswith`, the substring
    test `k in s`, `split('\n')` and `'\n'.join(...)`. */
module PyStr {

  /** `str.isspace()` on one ASCII character: tab, line feed, vertical tab,
      form feed, carriage return (9-13), the four information separators
      (28-31) and space (32). */
  predicate IsSpace(c: char) {
    9 <= c as int <= 13 || 28 <= c as int <= 32
  }

  /** Neither end of `s` is whitespace. */
  predicate Stripped(s: string) {
    s == [] || (!IsSpace(s[0]) && !IsSpace(s[|s| - 1]))
  }

  /** Number of whitespace characters at the front of `s`. */
  function LeadingSpace(s: string): (n: nat)
    ensures n <= |s|
    ensures forall k :: 0 <= k < n ==> IsSpace(s[k])
    ensures n < |s| ==> !IsSpace(s[n])
    decreases |s|
  {
    if s != [] && IsSpace(s[0]) then 1 + LeadingSpace(s[1..]) else 0
  }

  /** Number of whitespace characters at the back of `s`. */
  function TrailingSpace(s: string): (n: nat)
    ensures n <= |s|
    ensures forall k :: |s| - n <= k < |s| ==> IsSpace(s[k])
    ensures n < |s| ==> !IsSpace(s[|s| - n - 1])
    decreases |s|
  {
    if s != [] && IsSpace(s[|s| - 1]) then 1 + TrailingSpace(s[..|s| - 1]) else 0
  }

  /** `s.strip()`: the slice of `s` between its leading and its trailing whitespace. */
  function Strip(s: string): (r: string)
    ensures Stripped(r)
    ensures |r| <= |s|
    ensures Stripped(s) ==> r == s
  {
    var i := LeadingSpace(s);
    s[i..|s| - TrailingSpace(s[i..])]
  }

  /** What `Strip` removes is whitespace and what it keeps is a contiguous slice. */
  lemma StripSlice(s: string) returns (i: nat, j: nat)
    ensures i <= j <= |s| && Strip(s) == s[i..j]
    ensures forall k :: 0 <= k < i ==> IsSpace(s[k])
    ensures forall k :: j <= k < |s| ==> IsSpace(s[k])
  {
    i := LeadingSpace(s);
    var t := TrailingSpace(s[i..]);
    j := |s| - t;
    forall k | j <= k < |s| ensures IsSpace(s[k]) {
      assert s[k] == s[i..][k - i];
    }
  }

  /** `Strip` only removes characters: one absent from `s` is absent from `Strip(s)`. */
  lemma StripKeepsOut(s: string, c: char)
    requires c !in s
    ensures c !in Strip(s)
  {
    var i, j := StripSlice(s);
  }

  /** `c.lower()` for an ASCII character. */
  function LowerChar(c: char): char {
    if 'A' <= c <= 'Z' then (c as int + 32) as char else c
  }

  /** `s.lower()`. */
  function Lower(s: string): (r: string)
    ensures |r| == |s|
  {
    if s == [] then [] else [LowerChar(s[0])] + Lower(s[1..])
  }

  /** Lowering character by character gives `t`, so `s.lower()` is `t`. */
  lemma {:induction false} LowerPointwise(s: string, t: string)
    requires |s| == |t|
    requires forall k :: 0 <= k < |s| ==> LowerChar(s[k]) == t[k]
    ensures Lower(s) == t
    decreases |s|
  {
    if s != [] {
      assert forall k :: 0 <= k < |s| - 1 ==> LowerChar(s[1..][k]) == t[1..][k] by {
        forall k | 0 <= k < |s| - 1 ensures LowerChar(s[1..][k]) == t[1..][k] {
          assert s[1..][k] == s[k + 1] && t[1..][k] == t[k + 1];
        }
      }
      LowerPointwise(s[1..], t[1..]);
      assert t == [t[0]] + t[1..];
    }
  }

  lemma {:induction false} LowerAppend(a: string, b: string)
    ensures Lower(a + b) == Lower(a) + Lower(b)
    decreases |a|
  {
    if a == [] {
      assert a + b == b;
    } else {
      assert (a + b)[1..] == a[1..] + b;
      LowerAppend(a[1..], b);
    }
  }

  lemma {:induction false} LowerSlice(s: string, i: nat, j: nat)
    requires i <= j <= |s|
    ensures Lower(s[i..j]) == Lower(s)[i..j]
    decreases |s|
  {
    if i > 0 {
      LowerSlice(s[1..], i - 1, j - 1);
      assert s[1..][i - 1..j - 1] == s[i..j];
      assert Lower(s)[1..] == Lower(s[1..]);
    } else if j > 0 {
      LowerSlice(s[1..], 0, j - 1);
      assert s[1..][..j - 1] == s[1..j];
      assert s[..j][1..] == s[1..j];
    }
  }

  /** `s.startswith(prefix)`. */
  predicate StartsWith(s: string, prefix: string) {
    |prefix| <= |s| && s[..|prefix|] == prefix
  }

  /** Python's substring test `k in s`. */
  predicate Contains(s: string, k: string)
    decreases |s|
  {
    StartsWith(s, k) || (s != [] && Contains(s[1..], k))
  }

  /** A substring of `s` is a substring of anything that ends with `s`. */
  lemma {:induction false} ContainsPrepend(p: string, s: string, k: string)
    requires Contains(s, k)
    ensures Contains(p + s, k)
    decreases |p|
  {
    if p != [] {
      assert (p + s)[1..] == p[1..] + s;
      ContainsPrepend(p[1..], s, k);
    } else {
      assert p + s == s;
    }
  }

  /** A non-empty `k` whose first character does not occur in `p` cannot
      start inside `p`. */
  lemma {:induction false} ContainsStripPrefix(p: string, s: string, k: string)
    requires k != [] && k[0] !in p
    requires Contains(p + s, k)
    ensures Contains(s, k)
    decreases |p|
  {
    if p != [] {
      assert (p + s)[0] == p[0];
      assert !StartsWith(p + s, k);
      assert (p + s)[1..] == p[1..] + s;
      ContainsStripPrefix(p[1..], s, k);
    } else {
      assert p + s == s;
    }
  }

  /** A substring of a prefix of `s` is a substring of `s`. */
  lemma {:induction false} ContainsTake(s: string, j: nat, k: string)
    requires j <= |s|
    requires Contains(s[..j], k)
    ensures Contains(s, k)
    decreases |s|
  {
    if StartsWith(s[..j], k) {
      assert s[..|k|] == s[..j][..|k|];
    } else {
      assert s[..j][1..] == s[1..][..j - 1];
      ContainsTake(s[1..], j - 1, k);
    }
  }

  /** A substring of a suffix of `s` is a substring of `s`. */
  lemma {:induction false} ContainsDrop(s: string, i: nat, k: string)
    requires i <= |s|
    requires Contains(s[i..], k)
    ensures Contains(s, k)
    decreases i
  {
    if i > 0 {
      assert s[i - 1..][1..] == s[i..];
      ContainsDrop(s, i - 1, k);
    }
  }

  /** A substring of a slice of `s` is a substring of `s`. */
  lemma ContainsSlice(s: string, i: nat, j: nat, k: string)
    requires i <= j <= |s|
    requires Contains(s[i..j], k)
    ensures Contains(s, k)
  {
    assert s[i..j] == s[..j][i..];
    ContainsDrop(s[..j], i, k);
    ContainsTake(s, j, k);
  }

  /** `s.split('\n')`: the pieces between line feeds, never none. The
      first character either ends the first piece or joins it. */
  function Split(s: string): (lines: seq<string>)
    ensures |lines| >= 1
    decreases |s|
  {
    if s == [] then [""]
    else
      var rest := Split(s[1..]);
      if s[0] == '\n' then [""] + rest else [[s[0]] + rest[0]] + rest[1..]
  }

  /** `'\n'.join(lines)`. */
  function Join(lines: seq<string>): string {
    if |lines| == 0 then ""
    else if |lines| == 1 then lines[0]
    else lines[0] + "\n" + Join(lines[1..])
  }

  lemma JoinCons(a: string, rest: seq<string>)
    requires |rest| >= 1
    ensures Join([a] + rest) == a + "\n" + Join(rest)
  {
    var lines := [a] + rest;
    assert lines[0] == a && lines[1..] == rest;
  }

  /** No piece of a split holds a line feed. */
  lemma {:induction false} SplitNoLineFeed(s: string)
    ensures forall k :: 0 <= k < |Split(s)| ==> '\n' !in Split(s)[k]
    decreases |s|
  {
    if s != [] {
      var rest := Split(s[1..]);
      SplitNoLineFeed(s[1..]);
      if s[0] != '\n' {
        var lines := Split(s);
        assert lines == [[s[0]] + rest[0]] + rest[1..];
        forall k | 0 <= k < |lines| ensures '\n' !in lines[k] {
          if k > 0 {
            assert lines[k] == rest[k];
          }
        }
      }
    }
  }

  /** Joining the pieces of a split gives back the text. */
  lemma {:induction false} JoinSplit(s: string)
    ensures Join(Split(s)) == s
    decreases |s|
  {
    if s != [] {
      var rest := Split(s[1..]);
      JoinSplit(s[1..]);
      assert s == [s[0]] + s[1..];
      if s[0] == '\n' {
        assert Split(s) == [""] + rest;
        JoinCons("", rest);
      } else if |rest| == 1 {
        assert Split(s) == [[s[0]] + rest[0]];
      } else {
        var head := [s[0]] + rest[0];
        assert Split(s) == [head] + rest[1..];
        JoinCons(head, rest[1..]);
        assert rest == [rest[0]] + rest[1..];
        JoinCons(rest[0], rest[1..]);
      }
    }
  }

  /** A piece without a line feed splits into itself. */
  lemma {:induction false} SplitOne(a: string)
    requires '\n' !in a
    ensures Split(a) == [a]
    decreases |a|
  {
    if a != [] {
      assert '\n' !in a[1..] by {
        forall c | c in a[1..] ensures c in a { }
      }
      SplitOne(a[1..]);
      assert a == [a[0]] + a[1..];
    }
  }

  /** A line feed after a line-feed-free piece ends the first piece. */
  lemma {:induction false} SplitAt(a: string, rest: string)
    requires '\n' !in a
    ensures Split(a + "\n" + rest) == [a] + Split(rest)
    decreases |a|
  {
    var s := a + "\n" + rest;
    if a == [] {
      assert s == "\n" + rest && s[1..] == rest;
    } else {
      assert s[1..] == a[1..] + "\n" + rest;
      assert '\n' !in a[1..] by {
        forall c | c in a[1..] ensures c in a { }
      }
      SplitAt(a[1..], rest);
      assert a == [a[0]] + a[1..];
    }
  }

  /** Splitting a join of line-feed-free pieces gives back the pieces. */
  lemma {:induction false} SplitJoin(lines: seq<string>)
    requires |lines| >= 1
    requires forall k :: 0 <= k < |lines| ==> '\n' !in lines[k]
    ensures Split(Join(lines)) == lines
  {
    if |lines| == 1 {
      SplitOne(lines[0]);
    } else {
      var tail := lines[1..];
      assert Join(lines) == lines[0] + "\n" + Join(tail);
      SplitAt(lines[0], Join(tail));
      SplitJoin(tail);
      assert lines == [lines[0]] + tail;
    }
  }
}
