/**
  The three Python string builtins the chef assistant relies on:
  `str.strip()` with no argument, `str.replace(p, '')` and `sep.join(xs)`.
  Strings are sequences of Unicode scalar values; Python strings can also
  hold lone surrogates, which a Dafny `char` cannot.
 */
module PyStr {

  /** The code points for which Python's `str.isspace()` holds; these are
      what `str.strip()` without arguments removes from both ends. */
  predicate IsSpace(c: char)
  {
    var n := c as int;
    (0x09 <= n <= 0x0D) || (0x1C <= n <= 0x20) || n == 0x85 || n == 0xA0 ||
    n == 0x1680 || (0x2000 <= n <= 0x200A) || n == 0x2028 || n == 0x2029 ||
    n == 0x202F || n == 0x205F || n == 0x3000
  }

  /** Removes leading whitespace (the left half of `str.strip()`). */
  function TrimStart(s: string): (r: string)
    ensures |r| <= |s| && r == s[|s| - |r|..]
    ensures forall i :: 0 <= i < |s| - |r| ==> IsSpace(s[i])
    ensures r == [] || !IsSpace(r[0])
    decreases |s|
  {
    if |s| > 0 && IsSpace(s[0]) then TrimStart(s[1..]) else s
  }

  /** Removes trailing whitespace (the right half of `str.strip()`). */
  function TrimEnd(s: string): (r: string)
    ensures |r| <= |s| && r == s[..|r|]
    ensures forall i :: |r| <= i < |s| ==> IsSpace(s[i])
    ensures r == [] || !IsSpace(r[|r| - 1])
    decreases |s|
  {
    if |s| > 0 && IsSpace(s[|s| - 1]) then TrimEnd(s[..|s| - 1]) else s
  }

  /** `s.strip()`: the longest infix of `s` that neither starts nor ends with
      whitespace, obtained by dropping only whitespace on either side. */
  function Strip(s: string): (r: string)
    ensures var k := |s| - |TrimStart(s)|;
      && k + |r| <= |s| && r == s[k..k + |r|]
      && (forall i :: 0 <= i < k ==> IsSpace(s[i]))
      && (forall i :: k + |r| <= i < |s| ==> IsSpace(s[i]))
    ensures r == [] || (!IsSpace(r[0]) && !IsSpace(r[|r| - 1]))
  {
    TrimEnd(TrimStart(s))
  }

  predicate AllSpace(s: string)
  {
    forall i :: 0 <= i < |s| ==> IsSpace(s[i])
  }

  lemma {:induction false} TrimStartFramed(lead: string, y: string)
    requires AllSpace(lead) && y != [] && !IsSpace(y[0])
    ensures TrimStart(lead + y) == y
    decreases |lead|
  {
    if lead == [] {
      assert lead + y == y;
    } else {
      assert (lead + y)[0] == lead[0];
      assert (lead + y)[1..] == lead[1..] + y;
      TrimStartFramed(lead[1..], y);
    }
  }

  lemma {:induction false} TrimEndFramed(y: string, trail: string)
    requires AllSpace(trail) && y != [] && !IsSpace(y[|y| - 1])
    ensures TrimEnd(y + trail) == y
    decreases |trail|
  {
    if trail == [] {
      assert y + trail == y;
    } else {
      var s := y + trail;
      assert s[|s| - 1] == trail[|trail| - 1];
      assert s[..|s| - 1] == y + trail[..|trail| - 1];
      TrimEndFramed(y, trail[..|trail| - 1]);
    }
  }

  /** Whitespace around a text that neither starts nor ends with whitespace
      is exactly what `strip()` removes. */
  lemma StripFramed(lead: string, x: string, trail: string)
    requires AllSpace(lead) && AllSpace(trail)
    requires x != [] && !IsSpace(x[0]) && !IsSpace(x[|x| - 1])
    ensures Strip(lead + x + trail) == x
  {
    assert lead + x + trail == lead + (x + trail);
    TrimStartFramed(lead, x + trail);
    TrimEndFramed(x, trail);
  }

  /** `p` occurs in `s` at offset `i`. */
  predicate OccursAt(s: string, p: string, i: int)
  {
    0 <= i && i + |p| <= |s| && s[i..i + |p|] == p
  }

  /** `p` occurs nowhere in `s`. */
  predicate Free(s: string, p: string)
  {
    forall i :: 0 <= i < |s| ==> !OccursAt(s, p, i)
  }

  /** `s.replace(p, '')` for a non-empty `p`: Python scans left to right and
      deletes every non-overlapping occurrence of `p`; a deletion does not
      make the scan look back. */
  function RemoveAll(s: string, p: string): (r: string)
    requires p != []
    ensures |r| <= |s|
    ensures forall c :: c in r ==> c in s
    decreases |s|
  {
    if |s| < |p| then s
    else if s[..|p|] == p then RemoveAll(s[|p|..], p)
    else [s[0]] + RemoveAll(s[1..], p)
  }

  /** Text without any occurrence of the pattern is left unchanged. */
  lemma {:induction false} RemoveAllAbsent(s: string, p: string)
    requires p != [] && Free(s, p)
    ensures RemoveAll(s, p) == s
    decreases |s|
  {
    if |s| >= |p| {
      assert !OccursAt(s, p, 0);
      forall i | 0 <= i < |s[1..]|
        ensures !OccursAt(s[1..], p, i)
      {
        assert !OccursAt(s, p, i + 1);
        if i + |p| <= |s[1..]| {
          assert s[1..][i..i + |p|] == s[i + 1..i + 1 + |p|];
        }
      }
      RemoveAllAbsent(s[1..], p);
    }
  }

  /** A prefix that does not contain the pattern's first character passes
      through the deletion untouched. */
  lemma {:induction false} RemoveAllPlainPrefix(s: string, t: string, p: string)
    requires p != [] && p[0] !in s
    ensures RemoveAll(s + t, p) == s + RemoveAll(t, p)
    decreases |s|
  {
    if s != [] {
      var st := s + t;
      assert st[0] == s[0] != p[0];
      if |st| >= |p| {
        assert st[..|p|][0] == s[0];
      }
      assert st[1..] == s[1..] + t;
      RemoveAllPlainPrefix(s[1..], t, p);
    } else {
      assert s + t == t;
    }
  }

  /** An occurrence at the front is deleted. */
  lemma RemoveAllLeading(p: string, t: string)
    requires p != []
    ensures RemoveAll(p + t, p) == RemoveAll(t, p)
  {
    assert (p + t)[..|p|] == p;
    assert (p + t)[|p|..] == t;
  }

  /** A text starting with a character other than the pattern's first keeps
      that character at the front. */
  lemma RemoveAllHead(s: string, p: string)
    requires p != [] && s != [] && s[0] != p[0]
    ensures RemoveAll(s, p) == [s[0]] + RemoveAll(s[1..], p)
  {
    if |s| >= |p| {
      assert s[..|p|][0] == s[0];
    }
  }

  const Fence: string := "```"

  /** Deleting every triple backtick leaves none behind: in each run of
      backticks the left-to-right scan deletes all but fewer than three, and
      runs stay apart because only backticks are deleted. */
  lemma {:induction false} FenceFree(s: string)
    ensures Free(RemoveAll(s, Fence), Fence)
    decreases |s|
  {
    var r := RemoveAll(s, Fence);
    if |s| < 3 {
      assert r == s;
    } else if s[..3] == Fence {
      FenceFree(s[3..]);
    } else {
      var r' := RemoveAll(s[1..], Fence);
      FenceFree(s[1..]);
      assert r == [s[0]] + r';
      forall i | 0 <= i < |r|
        ensures !OccursAt(r, Fence, i)
      {
        if i > 0 {
          assert !OccursAt(r', Fence, i - 1);
          if i + 3 <= |r| {
            assert r[i..i + 3] == r'[i - 1..i + 2];
          }
        } else if s[0] != '`' || |r| < 3 {
          if |r| >= 3 {
            assert r[0..3][0] == r[0] == s[0];
          }
        } else {
          // s starts with one or two backticks only, so r' does not start
          // with two
          if s[1] != '`' {
            RemoveAllHead(s[1..], Fence);
            assert r[1] == s[1];
          } else {
            assert s[2] != '`' by { assert s[..3][2] == s[2]; }
            RemoveAllHead(s[2..], Fence);
            if |s[1..]| >= 3 {
              assert s[1..][..3][1] == s[2];
            }
            assert r' == [s[1]] + RemoveAll(s[2..], Fence);
            assert r[2] == s[2];
          }
          assert r[0..3][1] == r[1] && r[0..3][2] == r[2];
        }
      }
    }
  }

  /** `sep.join(xs)`. */
  function Join(xs: seq<string>, sep: string): (r: string)
    ensures xs == [] ==> r == []
    ensures |xs| == 1 ==> r == xs[0]
    decreases |xs|
  {
    if |xs| == 0 then ""
    else if |xs| == 1 then xs[0]
    else xs[0] + sep + Join(xs[1..], sep)
  }

  function TotalLength(xs: seq<string>): nat
  {
    if xs == [] then 0 else |xs[0]| + TotalLength(xs[1..])
  }

  /** Joining two non-empty lists puts one separator between their joins. */
  lemma {:induction false} JoinConcat(xs: seq<string>, ys: seq<string>, sep: string)
    requires xs != [] && ys != []
    ensures Join(xs + ys, sep) == Join(xs, sep) + sep + Join(ys, sep)
    decreases |xs|
  {
    if |xs| == 1 {
      assert (xs + ys)[1..] == ys;
    } else {
      assert (xs + ys)[1..] == xs[1..] + ys;
      JoinConcat(xs[1..], ys, sep);
    }
  }

  /** The joined text holds every element and one separator between each
      neighbouring pair, and nothing else. */
  lemma {:induction false} JoinLength(xs: seq<string>, sep: string)
    requires xs != []
    ensures |Join(xs, sep)| == TotalLength(xs) + |sep| * (|xs| - 1)
    decreases |xs|
  {
    if |xs| > 1 {
      JoinLength(xs[1..], sep);
    } else {
      assert xs[1..] == [];
    }
  }
}
