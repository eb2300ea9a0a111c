// Python `str` operations the core relies on, on `seq<char>`.
// Case mapping is ASCII-only; whitespace is the set `str.isspace` accepts.
module PyStr {
  import opened Wrappers
  import opened Seqs

  function LowerChar(c: char): char
  {
    if 'A' <= c <= 'Z' then (c as int + 32) as char else c
  }

  function UpperChar(c: char): char
  {
    if 'a' <= c <= 'z' then (c as int - 32) as char else c
  }

  /** `s.lower()` */
  function Lower(s: string): (r: string)
    ensures |r| == |s|
    ensures forall i :: 0 <= i < |s| ==> r[i] == LowerChar(s[i])
  {
    seq(|s|, i requires 0 <= i < |s| => LowerChar(s[i]))
  }

  /** `s.upper()` */
  function Upper(s: string): (r: string)
    ensures |r| == |s|
    ensures forall i :: 0 <= i < |s| ==> r[i] == UpperChar(s[i])
  {
    seq(|s|, i requires 0 <= i < |s| => UpperChar(s[i]))
  }

  /** The characters for which `str.isspace()` holds. */
  predicate IsSpace(c: char)
  {
    var n := c as int;
    n == 32 || 9 <= n <= 13 || 0x1c <= n <= 0x1f || n == 0x85 || n == 0xa0
    || n == 0x1680 || 0x2000 <= n <= 0x200a || n == 0x2028 || n == 0x2029
    || n == 0x202f || n == 0x205f || n == 0x3000
  }

  predicate IsDigit(c: char) { '0' <= c <= '9' }

  predicate IsAsciiAlnum(c: char) { IsDigit(c) || 'a' <= c <= 'z' || 'A' <= c <= 'Z' }

  function TrimStart(s: string): (r: string)
    ensures |r| <= |s|
    ensures r == [] || !IsSpace(r[0])
  {
    if |s| > 0 && IsSpace(s[0]) then TrimStart(s[1..]) else s
  }

  function TrimEnd(s: string): (r: string)
    ensures |r| <= |s|
    ensures r == [] || !IsSpace(r[|r| - 1])
  {
    if |s| > 0 && IsSpace(s[|s| - 1]) then TrimEnd(s[..|s| - 1]) else s
  }

  /** `s.strip()` */
  function Strip(s: string): string
  {
    TrimEnd(TrimStart(s))
  }

  predicate StartsWith(s: string, p: string)
  {
    |p| <= |s| && s[..|p|] == p
  }

  lemma StartsWithConcat(a: string, b: string)
    ensures StartsWith(a + b, a)
  {
    assert (a + b)[..|a|] == a;
  }

  /** Strings that differ just after a common lead do not extend each other. */
  lemma StartsWithDiffers(lead: string, x: string, y: string)
    requires |x| > 0 && |y| > 0 && x[0] != y[0]
    ensures !StartsWith(lead + x, lead + y)
  {
    assert (lead + x)[|lead|] == x[0];
    if |lead + y| <= |lead + x| {
      assert (lead + x)[..|lead + y|][|lead|] == x[0];
      assert (lead + y)[|lead|] == y[0];
    }
  }

  predicate EndsWith(s: string, p: string)
  {
    |p| <= |s| && s[|s| - |p|..] == p
  }

  /** `sub in s` */
  predicate Contains(s: string, sub: string)
    decreases |s|
  {
    StartsWith(s, sub) || (|s| > 0 && Contains(s[1..], sub))
  }

  lemma {:induction false} ContainsAt(s: string, sub: string, k: nat)
    requires k + |sub| <= |s| && s[k..k + |sub|] == sub
    ensures Contains(s, sub)
    decreases k
  {
    if k > 0 {
      assert s[1..][k - 1..k - 1 + |sub|] == s[k..k + |sub|];
      ContainsAt(s[1..], sub, k - 1);
    }
  }

  lemma {:induction false} ContainsEmpty(s: string)
    ensures Contains(s, "")
  {
    assert StartsWith(s, "");
  }

  /** `sep.join(parts)` */
  function Join(parts: seq<string>, sep: string): string
  {
    if |parts| == 0 then "" else if |parts| == 1 then parts[0] else parts[0] + sep + Join(parts[1..], sep)
  }

  /** A join starts with its first part. */
  lemma JoinLeads(head: string, rest: seq<string>, sep: string)
    ensures StartsWith(Join([head] + rest, sep), head)
  {
    var parts := [head] + rest;
    if rest != [] {
      assert parts[1..] == rest;
      AppendAssoc(head, sep, Join(rest, sep));
      StartsWithConcat(head, sep + Join(rest, sep));
    } else {
      assert parts == [head];
      StartsWithConcat(head, "");
    }
  }

  lemma {:induction false} JoinAppend(parts: seq<string>, x: string, sep: string)
    requires parts != []
    ensures Join(parts + [x], sep) == Join(parts, sep) + sep + x
  {
    if |parts| == 1 {
      assert parts + [x] == [parts[0], x];
    } else {
      assert (parts + [x])[1..] == parts[1..] + [x];
      JoinAppend(parts[1..], x, sep);
    }
  }

  /** `s.split(c)` for a one-character separator. */
  function Split(s: string, c: char): (r: seq<string>)
    ensures |r| >= 1
    decreases |s|
  {
    if |s| == 0 then [""]
    else if s[0] == c then [""] + Split(s[1..], c)
    else var t := Split(s[1..], c); [[s[0]] + t[0]] + t[1..]
  }

  /** Splitting and re-joining with the same separator gives the input back. */
  lemma {:induction false} SplitJoin(s: string, c: char)
    ensures Join(Split(s, c), [c]) == s
    ensures forall p :: p in Split(s, c) ==> c !in p
    decreases |s|
  {
    if |s| > 0 {
      SplitJoin(s[1..], c);
      var t := Split(s[1..], c);
      assert s == [s[0]] + s[1..];
      if s[0] != c {
        assert Split(s, c) == [[s[0]] + t[0]] + t[1..];
        assert forall p :: p in t[1..] ==> p in t;
        JoinHeadCons(s[0], t, [c]);
      } else {
        assert Split(s, c) == [""] + t;
        assert Join([""] + t, [c]) == "" + [c] + Join(t, [c]);
      }
    }
  }

  /** Prefixing the first part with `x` prefixes the join with `x`. */
  lemma JoinHeadCons(x: char, t: seq<string>, sep: string)
    requires |t| >= 1
    ensures Join([[x] + t[0]] + t[1..], sep) == [x] + Join(t, sep)
  {
    var parts := [[x] + t[0]] + t[1..];
    if |t| > 1 {
      assert parts[1..] == t[1..];
      assert Join(parts, sep) == ([x] + t[0]) + sep + Join(t[1..], sep);
      assert Join(t, sep) == t[0] + sep + Join(t[1..], sep);
    }
  }

  /** `s.split(c)[-1]`: the text after the last `c`. */
  function LastSegment(s: string, c: char): string
  {
    var parts := Split(s, c); parts[|parts| - 1]
  }

  /** The last segment is the longest suffix free of the separator. */
  lemma LastSegmentIsSuffix(s: string, c: char)
    ensures |LastSegment(s, c)| <= |s|
    ensures s[|s| - |LastSegment(s, c)|..] == LastSegment(s, c)
    ensures c !in LastSegment(s, c)
    ensures |LastSegment(s, c)| < |s| ==> s[|s| - |LastSegment(s, c)| - 1] == c
    ensures |Split(s, c)| == 1 <==> LastSegment(s, c) == s
  {
    LastSegmentSuffix(s, c);
    SplitJoin(s, c);
    var parts := Split(s, c);
    assert LastSegment(s, c) in parts;
    if |parts| > 1 {
      JoinLast(parts, [c]);
      JoinLonger(parts, [c]);
    }
  }

  lemma {:induction false} LastSegmentSuffix(s: string, c: char)
    ensures |LastSegment(s, c)| <= |s|
    ensures s[|s| - |LastSegment(s, c)|..] == LastSegment(s, c)
    ensures |LastSegment(s, c)| < |s| ==> s[|s| - |LastSegment(s, c)| - 1] == c
    ensures |Split(s, c)| == 1 ==> LastSegment(s, c) == s
    ensures |Split(s, c)| > 1 ==> |LastSegment(s, c)| < |s|
    decreases |s|
  {
    if |s| > 0 {
      LastSegmentSuffix(s[1..], c);
      var t := Split(s[1..], c);
      var l := LastSegment(s[1..], c);
      if s[0] == c || |t| > 1 {
        assert LastSegment(s, c) == l;
        SuffixOfTail(s, l);
        if |l| == |s| - 1 {
          assert s[0] == c;
        }
      } else {
        assert LastSegment(s, c) == [s[0]] + t[0];
        assert s == [s[0]] + s[1..];
      }
    }
  }

  /** A suffix of `s[1..]` is a suffix of `s`, preceded by the same character. */
  lemma SuffixOfTail(s: string, l: string)
    requires |s| > 0 && |l| <= |s| - 1 && s[1..][|s| - 1 - |l|..] == l
    ensures s[|s| - |l|..] == l
    ensures |l| < |s| - 1 ==> s[|s| - |l| - 1] == s[1..][|s| - 1 - |l| - 1]
  {
    assert s[|s| - |l|..] == s[1..][|s| - 1 - |l|..];
  }

  lemma {:induction false} JoinLast(parts: seq<string>, sep: string)
    requires parts != []
    ensures EndsWith(Join(parts, sep), parts[|parts| - 1])
    decreases |parts|
  {
    if |parts| > 1 {
      JoinLast(parts[1..], sep);
      var j := Join(parts, sep);
      var rest := Join(parts[1..], sep);
      assert j == (parts[0] + sep) + rest;
      assert parts[1..][|parts| - 2] == parts[|parts| - 1];
    }
  }

  /** With two or more parts the join is longer than its last part's text
    * by at least the separator. */
  lemma JoinLonger(parts: seq<string>, sep: string)
    requires |parts| > 1
    ensures |Join(parts, sep)| >= |sep| + |parts[|parts| - 1]|
  {
    JoinLast(parts[1..], sep);
    assert parts[1..][|parts| - 2] == parts[|parts| - 1];
  }

  lemma {:induction false} LastSegmentNoSep(s: string, c: char)
    requires c !in s
    ensures LastSegment(s, c) == s
  {
    LastSegmentIsSuffix(s, c);
    var l := LastSegment(s, c);
    if |l| < |s| {
      assert false;
    }
  }

  lemma {:induction false} SplitNoSep(a: string, c: char)
    requires c !in a
    ensures Split(a, c) == [a]
    decreases |a|
  {
    if a != [] {
      SplitNoSep(a[1..], c);
      assert [a[0]] + a[1..] == a;
    }
  }

  lemma {:induction false} SplitCons(a: string, b: string, c: char)
    requires c !in a
    ensures Split(a + [c] + b, c) == [a] + Split(b, c)
    decreases |a|
  {
    var s := a + [c] + b;
    if a == [] {
      assert s == [c] + b;
    } else {
      assert s[1..] == a[1..] + [c] + b;
      SplitCons(a[1..], b, c);
      assert [a[0]] + a[1..] == a;
    }
  }

  /** Joining separator-free parts and splitting again gives the parts back. */
  lemma {:induction false} SplitJoinInverse(parts: seq<string>, c: char)
    requires parts != []
    requires forall p :: p in parts ==> c !in p
    ensures Split(Join(parts, [c]), c) == parts
  {
    if |parts| == 1 {
      SplitNoSep(parts[0], c);
    } else {
      SplitJoinInverse(parts[1..], c);
      SplitCons(parts[0], Join(parts[1..], [c]), c);
      assert [parts[0]] + parts[1..] == parts;
    }
  }

  lemma StripNoEdgeSpace(s: string)
    requires s != [] && !IsSpace(s[0]) && !IsSpace(s[|s| - 1])
    ensures Strip(s) == s
  {
    assert TrimStart(s) == s;
  }

  /** `s.split(c, 1)` when `c` occurs: the text before and after its first occurrence. */
  function SplitFirst(s: string, c: char): (r: Option<(string, string)>)
    ensures r.None? <==> c !in s
    ensures r.Some? ==> s == r.value.0 + [c] + r.value.1 && c !in r.value.0
    decreases |s|
  {
    if |s| == 0 then None
    else if s[0] == c then Some(([], s[1..]))
    else match SplitFirst(s[1..], c)
      case None => None
      case Some(p) => Some(([s[0]] + p.0, p.1))
  }

  /** `s.replace(c, r)` for a one-character pattern. */
  function ReplaceChar(s: string, c: char, r: string): (t: string)
    ensures c !in r ==> c !in t
    ensures |t| >= |s| || r == []
  {
    if s == [] then [] else (if s[0] == c then r else [s[0]]) + ReplaceChar(s[1..], c, r)
  }

  /** `s.replace(pat, rep)` for a non-empty pattern: left to right, without overlaps. */
  function ReplaceStr(s: string, pat: string, rep: string): string
    requires pat != []
    decreases |s|
  {
    if s == [] then []
    else if StartsWith(s, pat) then rep + ReplaceStr(s[|pat|..], pat, rep)
    else [s[0]] + ReplaceStr(s[1..], pat, rep)
  }

  /** Text that cannot start the pattern is copied unchanged. */
  lemma {:induction false} ReplaceStrPrefix(a: string, b: string, pat: string, rep: string)
    requires pat != [] && pat[0] !in a
    ensures ReplaceStr(a + b, pat, rep) == a + ReplaceStr(b, pat, rep)
    decreases |a|
  {
    if a == [] {
      assert a + b == b;
    } else {
      assert (a + b)[0] == a[0] && (a + b)[1..] == a[1..] + b;
      ReplaceStrPrefix(a[1..], b, pat, rep);
    }
  }

  /** An occurrence of the pattern at the front is replaced. */
  lemma ReplaceStrAt(pat: string, b: string, rep: string)
    requires pat != []
    ensures ReplaceStr(pat + b, pat, rep) == rep + ReplaceStr(b, pat, rep)
  {
    var s := pat + b;
    assert StartsWith(s, pat) && s[|pat|..] == b;
  }

  /** Text shorter than the pattern is copied unchanged. */
  lemma {:induction false} ReplaceStrNoStart(s: string, pat: string, rep: string)
    requires pat != [] && |s| < |pat|
    ensures ReplaceStr(s, pat, rep) == s
    decreases |s|
  {
    if s != [] {
      ReplaceStrNoStart(s[1..], pat, rep);
      assert [s[0]] + s[1..] == s;
    }
  }

  function TrimStartChars(s: string, cs: set<char>): (r: string)
    ensures |r| <= |s|
    ensures r == [] || r[0] !in cs
  {
    if |s| > 0 && s[0] in cs then TrimStartChars(s[1..], cs) else s
  }

  function TrimEndChars(s: string, cs: set<char>): (r: string)
    ensures |r| <= |s|
    ensures r == [] || r[|r| - 1] !in cs
  {
    if |s| > 0 && s[|s| - 1] in cs then TrimEndChars(s[..|s| - 1], cs) else s
  }

  /** `s.strip(chars)` */
  function StripChars(s: string, cs: set<char>): string
  {
    TrimEndChars(TrimStartChars(s, cs), cs)
  }

  /** One stripped character on each side of text whose ends are kept. */
  lemma StripCharsWrapped(l: char, x: string, r: char, cs: set<char>)
    requires l in cs && r in cs
    requires x != [] && x[0] !in cs && x[|x| - 1] !in cs
    ensures StripChars([l] + x + [r], cs) == x
  {
    var s := [l] + x + [r];
    var t := x + [r];
    assert s[0] == l && s[1..] == t;
    assert t[0] == x[0];
    assert TrimStartChars(s, cs) == TrimStartChars(t, cs) == t;
    assert t[|t| - 1] == r && t[..|t| - 1] == x;
    assert TrimEndChars(t, cs) == TrimEndChars(x, cs) == x;
  }

  function DigitChar(d: nat): char
    requires d < 10
  {
    ('0' as int + d) as char
  }

  function DigitValue(c: char): nat
    requires IsDigit(c)
  {
    c as int - '0' as int
  }

  /** `str(n)` for a natural number. */
  function NatToStr(n: nat): (r: string)
    ensures |r| >= 1 && AllDigits(r)
    decreases n
  {
    if n < 10 then [DigitChar(n)] else NatToStr(n / 10) + [DigitChar(n % 10)]
  }

  /** `str(i)` for any integer. */
  function IntToStr(i: int): string
  {
    if i < 0 then "-" + NatToStr(-i) else NatToStr(i)
  }

  predicate AllDigits(s: string) { forall i :: 0 <= i < |s| ==> IsDigit(s[i]) }

  function DigitsValue(s: string): nat
    requires AllDigits(s)
  {
    if s == [] then 0 else DigitsValue(s[..|s| - 1]) * 10 + DigitValue(s[|s| - 1])
  }

  lemma {:induction false} NatToStrValue(n: nat)
    ensures DigitsValue(NatToStr(n)) == n
    decreases n
  {
    if n >= 10 {
      NatToStrValue(n / 10);
      var s := NatToStr(n);
      assert s[..|s| - 1] == NatToStr(n / 10);
    }
  }

  /** `str(b)` for a bool. */
  function BoolToStr(b: bool): string
  {
    if b then "True" else "False"
  }

  predicate NoSpace(w: string)
  {
    forall i :: 0 <= i < |w| ==> !IsSpace(w[i])
  }

  /** The leading run of non-whitespace characters. */
  function WordPrefix(s: string): (w: string)
    ensures |w| <= |s| && w == s[..|w|]
    ensures NoSpace(w)
    ensures |w| < |s| ==> IsSpace(s[|w|])
    ensures s != [] && !IsSpace(s[0]) ==> |w| >= 1
  {
    if s == [] || IsSpace(s[0]) then [] else [s[0]] + WordPrefix(s[1..])
  }

  /** `s.split()`: the maximal runs of non-whitespace characters, in order. */
  function SplitWs(s: string): (r: seq<string>)
    ensures forall w :: w in r ==> w != [] && NoSpace(w)
    decreases |s|
  {
    if s == [] then []
    else if IsSpace(s[0]) then SplitWs(s[1..])
    else
      var w := WordPrefix(s);
      [w] + SplitWs(s[|w|..])
  }

  /** Every character of a word comes from the split text. */
  lemma {:induction false} SplitWsChars(s: string)
    ensures forall w, i :: w in SplitWs(s) && 0 <= i < |w| ==> w[i] in s
    decreases |s|
  {
    if s != [] {
      if IsSpace(s[0]) {
        SplitWsChars(s[1..]);
      } else {
        var w := WordPrefix(s);
        SplitWsChars(s[|w|..]);
        forall x, i | x in SplitWs(s) && 0 <= i < |x| ensures x[i] in s {
          if x == w {
            assert x[i] == s[i];
          } else {
            assert x in SplitWs(s[|w|..]);
            var k :| 0 <= k < |s[|w|..]| && s[|w|..][k] == x[i];
            assert s[|w| + k] == x[i];
          }
        }
      }
    }
  }

  /** Stripping characters other than `c` from both ends keeps every `c`. */
  lemma {:induction false} StripCharsKeeps(s: string, cs: set<char>, c: char)
    requires c in s && c !in cs
    ensures c in StripChars(s, cs)
  {
    TrimStartKeeps(s, cs, c);
    TrimEndKeeps(TrimStartChars(s, cs), cs, c);
  }

  lemma {:induction false} TrimStartKeeps(s: string, cs: set<char>, c: char)
    requires c in s && c !in cs
    ensures c in TrimStartChars(s, cs)
  {
    if s[0] in cs {
      assert c in s[1..];
      TrimStartKeeps(s[1..], cs, c);
    }
  }

  lemma {:induction false} TrimEndKeeps(s: string, cs: set<char>, c: char)
    requires c in s && c !in cs
    ensures c in TrimEndChars(s, cs)
  {
    if s[|s| - 1] in cs {
      assert c in s[..|s| - 1];
      TrimEndKeeps(s[..|s| - 1], cs, c);
    }
  }
}
