// String helpers shared by the chat parser, the Discord commands and the
// validators: JavaScript's whitespace class, trimming, ASCII case mapping,
// substring tests and decimal rendering of numbers.
module Text {

  /** The characters JavaScript's `\s` class and `String.prototype.trim` treat as white space. */
  predicate IsSpace(c: char)
  {
    c == ' ' || c == '\t' || c == '\n' || c == '\r' || c == '\U{000B}' || c == '\U{000C}'
    || c == '\U{00A0}' || c == '\U{1680}' || ('\U{2000}' <= c <= '\U{200A}')
    || c == '\U{2028}' || c == '\U{2029}' || c == '\U{202F}' || c == '\U{205F}'
    || c == '\U{3000}' || c == '\U{FEFF}'
  }

  /** JavaScript's `\w`: ASCII letters, digits and underscore. */
  predicate IsWordChar(c: char)
  {
    ('a' <= c <= 'z') || ('A' <= c <= 'Z') || ('0' <= c <= '9') || c == '_'
  }

  predicate IsDigit(c: char)
  {
    '0' <= c <= '9'
  }

  predicate AllSpace(s: string)
  {
    forall i :: 0 <= i < |s| ==> IsSpace(s[i])
  }

  /** The number of white-space characters `s` starts with. */
  function LeadingSpaces(s: string): (n: nat)
    ensures n <= |s| && AllSpace(s[..n])
    ensures n < |s| ==> !IsSpace(s[n])
  {
    if s == [] || !IsSpace(s[0]) then 0
    else
      var n := LeadingSpaces(s[1..]);
      var w := s[..n + 1];
      assert AllSpace(w) by {
        forall j | 0 < j < n + 1
          ensures IsSpace(w[j])
        {
          assert w[j] == s[1..][..n][j - 1];
        }
      }
      n + 1
  }

  /** Every character before the first visible one is white space. */
  lemma LeadingAllSpace(s: string)
    ensures forall j | 0 <= j < LeadingSpaces(s) :: IsSpace(s[j])
  {
    var w := s[..LeadingSpaces(s)];
    forall j | 0 <= j < |w|
      ensures IsSpace(s[j])
    {
      assert w[j] == s[j];
    }
  }

  /** `s` with its leading white space removed. */
  function TrimStart(s: string): (r: string)
  {
    s[LeadingSpaces(s)..]
  }

  /** One optional space before a word that starts visibly is all that trimming the start removes. */
  lemma TrimStartSpaced(space: string, word: string)
    requires (space == "" || space == " ") && word != [] && !IsSpace(word[0])
    ensures TrimStart(space + word) == word
  {
    var s := space + word;
    if space == " " {
      assert s[1..] == word;
      assert LeadingSpaces(s[1..]) == 0;
    } else {
      assert s == word;
    }
  }

  /** The number of white-space characters `s` ends with. */
  function TrailingSpaces(s: string): (n: nat)
    ensures n <= |s| && AllSpace(s[|s| - n..])
    ensures n < |s| ==> !IsSpace(s[|s| - n - 1])
  {
    if s == [] || !IsSpace(s[|s| - 1]) then 0
    else
      var p := s[..|s| - 1];
      var n := TrailingSpaces(p);
      var u, w := p[|p| - n..], s[|s| - (n + 1)..];
      assert AllSpace(w) by {
        forall j | 0 <= j < n + 1
          ensures IsSpace(w[j])
        {
          if j < n {
            assert w[j] == s[|s| - n - 1 + j] == u[j];
          } else {
            assert w[j] == s[|s| - 1];
          }
        }
      }
      n + 1
  }

  /** The first character of an all-white-space suffix is white space. */
  lemma AllSpaceHead(s: string, k: nat)
    requires k < |s| && AllSpace(s[k..])
    ensures IsSpace(s[k])
  {
    assert s[k..][0] == s[k];
  }

  /** `s` with its trailing white space removed. */
  function TrimEnd(s: string): (r: string)
  {
    s[..|s| - TrailingSpaces(s)]
  }

  /** JavaScript's `String.prototype.trim`. */
  function Trim(s: string): (r: string)
    ensures r == [] || (!IsSpace(r[0]) && !IsSpace(r[|r| - 1]))
    ensures r == [] <==> AllSpace(s)
  {
    var a := LeadingSpaces(s);
    var t := s[a..];
    var b := TrailingSpaces(t);
    assert a < |s| ==> !IsSpace(t[0]) && b < |t| by {
      if a < |s| {
        assert t[0] == s[a];
        if b > 0 {
          AllSpaceHead(t, |t| - b);
        }
      }
    }
    assert a == |s| ==> AllSpace(s) by {
      assert a == |s| ==> s[..a] == s;
    }
    t[..|t| - b]
  }

  /** Trimming removes white space from the two ends only: the result is the slice of `s` between a white-space prefix and a white-space suffix. */
  lemma TrimIsSlice(s: string)
    ensures exists i, j | 0 <= i <= j <= |s| :: Trim(s) == s[i..j] && AllSpace(s[..i]) && AllSpace(s[j..])
  {
    var a := LeadingSpaces(s);
    var t := s[a..];
    var b := TrailingSpaces(t);
    assert t[..|t| - b] == s[a..a + |t| - b] && t[|t| - b..] == s[a + |t| - b..];
  }

  /** Trimming leaves a string that starts and ends with visible characters as it is. */
  lemma TrimKeeps(s: string)
    requires s != [] && !IsSpace(s[0]) && !IsSpace(s[|s| - 1])
    ensures Trim(s) == s
  {
    assert TrimStart(s) == s;
  }

  /** A blank string: one whose trimmed form is empty. */
  predicate IsBlank(s: string)
  {
    Trim(s) == []
  }

  function LowerChar(c: char): char
  {
    if 'A' <= c <= 'Z' then (c as int + 32) as char else c
  }

  function UpperChar(c: char): char
  {
    if 'a' <= c <= 'z' then (c as int - 32) as char else c
  }

  /** `toLowerCase` on the ASCII range. */
  function ToLower(s: string): (r: string)
    ensures |r| == |s|
    ensures forall i :: 0 <= i < |s| ==> r[i] == LowerChar(s[i])
  {
    if s == [] then [] else [LowerChar(s[0])] + ToLower(s[1..])
  }

  /** Lower-casing twice is lower-casing once. */
  lemma LowerIdempotent(s: string)
    ensures ToLower(ToLower(s)) == ToLower(s)
  {
  }

  predicate StartsWith(s: string, prefix: string)
  {
    |prefix| <= |s| && s[..|prefix|] == prefix
  }

  predicate EndsWith(s: string, suffix: string)
  {
    |suffix| <= |s| && s[|s| - |suffix|..] == suffix
  }

  /** `s.indexOf(c)`: the first position of `c`, or -1. */
  function IndexOf(s: string, c: char): (r: int)
    ensures -1 <= r < |s|
    ensures r >= 0 ==> s[r] == c && c !in s[..r]
    ensures r == -1 ==> c !in s
  {
    if s == [] then -1
    else if s[0] == c then 0
    else
      var k := IndexOf(s[1..], c);
      if k == -1 then -1
      else
        assert s[..k + 1] == [s[0]] + s[1..][..k];
        k + 1
  }

  /** The first occurrence is the one `indexOf` finds. */
  lemma IndexOfFirst(s: string, c: char, i: nat)
    requires i < |s| && s[i] == c && c !in s[..i]
    ensures IndexOf(s, c) == i
  {
    assert s[i] in s;
  }

  /** `s.includes(sub)`. */
  predicate Contains(s: string, sub: string)
  {
    StartsWith(s, sub) || (s != [] && Contains(s[1..], sub))
  }

  /** `s` holds `sub` wherever it is put. */
  lemma {:induction false} ContainsPlaced(a: string, sub: string, b: string)
    ensures Contains(a + sub + b, sub)
  {
    if a == [] {
      assert a + sub + b == sub + b;
      assert (sub + b)[..|sub|] == sub;
    } else {
      ContainsPlaced(a[1..], sub, b);
      assert (a + sub + b)[1..] == a[1..] + sub + b;
    }
  }

  /** A string without the first character of `sub` does not contain it. */
  lemma {:induction false} ContainsNeedsFirst(s: string, sub: string)
    requires sub != [] && sub[0] !in s
    ensures !Contains(s, sub)
  {
    if s != [] {
      ContainsNeedsFirst(s[1..], sub);
    }
  }

  /** A first character that cannot start `sub` changes nothing about containing it. */
  lemma ContainsAfterChar(c: char, s: string, sub: string)
    requires sub != [] && sub[0] != c
    ensures Contains([c] + s, sub) <==> Contains(s, sub)
  {
    assert ([c] + s)[1..] == s;
  }

  /** `s.includes(sub)` after lower-casing both sides. */
  predicate ContainsIgnoreCase(s: string, sub: string)
  {
    Contains(ToLower(s), ToLower(sub))
  }

  /** `s.toLowerCase() === t.toLowerCase()`. */
  predicate EqualsIgnoreCase(s: string, t: string)
  {
    ToLower(s) == ToLower(t)
  }

  function DigitChar(d: nat): char
    requires d < 10
  {
    ('0' as int + d) as char
  }

  /** Decimal rendering of a natural number, as `String(n)` gives it. */
  function NatToString(n: nat): (r: string)
    ensures |r| >= 1
    ensures forall i :: 0 <= i < |r| ==> IsDigit(r[i])
  {
    if n < 10 then [DigitChar(n)] else NatToString(n / 10) + [DigitChar(n % 10)]
  }

  /** Decimal rendering of an integer, with a leading minus sign when negative. */
  function IntToString(n: int): string
  {
    if n < 0 then "-" + NatToString(-n) else NatToString(n)
  }

  /** `s.replace(/\s+/g, rep)`: every maximal run of white space becomes `rep`. */
  function ReplaceSpaceRuns(s: string, rep: string): string
  {
    if s == [] then []
    else if IsSpace(s[0]) then rep + ReplaceSpaceRuns(TrimStart(s), rep)
    else [s[0]] + ReplaceSpaceRuns(s[1..], rep)
  }

  /** No white space anywhere in `s`. */
  predicate NoSpace(s: string)
  {
    forall i :: 0 <= i < |s| ==> !IsSpace(s[i])
  }

  /** Every character of `s` is already lower case. */
  predicate Lowered(s: string)
  {
    forall i :: 0 <= i < |s| ==> LowerChar(s[i]) == s[i]
  }

  lemma LoweredAfterToLower(s: string)
    ensures Lowered(ToLower(s))
  {
  }

  lemma LoweredUnchanged(s: string)
    requires Lowered(s)
    ensures ToLower(s) == s
  {
  }

  /** Trimming a string without white space changes nothing. */
  lemma TrimNoSpace(s: string)
    requires NoSpace(s)
    ensures Trim(s) == s
  {
    if s != [] {
      TrimKeeps(s);
    }
  }

  /** Replacing the white-space runs by a replacement without white space leaves none; it keeps a lower-case string lower case and keeps every other visible character in or out. */
  lemma {:induction false} ReplaceSpaceRunsResult(s: string, rep: string, c: char)
    requires NoSpace(rep) && Lowered(rep) && c !in rep && !IsSpace(c)
    ensures var r := ReplaceSpaceRuns(s, rep);
            NoSpace(r) && (Lowered(s) ==> Lowered(r)) && (c in r <==> c in s)
    decreases |s|
  {
    if s == [] {
    } else if IsSpace(s[0]) {
      var t := TrimStart(s);
      ReplaceSpaceRunsResult(t, rep, c);
      TrimStartKeepsVisible(s, c);
      ConcatKeeps(rep, ReplaceSpaceRuns(t, rep), c);
    } else {
      var t := s[1..];
      ReplaceSpaceRunsResult(t, rep, c);
      ConcatKeeps([s[0]], ReplaceSpaceRuns(t, rep), c);
      assert s == [s[0]] + t;
      ConcatKeeps([s[0]], t, c);
    }
  }

  /** Trimming the start drops white space only: a visible character is in the rest exactly when it was in the whole, and lower case is kept. */
  lemma TrimStartKeepsVisible(s: string, c: char)
    requires !IsSpace(c)
    ensures c in TrimStart(s) <==> c in s
    ensures Lowered(s) ==> Lowered(TrimStart(s))
  {
    var k := LeadingSpaces(s);
    var t := s[k..];
    assert c in s ==> c in t by {
      if c in s {
        var i :| 0 <= i < |s| && s[i] == c;
        LeadingAllSpace(s);
        assert t[i - k] == c;
      }
    }
  }

  /** Joining two strings joins their characters. */
  lemma ConcatKeeps(a: string, b: string, c: char)
    ensures NoSpace(a) && NoSpace(b) ==> NoSpace(a + b)
    ensures Lowered(a) && Lowered(b) ==> Lowered(a + b)
    ensures c in a + b <==> c in a || c in b
  {
    if NoSpace(a) && NoSpace(b) {
      forall i | 0 <= i < |a + b|
        ensures !IsSpace((a + b)[i])
      {
        if i >= |a| {
          assert (a + b)[i] == b[i - |a|];
        }
      }
    }
    if Lowered(a) && Lowered(b) {
      forall i | 0 <= i < |a + b|
        ensures LowerChar((a + b)[i]) == (a + b)[i]
      {
        if i >= |a| {
          assert (a + b)[i] == b[i - |a|];
        }
      }
    }
  }

  /** A string without white space has no run to replace. */
  lemma {:induction false} ReplaceSpaceRunsNoSpace(s: string, rep: string)
    requires NoSpace(s)
    ensures ReplaceSpaceRuns(s, rep) == s
  {
    if s != [] {
      ReplaceSpaceRunsNoSpace(s[1..], rep);
    }
  }

  /** `s.replace(/from/g, to)` for a single character. */
  function ReplaceChar(s: string, from: char, to: char): (r: string)
    ensures |r| == |s|
    ensures forall i :: 0 <= i < |s| ==> r[i] == if s[i] == from then to else s[i]
  {
    if s == [] then [] else [if s[0] == from then to else s[0]] + ReplaceChar(s[1..], from, to)
  }

  /** Where the text after the last `sep` starts: just past it, or at 0 when there is none. */
  function SegmentStart(s: string, sep: char): (k: nat)
    ensures k <= |s| && forall i :: k <= i < |s| ==> s[i] != sep
    ensures k > 0 ==> s[k - 1] == sep
  {
    if s == [] then 0
    else if s[|s| - 1] == sep then |s|
    else SegmentStart(s[..|s| - 1], sep)
  }

  /** `s.split(sep).pop()`: the text after the last `sep`, or all of `s`. */
  function LastSegment(s: string, sep: char): string
  {
    s[SegmentStart(s, sep)..]
  }

  /** The text after a last separator is what `split(sep).pop()` gives. */
  lemma LastSegmentAfter(prefix: string, segment: string, sep: char)
    requires sep !in segment
    ensures LastSegment(prefix + [sep] + segment, sep) == segment
  {
    var s := prefix + [sep] + segment;
    var k := SegmentStart(s, sep);
    assert s[|prefix|] == sep;
    forall j | |prefix| < j < |s|
      ensures s[j] != sep
    {
      assert s[j] == segment[j - |prefix| - 1];
    }
    assert k == |prefix| + 1;
    assert s[k..] == segment;
  }

  /** `s.padStart(width, c)`. */
  function PadStart(s: string, width: nat, c: char): (r: string)
    ensures |r| == if |s| >= width then |s| else width
    ensures EndsWith(r, s)
    ensures forall i | 0 <= i < |r| - |s| :: r[i] == c
    decreases width - |s|
  {
    if |s| >= width then s
    else
      var r := PadStart([c] + s, width, c);
      assert r[|r| - |s| - 1..] == [c] + s;
      assert r[|r| - |s| - 1] == c;
      r
  }

  /** `parts.join(sep)`. */
  function Join(parts: seq<string>, sep: string): string
  {
    if parts == [] then []
    else if |parts| == 1 then parts[0]
    else parts[0] + sep + Join(parts[1..], sep)
  }

  /** A join opens with its first part. */
  lemma JoinStartsWithFirst(parts: seq<string>, sep: string)
    requires |parts| > 0
    ensures StartsWith(Join(parts, sep), parts[0])
  {
    if |parts| > 1 {
      var j := Join(parts, sep);
      assert j == parts[0] + (sep + Join(parts[1..], sep));
      assert j[..|parts[0]|] == parts[0];
    }
  }
}
