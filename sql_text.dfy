/**
 * The JavaScript string primitives the statement builders rely on:
 * `Array.prototype.join`, `String.prototype.split` with a one-character
 * separator, `indexOf`, `lastIndexOf`, `substring(0, k)`, `toUpperCase` and the decimal
 * rendering of a non-negative integer that `+` performs on a number.
 */
module SqlText {

  /** Number of occurrences of `c` in `s`. */
  function CountChar(s: string, c: char): nat
  {
    if |s| == 0 then 0 else (if s[0] == c then 1 else 0) + CountChar(s[1..], c)
  }

  /** `xs.join(sep)`: the elements separated by `sep`, nothing before the first or after the last. */
  function Join(xs: seq<string>, sep: string): string
  {
    if |xs| == 0 then "" else if |xs| == 1 then xs[0] else xs[0] + sep + Join(xs[1..], sep)
  }

  /** `s.split(c)` for a one-character separator `c`: the maximal `c`-free pieces, always at least one. */
  function SplitChar(s: string, c: char): (r: seq<string>)
    ensures |r| >= 1
  {
    if |s| == 0 then [""]
    else
      var rest := SplitChar(s[1..], c);
      if s[0] == c then [""] + rest else [[s[0]] + rest[0]] + rest[1..]
  }

  /** `s.indexOf(c)`: the index of the first occurrence of `c` in `s`, or -1. */
  function IndexOf(s: string, c: char): (k: int)
    ensures -1 <= k < |s|
    ensures k >= 0 ==> s[k] == c
    ensures forall j :: 0 <= j < |s| && (k < 0 || j < k) ==> s[j] != c
  {
    if |s| == 0 then -1
    else if s[0] == c then 0
    else var k := IndexOf(s[1..], c); if k < 0 then -1 else k + 1
  }

  /** `s.lastIndexOf(c)`: the greatest index holding `c`, or -1 when there is none. */
  function LastIndexOf(s: string, c: char): (k: int)
    ensures -1 <= k < |s|
  {
    if |s| == 0 then -1
    else if s[|s| - 1] == c then |s| - 1
    else LastIndexOf(s[..|s| - 1], c)
  }

  /** `lastIndexOf` finds an occurrence of `c`, and no occurrence lies after it. */
  lemma {:induction false} LastIndexOfIsLast(s: string, c: char)
    ensures LastIndexOf(s, c) >= 0 ==> s[LastIndexOf(s, c)] == c
    ensures forall j :: LastIndexOf(s, c) < j < |s| ==> s[j] != c
  {
    if |s| > 0 && s[|s| - 1] != c {
      LastIndexOfIsLast(s[..|s| - 1], c);
    }
  }

  /** `s.substring(0, end)`: a negative end counts as 0, an end past the string as its length. */
  function SubstringTo(s: string, end: int): string
  {
    if end <= 0 then "" else if end >= |s| then s else s[..end]
  }

  /** `s.substring(0, s.lastIndexOf(','))`: everything before the last comma, or "" when there is none. */
  function CutAtLastComma(s: string): string
  {
    SubstringTo(s, LastIndexOf(s, ','))
  }

  /** Upper-casing of one character, for the ASCII letters that occur in column type names. */
  function UpperChar(ch: char): char
  {
    if 'a' <= ch <= 'z' then (ch as int - 32) as char else ch
  }

  /** `s.toUpperCase()` restricted to ASCII letters. */
  function ToUpper(s: string): string
  {
    seq(|s|, i requires 0 <= i < |s| => UpperChar(s[i]))
  }

  /** The digit character for a value below ten. */
  function DigitChar(d: nat): char
    requires d < 10
  {
    ('0' as int + d) as char
  }

  /** The value of a digit character (0 for anything else). */
  function DigitValue(ch: char): nat
  {
    if '0' <= ch <= '9' then ch as int - '0' as int else 0
  }

  /** How `'…' + n` renders a non-negative integer: decimal digits, no leading zeros. */
  function NatToDecimal(n: nat): string
  {
    if n < 10 then [DigitChar(n)] else NatToDecimal(n / 10) + [DigitChar(n % 10)]
  }

  /** Reads a string of decimal digits back as a number. */
  function ParseDecimal(s: string): nat
  {
    if |s| == 0 then 0 else ParseDecimal(s[..|s| - 1]) * 10 + DigitValue(s[|s| - 1])
  }

  /**
   * Splitting at `c` yields one more piece than there are occurrences of `c`:
   * `s.split(c).length - 1` counts the occurrences of `c` in `s`.
   */
  lemma {:induction false} SplitCount(s: string, c: char)
    ensures |SplitChar(s, c)| == CountChar(s, c) + 1
  {
    if |s| > 0 {
      SplitCount(s[1..], c);
    }
  }

  /** Joining the pieces of a split with the separator gives the string back. */
  lemma {:induction false} JoinSplit(s: string, c: char)
    ensures Join(SplitChar(s, c), [c]) == s
  {
    if |s| > 0 {
      var rest := SplitChar(s[1..], c);
      JoinSplit(s[1..], c);
      if s[0] == c {
        if |rest| == 1 {
          assert Join([""] + rest, [c]) == "" + [c] + rest[0];
        } else {
          assert ([""] + rest)[1..] == rest;
        }
        assert s == [c] + s[1..];
      } else {
        JoinHeadChar(s[0], rest[0], rest[1..], [c]);
        assert s == [s[0]] + s[1..];
        assert [rest[0]] + rest[1..] == rest;
      }
    }
  }

  /** Prepending a character to the first element prepends it to the join. */
  lemma JoinHeadChar(a: char, x: string, ys: seq<string>, sep: string)
    ensures Join([[a] + x] + ys, sep) == [a] + Join([x] + ys, sep)
  {
    if |ys| > 0 {
      assert ([[a] + x] + ys)[1..] == ys;
      assert ([x] + ys)[1..] == ys;
    }
  }

  /** A string without the separator splits into itself alone. */
  lemma {:induction false} SplitFree(s: string, c: char)
    requires c !in s
    ensures SplitChar(s, c) == [s]
  {
    if |s| > 0 {
      assert forall k :: 0 <= k < |s[1..]| ==> s[1..][k] == s[k + 1];
      SplitFree(s[1..], c);
      assert [s[0]] + s[1..] == s;
    }
  }

  /** A separator-free prefix attaches to the first piece of the split. */
  lemma {:induction false} SplitPrefixFree(p: string, t: string, c: char)
    requires c !in p
    ensures SplitChar(p + t, c) == [p + SplitChar(t, c)[0]] + SplitChar(t, c)[1..]
  {
    if |p| == 0 {
      assert p + t == t;
      assert p + SplitChar(t, c)[0] == SplitChar(t, c)[0];
      assert [SplitChar(t, c)[0]] + SplitChar(t, c)[1..] == SplitChar(t, c);
    } else {
      assert (p + t)[1..] == p[1..] + t;
      assert forall k :: 0 <= k < |p[1..]| ==> p[1..][k] == p[k + 1];
      SplitPrefixFree(p[1..], t, c);
      assert [p[0]] + (p[1..] + SplitChar(t, c)[0]) == p + SplitChar(t, c)[0];
    }
  }

  /** A separator-free head followed by the separator becomes a piece of its own. */
  lemma SplitAtSeparator(p: string, t: string, c: char)
    requires c !in p
    ensures SplitChar(p + [c] + t, c) == [p] + SplitChar(t, c)
  {
    SplitPrefixFree(p, [c] + t, c);
    assert p + [c] + t == p + ([c] + t);
    assert ([c] + t)[1..] == t;
    assert SplitChar([c] + t, c) == [""] + SplitChar(t, c);
    assert p + "" == p;
  }

  /**
   * The list that `join(', ')` produces, split at its commas, gives back the
   * elements, every one after the first with the single space of the
   * separator in front: one comma between neighbours and none at either end.
   */
  lemma {:induction false} JoinCommaSplit(xs: seq<string>)
    requires |xs| >= 1
    requires forall i :: 0 <= i < |xs| ==> ',' !in xs[i]
    ensures |SplitChar(Join(xs, ", "), ',')| == |xs|
    ensures SplitChar(Join(xs, ", "), ',')[0] == xs[0]
    ensures forall i :: 0 < i < |xs| ==> SplitChar(Join(xs, ", "), ',')[i] == " " + xs[i]
  {
    if |xs| == 1 {
      SplitFree(xs[0], ',');
    } else {
      var tail := Join(xs[1..], ", ");
      JoinCommaSplit(xs[1..]);
      var st := SplitChar(tail, ',');
      assert Join(xs, ", ") == xs[0] + [','] + (" " + tail);
      SplitAtSeparator(xs[0], " " + tail, ',');
      SplitPrefixFree(" ", tail, ',');
      var whole := SplitChar(Join(xs, ", "), ',');
      assert whole == [xs[0]] + ([" " + st[0]] + st[1..]);
      forall i | 0 < i < |xs|
        ensures whole[i] == " " + xs[i]
      {
        if i > 1 {
          assert whole[i] == st[i - 1];
          assert xs[1..][i - 1] == xs[i];
        }
      }
    }
  }

  /** The last comma of `p + ", "` is the one just appended, so the cut restores `p`. */
  lemma CutTrailingSeparator(p: string)
    ensures CutAtLastComma(p + ", ") == p
  {
    var s := p + ", ";
    LastIndexOfIsLast(s, ',');
    assert s[|p|] == ',' && s[|p| + 1] == ' ';
    assert s[..|p|] == p;
  }

  /** Reading back the digits of a rendered number gives the number. */
  lemma {:induction false} DecimalRoundTrip(n: nat)
    ensures ParseDecimal(NatToDecimal(n)) == n
  {
    if n < 10 {
      assert NatToDecimal(n)[..0] == "";
    } else {
      var s := NatToDecimal(n);
      assert s[..|s| - 1] == NatToDecimal(n / 10);
      DecimalRoundTrip(n / 10);
    }
  }

  /** Distinct numbers render as distinct digit strings. */
  lemma DecimalInjective(a: nat, b: nat)
    requires NatToDecimal(a) == NatToDecimal(b)
    ensures a == b
  {
    DecimalRoundTrip(a);
    DecimalRoundTrip(b);
  }
}
