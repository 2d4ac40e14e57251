/** Text helpers shared by the classifier, the speech command and the file
    names: ASCII lower-casing, substring search and decimal rendering. */
module Text {

  /** `str.lower` restricted to ASCII: upper-case Latin letters map to their
      lower-case forms, every other character is left alone. */
  function LowerChar(c: char): char
  {
    if 'A' <= c <= 'Z' then (c as int - 'A' as int + 'a' as int) as char else c
  }

  function Lower(s: string): (r: string)
    ensures |r| == |s|
    ensures forall i :: 0 <= i < |s| ==> r[i] == LowerChar(s[i])
  {
    seq(|s|, i requires 0 <= i < |s| => LowerChar(s[i]))
  }

  lemma LowerAppend(a: string, b: string)
    ensures Lower(a + b) == Lower(a) + Lower(b)
  {
  }

  /** A string with no upper-case ASCII letter is its own lower-case form. */
  lemma LowerOfLower(s: string)
    requires forall i :: 0 <= i < |s| ==> !('A' <= s[i] <= 'Z')
    ensures Lower(s) == s
  {
  }

  /** `sub` starts at position `i` of `s`. */
  predicate IsAt(sub: string, s: string, i: nat)
  {
    i + |sub| <= |s| && s[i..i + |sub|] == sub
  }

  /** The declarative meaning of Python's `sub in s`. */
  ghost predicate Occurs(sub: string, s: string)
  {
    exists i: nat :: IsAt(sub, s, i)
  }

  /** The search itself: try every start position from the left. */
  function Contains(s: string, sub: string): (r: bool)
    ensures r <==> Occurs(sub, s)
    decreases |s|
  {
    if |s| < |sub| then
      assert forall i: nat :: !IsAt(sub, s, i);
      false
    else if s[..|sub|] == sub then
      assert IsAt(sub, s, 0);
      true
    else
      var rest := Contains(s[1..], sub);
      assert rest ==> Occurs(sub, s) by {
        if rest {
          var i: nat :| IsAt(sub, s[1..], i);
          assert s[i + 1..i + 1 + |sub|] == s[1..][i..i + |sub|];
          assert IsAt(sub, s, i + 1);
        }
      }
      assert Occurs(sub, s) ==> rest by {
        if Occurs(sub, s) {
          var i: nat :| IsAt(sub, s, i);
          assert i != 0;
          assert s[1..][i - 1..i - 1 + |sub|] == s[i..i + |sub|];
          assert IsAt(sub, s[1..], i - 1);
        }
      }
      rest
  }

  /** A keyword embedded in a longer text is found in it. */
  lemma {:induction false} OccursInside(pre: string, sub: string, post: string)
    ensures Occurs(sub, pre + sub + post)
  {
    var s := pre + sub + post;
    assert s[|pre|..|pre| + |sub|] == sub;
    assert IsAt(sub, s, |pre|);
  }

  /** An occurrence inside a piece of a text is an occurrence in the text. */
  lemma {:induction false} OccursWithin(sub: string, mid: string, pre: string, post: string)
    requires Occurs(sub, mid)
    ensures Occurs(sub, pre + mid + post)
  {
    var i: nat :| IsAt(sub, mid, i);
    var s := pre + mid + post;
    assert s[|pre| + i..|pre| + i + |sub|] == mid[i..i + |sub|];
    assert IsAt(sub, s, |pre| + i);
  }

  /** A keyword without capitals, placed anywhere in a text, occurs in the
      lower-cased text. */
  lemma LoweredKeyword(pre: string, kw: string, post: string)
    requires forall i :: 0 <= i < |kw| ==> !('A' <= kw[i] <= 'Z')
    ensures Occurs(kw, Lower(pre + kw + post))
  {
    assert Lower(pre + kw + post) == Lower(pre) + kw + Lower(post) by {
      LowerAppend(pre + kw, post);
      LowerAppend(pre, kw);
      LowerOfLower(kw);
    }
    OccursInside(Lower(pre), kw, Lower(post));
  }

  function DigitChar(d: nat): char
    requires d < 10
  {
    ('0' as int + d) as char
  }

  predicate IsDigitChar(c: char)
  {
    '0' <= c <= '9'
  }

  /** The last `width` decimal digits of `n`, zero-padded on the left
      (strftime's `%02d`-style fields). */
  function Padded(n: nat, width: nat): (r: string)
    ensures |r| == width
    ensures forall i :: 0 <= i < width ==> IsDigitChar(r[i])
  {
    if width == 0 then [] else Padded(n / 10, width - 1) + [DigitChar(n % 10)]
  }

  /** Keeping the first `width` digits of a wider field is the same as padding
      the number with its trailing three digits cut off. */
  lemma {:induction false} PaddedDropThree(n: nat, width: nat)
    ensures Padded(n, width + 3)[..width] == Padded(n / 1000, width)
  {
    calc {
      Padded(n, width + 3);
      Padded(n / 10, width + 2) + [DigitChar(n % 10)];
      Padded(n / 10 / 10, width + 1) + [DigitChar(n / 10 % 10)] + [DigitChar(n % 10)];
      Padded(n / 10 / 10 / 10, width) + [DigitChar(n / 10 / 10 % 10)]
        + [DigitChar(n / 10 % 10)] + [DigitChar(n % 10)];
    }
    assert n / 10 / 10 / 10 == n / 1000;
  }

  /** Python's `str(n)` for a natural number. */
  function NatToDecimal(n: nat): (r: string)
    ensures |r| >= 1
    ensures forall i :: 0 <= i < |r| ==> IsDigitChar(r[i])
    ensures n < 10 <==> |r| == 1
  {
    if n < 10 then [DigitChar(n)] else NatToDecimal(n / 10) + [DigitChar(n % 10)]
  }

  /** Python's `str(n)` for any integer: a minus sign before the digits of a
      negative number. */
  function IntToDecimal(n: int): (r: string)
    ensures |r| >= 1
    ensures n < 0 <==> r[0] == '-'
    ensures forall i :: (if n < 0 then 1 else 0) <= i < |r| ==> IsDigitChar(r[i])
  {
    if n < 0 then "-" + NatToDecimal(-n) else NatToDecimal(n)
  }

  /** The digits read back: the decimal value of a string of digit characters. */
  function DecimalValue(s: string): int
    requires forall i :: 0 <= i < |s| ==> IsDigitChar(s[i])
  {
    if s == [] then 0 else DecimalValue(s[..|s| - 1]) * 10 + (s[|s| - 1] as int - '0' as int)
  }

  /** Rendering a number and reading it back gives the number. */
  lemma {:induction false} NatToDecimalRoundTrip(n: nat)
    ensures DecimalValue(NatToDecimal(n)) == n
  {
    var r := NatToDecimal(n);
    if n >= 10 {
      NatToDecimalRoundTrip(n / 10);
      assert r[..|r| - 1] == NatToDecimal(n / 10);
    }
  }
}
