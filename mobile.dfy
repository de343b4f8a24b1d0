/**
 * The mobile-number field. On every input event the page keeps only the
 * digits of what was typed, and at most ten of them; before a lookup both the
 * page and the endpoint accept a value only if it is exactly ten ASCII digits.
 */
module MobileInput {

  /** How many digits a mobile number has, and how many the field keeps. */
  const MobileLength: nat := 10

  /** `[0-9]`, which is also what `\d` matches in a JavaScript regular expression. */
  predicate IsDigit(c: char)
  {
    '0' <= c <= '9'
  }

  predicate AllDigits(s: string)
  {
    forall i :: 0 <= i < |s| ==> IsDigit(s[i])
  }

  /** `value.replace(/[^0-9]/g, '')`: every non-digit removed. */
  function Digits(s: string): (r: string)
    ensures |r| <= |s|
    ensures AllDigits(r)
  {
    if s == [] then []
    else if IsDigit(s[0]) then [s[0]] + Digits(s[1..])
    else Digits(s[1..])
  }

  /** How many digits s holds, counted independently of Digits. */
  function DigitCount(s: string): (n: nat)
    ensures n <= |s|
  {
    if s == [] then 0
    else (if IsDigit(s[0]) then 1 else 0) + DigitCount(s[1..])
  }

  /** The positions of the digits of s, ascending: exactly the indices i with
      IsDigit(s[i]). */
  function DigitPositions(s: string): (p: seq<nat>)
    ensures forall k :: 0 <= k < |p| ==> p[k] < |s| && IsDigit(s[p[k]])
    ensures forall k, l :: 0 <= k < l < |p| ==> p[k] < p[l]
    ensures forall i :: 0 <= i < |s| && IsDigit(s[i]) ==> i in p
  {
    if s == [] then []
    else
      var n := |s| - 1;
      var front := DigitPositions(s[..n]);
      assert forall k :: 0 <= k < |front| ==> s[front[k]] == s[..n][front[k]];
      assert forall i :: 0 <= i < n ==> s[i] == s[..n][i];
      front + (if IsDigit(s[n]) then [n] else [])
  }

  /** Digits(s) is s read at DigitPositions(s): the filter keeps every digit,
      in its original order, and nothing else. */
  lemma {:induction false} DigitsAtPositions(s: string)
    ensures |DigitPositions(s)| == |Digits(s)| == DigitCount(s)
    ensures forall k :: 0 <= k < |Digits(s)| ==> Digits(s)[k] == s[DigitPositions(s)[k]]
  {
    if s != [] {
      var n := |s| - 1;
      var last := s[n..];
      assert s == s[..n] + last;
      DigitsAtPositions(s[..n]);
      DigitsAppend(s[..n], last);
      DigitCountAppend(s[..n], last);
      assert last[1..] == [];
      assert forall k :: 0 <= k < |DigitPositions(s[..n])| ==>
        s[DigitPositions(s[..n])[k]] == s[..n][DigitPositions(s[..n])[k]];
    }
  }

  /** The input handler at public/script.js:22-30: strip the non-digits, then
      keep the first ten if more remain. */
  function Sanitise(s: string): (r: string)
    ensures |r| <= MobileLength
    ensures AllDigits(r)
  {
    var d := Digits(s);
    if |d| > MobileLength then d[..MobileLength] else d
  }

  /** `/^\d{10}$/.test(mobile)`: `$` without the `m` flag anchors at the very
      end of the string, so nothing may follow the tenth digit. */
  predicate IsValidMobile(s: string): (valid: bool)
    ensures valid <==> |s| == MobileLength && DigitCount(s) == MobileLength
  {
    AllDigitsIffCount(s);
    |s| == MobileLength && AllDigits(s)
  }

  /** A string is all digits exactly when its digit count is its length. */
  lemma {:induction false} AllDigitsIffCount(s: string)
    ensures AllDigits(s) <==> DigitCount(s) == |s|
  {
    if s != [] {
      AllDigitsIffCount(s[1..]);
      assert forall i :: 0 < i < |s| ==> s[i] == s[1..][i - 1];
      if AllDigits(s) {
        assert AllDigits(s[1..]) by {
          forall i | 0 <= i < |s[1..]| ensures IsDigit(s[1..][i]) {
            assert s[1..][i] == s[i + 1];
          }
        }
      }
    }
  }

  function Min(a: nat, b: nat): nat
  {
    if a <= b then a else b
  }

  /** Sanitising keeps the first min(10, k) digits of s, where k is the number
      of digits in s, read at their positions in s and so in their original order. */
  lemma SanitiseKeepsLeadingDigits(s: string)
    ensures |DigitPositions(s)| == DigitCount(s)
    ensures |Sanitise(s)| == Min(MobileLength, DigitCount(s))
    ensures forall k :: 0 <= k < |Sanitise(s)| ==> Sanitise(s)[k] == s[DigitPositions(s)[k]]
  {
    DigitsAtPositions(s);
  }

  /** Removing the non-digits of a concatenation removes them part by part. */
  lemma {:induction false} DigitsAppend(a: string, b: string)
    ensures Digits(a + b) == Digits(a) + Digits(b)
  {
    if a == [] {
      assert a + b == b;
    } else {
      assert (a + b)[0] == a[0];
      assert (a + b)[1..] == a[1..] + b;
      DigitsAppend(a[1..], b);
    }
  }

  /** DigitCount adds up over a concatenation. */
  lemma {:induction false} DigitCountAppend(a: string, b: string)
    ensures DigitCount(a + b) == DigitCount(a) + DigitCount(b)
  {
    if a == [] {
      assert a + b == b;
    } else {
      assert (a + b)[0] == a[0];
      assert (a + b)[1..] == a[1..] + b;
      DigitCountAppend(a[1..], b);
    }
  }

  /** A string of digits only passes through the filter unchanged. */
  lemma {:induction false} DigitsOfDigits(s: string)
    requires AllDigits(s)
    ensures Digits(s) == s
  {
    if s != [] {
      assert AllDigits(s[1..]) by {
        forall i | 0 <= i < |s[1..]| ensures IsDigit(s[1..][i]) {
          assert s[1..][i] == s[i + 1];
        }
      }
      DigitsOfDigits(s[1..]);
      assert s == [s[0]] + s[1..];
    }
  }

  /** Filtering twice is filtering once: a second input event on an already
      filtered value changes nothing. */
  lemma SanitiseIdempotent(s: string)
    ensures Sanitise(Sanitise(s)) == Sanitise(s)
  {
    DigitsOfDigits(Sanitise(s));
  }

  /** The filter runs continuously: filtering what the field already holds plus
      newly typed text t gives the same value as filtering everything typed at
      once. */
  lemma SanitiseIncremental(s: string, t: string)
    ensures Sanitise(Sanitise(s) + t) == Sanitise(s + t)
  {
    var d := Sanitise(s);
    DigitsAppend(d, t);
    DigitsAppend(s, t);
    DigitsOfDigits(d);
    var ds := Digits(s);
    if |ds| > MobileLength {
      assert (d + Digits(t))[..MobileLength] == d;
      assert (ds + Digits(t))[..MobileLength] == ds[..MobileLength];
    }
  }

  /** The validator accepts exactly the ten-character strings the filter
      leaves alone. */
  lemma ValidIffFullAndFiltered(s: string)
    ensures IsValidMobile(s) <==> |s| == MobileLength && Sanitise(s) == s
  {
    if IsValidMobile(s) {
      DigitsOfDigits(s);
    }
  }

  /** What the filter leaves in the field passes the submit-time check exactly
      when at least ten digits were typed. */
  lemma SanitisedValidIff(s: string)
    ensures IsValidMobile(Sanitise(s)) <==> DigitCount(s) >= MobileLength
  {
    SanitiseKeepsLeadingDigits(s);
  }
}
