/** The string operations the order form and the client rely on: Python's
    `str.upper`, the substring test `needle in haystack`, and the decimal
    rendering of an integer. */
module Text {

  predicate IsAsciiUpper(c: char) { 'A' <= c <= 'Z' }

  predicate IsAsciiLower(c: char) { 'a' <= c <= 'z' }

  predicate AllAsciiUpper(s: string) {
    forall i :: 0 <= i < |s| ==> IsAsciiUpper(s[i])
  }

  /** Python's `str.upper` of one character, for every character whose
      upper-case form is made of ASCII letters: a-z, the dotless i, the long s,
      the sharp s and the Latin ligatures U+FB00-U+FB06. Every other character
      is returned as it is: no other character upper-cases to a string made
      only of A-Z, so the letter-only tests below decide the same way (see
      README). */
  function UpperChar(c: char): (r: string)
    ensures 1 <= |r| <= 3
  {
    if IsAsciiLower(c) then [(c as int - 32) as char]
    else if c == '\U{131}' then "I"
    else if c == '\U{17F}' then "S"
    else if c == '\U{DF}' then "SS"
    else if c == '\U{FB00}' then "FF"
    else if c == '\U{FB01}' then "FI"
    else if c == '\U{FB02}' then "FL"
    else if c == '\U{FB03}' then "FFI"
    else if c == '\U{FB04}' then "FFL"
    else if c == '\U{FB05}' || c == '\U{FB06}' then "ST"
    else [c]
  }

  /** A character that `str.upper` leaves alone. */
  predicate Uncased(c: char) {
    UpperChar(c) == [c]
  }

  /** Python's `str.upper`, character by character. */
  function Upper(s: string): (r: string)
    ensures |r| >= |s|
    ensures r == [] <==> s == []
  {
    if s == [] then [] else UpperChar(s[0]) + Upper(s[1..])
  }

  lemma {:induction false} UpperAppend(a: string, b: string)
    ensures Upper(a + b) == Upper(a) + Upper(b)
  {
    if a == [] {
      assert a + b == b;
    } else {
      assert (a + b)[1..] == a[1..] + b;
      UpperAppend(a[1..], b);
    }
  }

  /** Every character `str.upper` produces is left alone by a second `str.upper`. */
  lemma UpperCharUncased(c: char)
    ensures forall i :: 0 <= i < |UpperChar(c)| ==> Uncased(UpperChar(c)[i])
  {
  }

  lemma {:induction false} UpperOfUncased(s: string)
    requires forall i :: 0 <= i < |s| ==> Uncased(s[i])
    ensures Upper(s) == s
  {
    if s != [] {
      assert Uncased(s[0]);
      UpperOfUncased(s[1..]);
    }
  }

  /** On a string of ASCII letters `str.upper` keeps the length, turns each
      lower-case letter into its capital and leaves capitals alone. */
  lemma {:induction false} UpperAscii(s: string)
    requires forall i :: 0 <= i < |s| ==> IsAsciiLower(s[i]) || IsAsciiUpper(s[i])
    ensures |Upper(s)| == |s|
    ensures AllAsciiUpper(Upper(s))
    ensures forall i :: 0 <= i < |s| && IsAsciiUpper(s[i]) ==> Upper(s)[i] == s[i]
    ensures forall i :: 0 <= i < |s| && IsAsciiLower(s[i]) ==> Upper(s)[i] as int == s[i] as int - 32
  {
    if s != [] {
      UpperAscii(s[1..]);
      assert Upper(s) == UpperChar(s[0]) + Upper(s[1..]);
      forall i | 1 <= i < |s| ensures Upper(s)[i] == Upper(s[1..])[i - 1] {
      }
    }
  }

  /** `str.upper` is idempotent. */
  lemma {:induction false} UpperIdempotent(s: string)
    ensures Upper(Upper(s)) == Upper(s)
  {
    if s != [] {
      var head := UpperChar(s[0]);
      UpperCharUncased(s[0]);
      UpperOfUncased(head);
      UpperAppend(head, Upper(s[1..]));
      UpperIdempotent(s[1..]);
    }
  }

  /** `t` occurs in `s` starting at index `i`. */
  predicate OccursAt(s: string, t: string, i: int) {
    0 <= i && i + |t| <= |s| && s[i..i + |t|] == t
  }

  /** Python's `t in s` for strings, decided by scanning `s` from the left. */
  predicate Contains(s: string, t: string)
    decreases |s|
  {
    (|t| <= |s| && s[..|t|] == t) || (s != [] && Contains(s[1..], t))
  }

  /** The scan finds `t` exactly when `t` occurs somewhere in `s`. */
  lemma {:induction false} ContainsOccurs(s: string, t: string)
    ensures Contains(s, t) <==> exists i :: OccursAt(s, t, i)
  {
    if |t| <= |s| && s[..|t|] == t {
      assert OccursAt(s, t, 0);
    } else if s == [] {
      assert forall i :: !OccursAt(s, t, i);
    } else {
      ContainsOccurs(s[1..], t);
      if Contains(s[1..], t) {
        var i :| OccursAt(s[1..], t, i);
        assert s[i + 1..i + 1 + |t|] == s[1..][i..i + |t|];
        assert OccursAt(s, t, i + 1);
      } else {
        forall i | 1 <= i ensures OccursAt(s, t, i) ==> OccursAt(s[1..], t, i - 1) {
          if i + |t| <= |s| {
            assert s[1..][i - 1..i - 1 + |t|] == s[i..i + |t|];
          }
        }
      }
    }
  }

  /** What `b` contains, any string followed by `b` contains too. */
  lemma ContainsAfter(a: string, b: string, t: string)
    requires Contains(b, t)
    ensures Contains(a + b, t)
  {
    ContainsOccurs(b, t);
    var i :| OccursAt(b, t, i);
    assert (a + b)[|a| + i..|a| + i + |t|] == b[i..i + |t|];
    assert OccursAt(a + b, t, |a| + i);
    ContainsOccurs(a + b, t);
  }

  /** When no occurrence of `t` can start inside `p` (each character of `p`
      that equals `t`'s first is followed, within `p`, by one other than
      `t`'s second), `p + m` contains `t` exactly when `m` does. */
  lemma ContainsPastPrefix(p: string, m: string, t: string)
    requires |t| >= 2
    requires forall i :: 0 <= i < |p| ==> p[i] != t[0] || (i + 1 < |p| && p[i + 1] != t[1])
    ensures Contains(p + m, t) <==> Contains(m, t)
  {
    if Contains(m, t) {
      ContainsAfter(p, m, t);
    }
    if Contains(p + m, t) {
      ContainsOccurs(p + m, t);
      var i :| OccursAt(p + m, t, i);
      assert (p + m)[i..i + |t|][0] == (p + m)[i] && (p + m)[i..i + |t|][1] == (p + m)[i + 1];
      if i < |p| {
        assert false;
      }
      assert m[i - |p|..i - |p| + |t|] == (p + m)[i..i + |t|];
      assert OccursAt(m, t, i - |p|);
      ContainsOccurs(m, t);
    }
  }

  predicate IsDigit(c: char) { '0' <= c <= '9' }

  /** Decimal digits of a natural number, most significant first. */
  function Digits(n: nat): (r: string)
    ensures r != []
    ensures forall i :: 0 <= i < |r| ==> IsDigit(r[i])
  {
    var d := [('0' as int + n % 10) as char];
    if n < 10 then d else Digits(n / 10) + d
  }

  /** Python's `str(n)` for an integer. */
  function DecimalString(n: int): (r: string)
    ensures r != []
    ensures forall i :: 0 <= i < |r| ==> IsDigit(r[i]) || (i == 0 && r[i] == '-')
  {
    if n < 0 then "-" + Digits(-n) else Digits(n)
  }
}
