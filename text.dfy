// Text primitives of projekt.py's output: Python's fixed-width format
// specifications (`{v:^w}` and `{v:<w}`), string repetition (`n * "-"`)
// and the decimal rendering of a non-negative Python `int`.

module Text {

  /** `n * [c]`: the character `c` repeated `n` times (Python's `n * "c"`). */
  function Repeat(c: char, n: nat): (r: string)
    ensures |r| == n
    ensures forall i :: 0 <= i < n ==> r[i] == c
  {
    if n == 0 then "" else Repeat(c, n - 1) + [c]
  }

  function Spaces(n: nat): (r: string)
    ensures |r| == n
    ensures forall i :: 0 <= i < n ==> r[i] == ' '
  {
    Repeat(' ', n)
  }

  /** Width of the padding Python puts on the left of a centred field. */
  function LeftPad(len: nat, w: nat): nat
  {
    if len >= w then 0 else (w - len) / 2
  }

  /**
   * `f"{s:^w}"`: `s` centred in a field of width `w`. The left padding is
   * half of the missing width rounded down, the right padding the rest;
   * a value at least as wide as the field is written out whole.
   */
  function Center(s: string, w: nat): (r: string)
    ensures |r| == if |s| >= w then |s| else w
  {
    if |s| >= w then s
    else
      var left := (w - |s|) / 2;
      Spaces(left) + s + Spaces(w - |s| - left)
  }

  /**
   * Where `f"{s:^w}"` puts `s`: after `LeftPad` spaces, followed only by
   * spaces, with the right padding equal to the left one or one wider.
   */
  lemma CenterLayout(s: string, w: nat)
    ensures Center(s, w)[LeftPad(|s|, w)..LeftPad(|s|, w) + |s|] == s
    ensures forall i :: 0 <= i < LeftPad(|s|, w) ==> Center(s, w)[i] == ' '
    ensures forall i :: LeftPad(|s|, w) + |s| <= i < |Center(s, w)| ==> Center(s, w)[i] == ' '
    ensures |Center(s, w)| - |s| - 2 * LeftPad(|s|, w) in {0, 1}
  {
    if |s| < w {
      var left := (w - |s|) / 2;
      var r := Center(s, w);
      assert r == Spaces(left) + s + Spaces(w - |s| - left);
      assert r[left..left + |s|] == s;
    }
  }

  /**
   * `f"{s:<w}"`: `s` left-aligned in a field of width `w`, padded with
   * spaces on the right; never truncated.
   */
  function LeftAlign(s: string, w: nat): (r: string)
    ensures |r| == if |s| >= w then |s| else w
    ensures r[..|s|] == s
    ensures forall i :: |s| <= i < |r| ==> r[i] == ' '
  {
    if |s| >= w then s else s + Spaces(w - |s|)
  }

  /** `s.lstrip(' ')`, used to read a field back. */
  function TrimLeft(s: string): (r: string)
    ensures r == "" || r[0] != ' '
  {
    if |s| > 0 && s[0] == ' ' then TrimLeft(s[1..]) else s
  }

  /** `s.rstrip(' ')`. */
  function TrimRight(s: string): (r: string)
    ensures r == "" || r[|r| - 1] != ' '
  {
    if |s| > 0 && s[|s| - 1] == ' ' then TrimRight(s[..|s| - 1]) else s
  }

  /** A value that neither starts nor ends with a space. */
  predicate Unpadded(s: string)
  {
    s == "" || (s[0] != ' ' && s[|s| - 1] != ' ')
  }

  lemma {:induction false} TrimLeftSpaces(n: nat, u: string)
    requires u == "" || u[0] != ' '
    ensures TrimLeft(Spaces(n) + u) == u
  {
    if n > 0 {
      assert (Spaces(n) + u)[1..] == Spaces(n - 1) + u;
      TrimLeftSpaces(n - 1, u);
    } else {
      assert Spaces(n) + u == u;
    }
  }

  lemma {:induction false} TrimRightSpaces(u: string, n: nat)
    requires u == "" || u[|u| - 1] != ' '
    ensures TrimRight(u + Spaces(n)) == u
  {
    if n > 0 {
      assert (u + Spaces(n))[..|u| + n - 1] == u + Spaces(n - 1);
      TrimRightSpaces(u, n - 1);
    } else {
      assert u + Spaces(n) == u;
    }
  }

  lemma CenterPadded(s: string, w: nat)
    requires s != "" && Unpadded(s) && |s| < w
    ensures TrimRight(TrimLeft(Center(s, w))) == s
  {
    var left := (w - |s|) / 2;
    var right := w - |s| - left;
    var tail := s + Spaces(right);
    assert Center(s, w) == Spaces(left) + tail;
    assert tail[0] == s[0];
    TrimLeftSpaces(left, tail);
    TrimRightSpaces(s, right);
  }

  lemma CenterBlank(w: nat)
    ensures TrimLeft(Center("", w)) == ""
  {
    if w > 0 {
      assert Center("", w) == Spaces(w) + "";
      TrimLeftSpaces(w, "");
    }
  }

  /** Reading a centred field back: stripping the padding gives the value. */
  lemma CenterRoundTrip(s: string, w: nat)
    requires Unpadded(s)
    ensures TrimRight(TrimLeft(Center(s, w))) == s
  {
    if |s| < w {
      if s == "" {
        CenterBlank(w);
      } else {
        CenterPadded(s, w);
      }
    }
  }

  /** Reading a left-aligned field back: only a trailing space would be lost. */
  lemma LeftAlignRoundTrip(s: string, w: nat)
    requires s == "" || s[|s| - 1] != ' '
    ensures TrimRight(LeftAlign(s, w)) == s
  {
    if |s| < w {
      TrimRightSpaces(s, w - |s|);
    }
  }

  // ---- decimal rendering of a non-negative int (`str(n)`, `f"{n}"`) ----

  function DigitChar(d: nat): (c: char)
    requires d < 10
    ensures '0' <= c <= '9'
  {
    "0123456789"[d]
  }

  function DigitValue(c: char): nat
  {
    if '0' <= c <= '9' then (c - '0') as nat else 0
  }

  predicate IsDigits(s: string)
  {
    forall i :: 0 <= i < |s| ==> '0' <= s[i] <= '9'
  }

  /** `str(n)` for a Python int `n >= 0`: most significant digit first. */
  function NatToString(n: nat): (r: string)
    ensures |r| >= 1 && IsDigits(r)
    ensures |r| > 1 ==> r[0] != '0'
  {
    if n < 10 then [DigitChar(n)]
    else NatToString(n / 10) + [DigitChar(n % 10)]
  }

  /** `int(s)` for a string of decimal digits. */
  function ParseNat(s: string): nat
  {
    if s == [] then 0 else 10 * ParseNat(s[..|s| - 1]) + DigitValue(s[|s| - 1])
  }

  lemma DigitRoundTrip(d: nat)
    requires d < 10
    ensures DigitValue(DigitChar(d)) == d
  {
  }

  lemma {:induction false} NatToStringRoundTrip(n: nat)
    ensures ParseNat(NatToString(n)) == n
  {
    DigitRoundTrip(n % 10);
    if n >= 10 {
      var s := NatToString(n);
      assert s[..|s| - 1] == NatToString(n / 10);
      NatToStringRoundTrip(n / 10);
    } else {
      assert NatToString(n)[..0] == [];
    }
  }

  function Pow10(k: nat): (r: nat)
    ensures r >= 1
  {
    if k == 0 then 1 else 10 * Pow10(k - 1)
  }

  /** `str(n)` has at most `k` digits exactly when `n < 10^k`. */
  lemma {:induction false} DigitCount(n: nat, k: nat)
    requires k >= 1
    ensures |NatToString(n)| <= k <==> n < Pow10(k)
  {
    if n >= 10 {
      if k == 1 {
        assert |NatToString(n / 10)| >= 1;
      } else {
        DigitCount(n / 10, k - 1);
      }
    } else {
      assert Pow10(k) >= 10 by { if k > 1 { assert Pow10(k - 1) >= 1; } }
    }
  }
}
