/** Numbers and white space in lines of text. */
module TextLines {

  function Digit(d: nat): char
    requires d < 10
  {
    "0123456789"[d]
  }

  predicate IsDigit(c: char) {
    '0' <= c <= '9'
  }

  function Decimal(n: nat): (s: string)
    ensures s != "" && forall c :: c in s ==> IsDigit(c)
  {
    if n < 10 then [Digit(n)] else Decimal(n / 10) + [Digit(n % 10)]
  }

  lemma {:induction false} DecimalInjective(m: nat, n: nat)
    requires Decimal(m) == Decimal(n)
    ensures m == n
  {
    var s, t := Decimal(m), Decimal(n);
    assert s[|s| - 1] == Digit(m % 10) && t[|t| - 1] == Digit(n % 10);
    DigitInjective(m % 10, n % 10);
    if m >= 10 && n >= 10 {
      assert s[..|s| - 1] == Decimal(m / 10) && t[..|t| - 1] == Decimal(n / 10);
      DecimalInjective(m / 10, n / 10);
    }
  }

  lemma DigitInjective(d: nat, e: nat)
    requires d < 10 && e < 10 && Digit(d) == Digit(e)
    ensures d == e
  {
  }

  /** The value of a text of digits, from the left. */
  ghost function ValueOf(s: string): int {
    if s == "" then 0 else 10 * ValueOf(s[..|s| - 1]) + (s[|s| - 1] as int - '0' as int)
  }

  /** Digits only, no leading zero, and the value is the number. */
  ghost predicate IsDecimal(s: string, n: nat) {
    s != "" && (forall c :: c in s ==> '0' <= c <= '9') && (s[0] == '0' ==> n == 0) && ValueOf(s) == n
  }

  lemma {:induction false} DecimalReads(n: nat)
    ensures IsDecimal(Decimal(n), n)
  {
    var s := Decimal(n);
    if n >= 10 {
      DecimalReads(n / 10);
      assert s[..|s| - 1] == Decimal(n / 10);
    } else {
      assert s[..0] == "";
    }
    DigitReads(n % 10);
  }

  lemma DigitReads(d: nat)
    requires d < 10
    ensures Digit(d) as int - '0' as int == d
  {
  }

  function Digits(s: string): nat {
    if s == "" || !IsDigit(s[0]) then 0 else 1 + Digits(s[1..])
  }

  lemma {:induction false} DigitsOf(a: string, x: string)
    requires (forall c :: c in a ==> IsDigit(c)) && (x == "" || !IsDigit(x[0]))
    ensures Digits(a + x) == |a|
  {
    if a == "" {
      assert a + x == x;
    } else {
      assert (a + x)[1..] == a[1..] + x;
      DigitsOf(a[1..], x);
    }
  }

  /** Digits up to the first other character can be read back. */
  lemma DigitsEnd(a: string, b: string, x: string, y: string)
    requires a + x == b + y && (x == "" || !IsDigit(x[0])) && (y == "" || !IsDigit(y[0]))
    requires (forall c :: c in a ==> IsDigit(c)) && (forall c :: c in b ==> IsDigit(c))
    ensures a == b && x == y
  {
    var s := a + x;
    DigitsOf(a, x);
    DigitsOf(b, y);
    assert a == s[..|a|] && b == s[..|b|] && x == s[|a|..] && y == s[|b|..];
  }

  lemma SameTail(head: string, x: string, y: string)
    requires head + x == head + y
    ensures x == y
  {
    assert (head + x)[|head|..] == x && (head + y)[|head|..] == y;
  }

  // ----- White space -----

  function StripLeft(s: string, space: char -> bool): string {
    if s != "" && space(s[0]) then StripLeft(s[1..], space) else s
  }

  function StripRight(s: string, space: char -> bool): string {
    if s != "" && space(s[|s| - 1]) then StripRight(s[..|s| - 1], space) else s
  }

  function Strip(s: string, space: char -> bool): string {
    StripRight(StripLeft(s, space), space)
  }

  lemma {:induction false} StripRightKeeps(s: string, space: char -> bool)
    ensures var r := StripRight(s, space);
      && r <= s && (s != "" && !space(s[0]) ==> r != "")
      && (r != "" ==> !space(r[|r| - 1]) && r[0] == s[0])
  {
    if s != "" && space(s[|s| - 1]) { StripRightKeeps(s[..|s| - 1], space); }
  }

  lemma {:induction false} StripLeftStops(s: string, space: char -> bool)
    ensures var r := StripLeft(s, space); r != "" ==> !space(r[0])
  {
    if s != "" && space(s[0]) { StripLeftStops(s[1..], space); }
  }

  ghost predicate AllSpace(s: string, space: char -> bool) {
    forall c :: c in s ==> space(c)
  }

  lemma {:induction false} StripLeftCuts(s: string, space: char -> bool)
    ensures exists pre :: s == pre + StripLeft(s, space) && AllSpace(pre, space)
  {
    if s != "" && space(s[0]) {
      StripLeftCuts(s[1..], space);
      var pre :| s[1..] == pre + StripLeft(s[1..], space) && AllSpace(pre, space);
      assert s == ([s[0]] + pre) + StripLeft(s, space);
    } else {
      assert s == "" + StripLeft(s, space);
    }
  }

  lemma {:induction false} StripRightCuts(s: string, space: char -> bool)
    ensures exists post :: s == StripRight(s, space) + post && AllSpace(post, space)
  {
    if s != "" && space(s[|s| - 1]) {
      var init, last := s[..|s| - 1], s[|s| - 1];
      StripRightCuts(init, space);
      var post :| init == StripRight(init, space) + post && AllSpace(post, space);
      assert s == StripRight(s, space) + (post + [last]);
    } else {
      assert s == StripRight(s, space) + "";
    }
  }

  /** White space goes from both ends, all of it and nothing else. */
  lemma StripIsExact(s: string, space: char -> bool)
    ensures var r := Strip(s, space);
      && (exists pre, post :: s == pre + r + post && AllSpace(pre, space) && AllSpace(post, space))
      && (r != "" ==> !space(r[0]) && !space(r[|r| - 1]))
      && (r == "" <==> AllSpace(s, space))
  {
    var l, r := StripLeft(s, space), Strip(s, space);
    StripLeftStops(s, space);
    StripRightKeeps(l, space);
    StripLeftCuts(s, space);
    StripRightCuts(l, space);
    var pre :| s == pre + l && AllSpace(pre, space);
    var post :| l == r + post && AllSpace(post, space);
    assert s == pre + r + post;
    if r != "" { assert r[0] in s; }
  }

  /** A text that starts and ends with something visible is stripped. */
  lemma Stable(s: string, space: char -> bool)
    requires s == "" || (!space(s[0]) && !space(s[|s| - 1]))
    ensures Strip(s, space) == s
  {
  }

  lemma StripTwice(s: string, space: char -> bool)
    ensures Strip(Strip(s, space), space) == Strip(s, space)
  {
    StripLeftStops(s, space);
    StripRightKeeps(StripLeft(s, space), space);
    Stable(Strip(s, space), space);
  }
}
