/** Values shared by every part of the model: optional values and Python's truthiness of text. */
module Basics {
  datatype Option<+T> = None | Some(value: T)

  // A nullable text column or attribute.
  type Text = Option<string>

  // `if text:` -- both the missing value and the empty string are false.
  predicate Truthy(t: Text) {
    t.Some? && t.value != ""
  }

  // `a or b`
  function Or(a: Text, b: Text): Text {
    if Truthy(a) then a else b
  }

  function Max(a: int, b: int): int {
    if a < b then b else a
  }

  const DIGITS: string := "0123456789"

  function Decimal(n: nat): string {
    if n < 10 then [DIGITS[n]] else Decimal(n / 10) + [DIGITS[n % 10]]
  }

  // The number that a string of digits denotes.
  function Denoted(s: string): int {
    if s == "" then 0 else 10 * Denoted(s[..|s| - 1]) + (s[|s| - 1] as int - '0' as int)
  }

  /** A number is written in digits, with no zero before it. */
  lemma {:induction false} DecimalMeaning(n: nat)
    ensures Denoted(Decimal(n)) == n
    ensures |Decimal(n)| > 0 && forall i :: 0 <= i < |Decimal(n)| ==> '0' <= Decimal(n)[i] <= '9'
    ensures Decimal(n)[0] == '0' ==> n == 0
  {
    DigitMeaning(n % 10);
    if n >= 10 {
      DecimalMeaning(n / 10);
    }
  }

  lemma DigitMeaning(n: nat)
    requires n < 10
    ensures DIGITS[n] as int == '0' as int + n
  {
    assert n in {0, 1, 2, 3, 4, 5, 6, 7, 8, 9};
  }

  /** The elements that satisfy `keep`, in order. */
  function Filter<T>(s: seq<T>, keep: T -> bool): seq<T> {
    if s == [] then []
    else Filter(s[..|s| - 1], keep) + (if keep(s[|s| - 1]) then [s[|s| - 1]] else [])
  }

  lemma {:induction false} FilterMembers<T>(s: seq<T>, keep: T -> bool, x: T)
    ensures x in Filter(s, keep) <==> x in s && keep(x)
  {
    if s != [] {
      FilterMembers(s[..|s| - 1], keep, x);
    }
  }

  lemma {:induction false} FilterConcat<T>(a: seq<T>, b: seq<T>, keep: T -> bool)
    ensures Filter(a + b, keep) == Filter(a, keep) + Filter(b, keep)
  {
    if b == [] {
      assert a + b == a;
    } else {
      assert (a + b)[..|a + b| - 1] == a + b[..|b| - 1];
      FilterConcat(a, b[..|b| - 1], keep);
    }
  }

  lemma {:induction false} FilterSame<T>(s: seq<T>, p: T -> bool, q: T -> bool)
    requires forall i :: 0 <= i < |s| ==> p(s[i]) == q(s[i])
    ensures Filter(s, p) == Filter(s, q)
  {
    if s != [] {
      FilterSame(s[..|s| - 1], p, q);
    }
  }
}
