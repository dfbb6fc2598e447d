// Vocabulary shared by every component of the model.

module Wrappers {
  datatype Option<+T> = None | Some(value: T)
}

// Decimal numerals, as `to_string` and template literals print them and as
// Rust's `u32::from_str` reads them.
module Decimal {
  import opened Wrappers

  function Digit(d: nat): (c: char)
    requires d < 10
    ensures IsDigit(c) && DigitValue(c) == d
  {
    '0' + d as char
  }

  predicate IsDigit(c: char) {
    '0' <= c <= '9'
  }

  function DigitValue(c: char): nat
    requires IsDigit(c)
  {
    (c as int) - ('0' as int)
  }

  function Print(n: nat): (s: string)
    ensures s != [] && forall i | 0 <= i < |s| :: IsDigit(s[i])
  {
    if n < 10 then [Digit(n)] else Print(n / 10) + [Digit(n % 10)]
  }

  // The number a run of digits spells; the empty run spells nothing.
  function Read(s: string): Option<nat> {
    if s == [] || !IsDigit(s[|s| - 1]) then None
    else if |s| == 1 then Some(DigitValue(s[0]))
    else match Read(s[..|s| - 1])
      case None => None
      case Some(n) => Some(10 * n + DigitValue(s[|s| - 1]))
  }

  lemma {:induction false} ReadPrinted(n: nat)
    ensures Read(Print(n)) == Some(n)
  {
    if n >= 10 {
      ReadPrinted(n / 10);
      assert Print(n)[..|Print(n)| - 1] == Print(n / 10);
    }
  }

  function Zeros(k: nat): string {
    seq(k, i => '0')
  }

  // Zeros in front do not count.
  lemma {:induction false} ReadPadded(k: nat, n: nat)
    ensures Read(Zeros(k) + Print(n)) == Some(n)
  {
    var s := Zeros(k) + Print(n);
    if n < 10 {
      ReadDigitAfterZeros(k, n);
    } else {
      ReadPadded(k, n / 10);
      assert s[..|s| - 1] == Zeros(k) + Print(n / 10) && s[|s| - 1] == Digit(n % 10);
    }
  }

  lemma {:induction false} ReadDigitAfterZeros(k: nat, n: nat)
    requires n < 10
    ensures Read(Zeros(k) + Print(n)) == Some(n)
  {
    var s := Zeros(k) + Print(n);
    if k == 0 {
      assert s == Print(n);
    } else {
      ZerosEndInZero(k);
      ReadDigitAfterZeros(k - 1, 0);
      assert s[..|s| - 1] == Zeros(k - 1) + Print(0) && s[|s| - 1] == Digit(n);
    }
  }

  lemma {:induction false} ZerosEndInZero(k: nat)
    requires k > 0
    ensures Zeros(k) == Zeros(k - 1) + ['0'] && Print(0) == ['0']
  {
    if k > 1 {
      ZerosEndInZero(k - 1);
    }
  }

  // A run of digits is read as the number it is printed as, but for zeros in front,
  // and nothing else is read.
  lemma {:induction false} ReadIs(s: string, n: nat)
    ensures Read(s) == Some(n) <==> exists k: nat :: s == Zeros(k) + Print(n)
  {
    if k: nat :| s == Zeros(k) + Print(n) {
      ReadPadded(k, n);
    }
    if Read(s) == Some(n) {
      var k := ReadFrom(s, n);
    }
  }

  lemma {:induction false} ReadFrom(s: string, n: nat) returns (k: nat)
    requires Read(s) == Some(n)
    ensures s == Zeros(k) + Print(n)
  {
    if |s| == 1 {
      k := 0;
      assert s == Print(n);
    } else {
      var m, d := Read(s[..|s| - 1]).value, DigitValue(s[|s| - 1]);
      k := ReadFrom(s[..|s| - 1], m);
      assert s == s[..|s| - 1] + [Digit(d)] && n / 10 == m && n % 10 == d;
      if m == 0 {
        k := k + 1;
        ZerosEndInZero(k);
        assert s == Zeros(k) + Print(n);
      } else {
        assert Print(n) == Print(m) + [Digit(d)];
      }
    }
  }

  lemma PrintInjective(m: nat, n: nat)
    requires Print(m) == Print(n)
    ensures m == n
  {
    ReadPrinted(m);
    ReadPrinted(n);
  }
}

// Sequences seen as a front and a last element.
module Sequences {
  lemma Reassociated<T>(a: seq<T>, b: seq<T>, c: seq<T>)
    ensures (a + b) + c == a + (b + c)
  {
  }

  lemma FrontAndLast<T>(s: seq<T>)
    requires s != []
    ensures s == s[..|s| - 1] + [s[|s| - 1]]
  {
  }

  lemma LastReplaced<T>(s: seq<T>, x: T)
    requires s != []
    ensures s[|s| - 1 := x] == s[..|s| - 1] + [x]
  {
  }
}
