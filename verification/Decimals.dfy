/** Printing and reading integers in base ten. */
module Decimals {
  import opened Options

  function Digit(d: nat): char
    requires d < 10
  {
    '0' + d as char
  }

  predicate IsDigit(c: char) {
    '0' <= c <= '9'
  }

  function DigitValue(c: char): nat
    requires IsDigit(c)
  {
    (c - '0') as nat
  }

  function PrintNat(n: nat): string {
    if n < 10 then [Digit(n)] else PrintNat(n / 10) + [Digit(n % 10)]
  }

  function Print(n: int): string {
    if n < 0 then "-" + PrintNat(-n) else PrintNat(n)
  }

  /** Digits only, leading zeros allowed. */
  function ReadNat(s: string): Option<int> {
    if s == [] || !IsDigit(s[|s| - 1]) then None
    else if |s| == 1 then Some(DigitValue(s[0]))
    else
      match ReadNat(s[..|s| - 1])
      case None => None
      case Some(high) => Some(10 * high + DigitValue(s[|s| - 1]))
  }

  /** A number with an optional sign; everything else is a ValueError. */
  function Read(s: string): Option<int> {
    if s != [] && (s[0] == '-' || s[0] == '+') then
      match ReadNat(s[1..])
      case None => None
      case Some(n) => Some(if s[0] == '-' then -n else n)
    else
      ReadNat(s)
  }

  lemma {:induction false} ReadPrintNat(n: nat)
    ensures ReadNat(PrintNat(n)) == Some(n)
    ensures PrintNat(n) != [] && forall c :: c in PrintNat(n) ==> IsDigit(c)
  {
    if n >= 10 {
      ReadPrintNat(n / 10);
      var s := PrintNat(n);
      assert s[..|s| - 1] == PrintNat(n / 10);
    }
  }

  /** Reading undoes printing, for negative numbers too. */
  lemma ReadPrint(n: int)
    ensures Read(Print(n)) == Some(n)
    ensures forall c :: c in Print(n) ==> IsDigit(c) || c == '-'
  {
    ReadPrintNat(if n < 0 then -n else n);
    if n < 0 {
      assert Print(n)[1..] == PrintNat(-n);
    } else {
      assert Print(n)[0] in PrintNat(n);
    }
  }

  /** Digits are the usual ones, the last digit comes last, and only 0 begins with '0'. */
  lemma {:induction false} PrintsUsualDigits(n: nat)
    ensures PrintNat(n) == (if n < 10 then ["0123456789"[n]] else PrintNat(n / 10) + ["0123456789"[n % 10]])
    ensures PrintNat(n) != [] && (PrintNat(n)[0] == '0' <==> n == 0)
    ensures forall c :: c in PrintNat(n) ==> c in "0123456789"
  {
    if n >= 10 {
      PrintsUsualDigits(n / 10);
      UsualDigit(n % 10);
    } else {
      UsualDigit(n);
    }
  }

  lemma UsualDigit(d: nat)
    requires d < 10
    ensures Digit(d) == "0123456789"[d] && (Digit(d) == '0' <==> d == 0)
  {
    assert "0123456789" == ['0', '1', '2', '3', '4', '5', '6', '7', '8', '9'];
  }

  predicate Zeros(s: string) {
    forall c :: c in s ==> c == '0'
  }

  /** The text is the number in base ten, perhaps after some zeros. */
  ghost predicate Spells(s: string, n: nat) {
    exists zeros :: Zeros(zeros) && s == zeros + PrintNat(n)
  }

  lemma {:induction false} ReadsSpelling(s: string)
    ensures ReadNat(s).Some? ==> ReadNat(s).value >= 0 && Spells(s, ReadNat(s).value)
  {
    if ReadNat(s).Some? {
      var d := DigitValue(s[|s| - 1]);
      if |s| == 1 {
        assert s == [] + PrintNat(d);
      } else {
        ReadsSpelling(s[..|s| - 1]);
        var high := ReadNat(s[..|s| - 1]).value;
        var zeros :| Zeros(zeros) && s[..|s| - 1] == zeros + PrintNat(high);
        assert s == s[..|s| - 1] + [Digit(d)];
        OneDigitMore(zeros, high, d, s);
      }
    }
  }

  lemma OneDigitMore(zeros: string, high: nat, d: nat, s: string)
    requires d < 10 && Zeros(zeros) && s == zeros + PrintNat(high) + [Digit(d)]
    ensures Spells(s, 10 * high + d)
  {
    if high == 0 {
      assert Zeros(zeros + PrintNat(0)) && s == (zeros + PrintNat(0)) + PrintNat(d);
    } else {
      assert (10 * high + d) / 10 == high && (10 * high + d) % 10 == d;
      assert s == zeros + PrintNat(10 * high + d);
    }
  }

  lemma {:induction false} ReadsAllZeros(zeros: string)
    requires Zeros(zeros) && zeros != []
    ensures ReadNat(zeros) == Some(0)
    decreases |zeros|
  {
    assert zeros[|zeros| - 1] in zeros;
    if |zeros| > 1 {
      var front := zeros[..|zeros| - 1];
      assert forall c :: c in front ==> c in zeros;
      ReadsAllZeros(front);
    }
  }

  lemma {:induction false} ReadsZeros(zeros: string, s: string)
    requires Zeros(zeros) && s != []
    ensures ReadNat(zeros + s) == ReadNat(s)
    decreases |s|
  {
    var t := zeros + s;
    if |s| > 1 {
      ReadsZeros(zeros, s[..|s| - 1]);
      assert t[..|t| - 1] == zeros + s[..|s| - 1];
    } else if zeros != [] {
      ReadsAllZeros(zeros);
      assert t[..|t| - 1] == zeros;
    } else {
      assert t == s;
    }
  }

  /** Reading accepts exactly numbers in base ten, with zeros before them and a sign if one likes. */
  lemma ReadMeans(s: string, n: int)
    ensures Read(s) == Some(n) <==>
            || (n >= 0 && Spells(s, n))
            || (n >= 0 && s != [] && s[0] == '+' && Spells(s[1..], n))
            || (n <= 0 && s != [] && s[0] == '-' && Spells(s[1..], -n))
  {
    if s != [] && (s[0] == '-' || s[0] == '+') {
      NoSignSpelled(s);
      ReadNatMeans(s[1..], if s[0] == '-' then -n else n);
    } else {
      ReadNatMeans(s, n);
    }
  }

  lemma NoSignSpelled(s: string)
    requires s != [] && (s[0] == '-' || s[0] == '+')
    ensures forall n: nat :: !Spells(s, n)
  {
    assert s[0] in s;
    forall n: nat ensures !Spells(s, n) {
      if Spells(s, n) { SpelledInDigits(s, n); }
    }
  }

  lemma SpelledInDigits(s: string, n: nat)
    requires Spells(s, n)
    ensures forall c :: c in s ==> IsDigit(c)
  {
    var zeros :| Zeros(zeros) && s == zeros + PrintNat(n);
    ReadPrintNat(n);
    forall c | c in s ensures IsDigit(c) {
      assert c in zeros || c in PrintNat(n);
    }
  }

  lemma ReadNatMeans(s: string, n: int)
    ensures ReadNat(s) == Some(n) <==> n >= 0 && Spells(s, n)
  {
    ReadsSpelling(s);
    if n >= 0 && Spells(s, n) {
      var zeros :| Zeros(zeros) && s == zeros + PrintNat(n);
      ReadPrintNat(n);
      ReadsZeros(zeros, PrintNat(n));
    }
  }

  lemma PrintInjective(m: int, n: int)
    requires Print(m) == Print(n)
    ensures m == n
  {
    ReadPrint(m);
    ReadPrint(n);
  }
}
