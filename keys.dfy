/** The key a week's poll is stored under: "lunch_" followed by the ISO week
    number in decimal. The week number is an input; the clock is not modelled. */
module Keys {
  import opened Poll

  const Prefix: string := "lunch_"

  predicate IsDigit(c: char)
  {
    '0' <= c <= '9'
  }

  function DigitChar(d: nat): (c: char)
    requires d < 10
    ensures IsDigit(c)
  {
    ['0', '1', '2', '3', '4', '5', '6', '7', '8', '9'][d]
  }

  function DigitValue(c: char): nat
  {
    if IsDigit(c) then (c as int - '0' as int) else 0
  }

  lemma DigitValueChar(d: nat)
    requires d < 10
    ensures DigitValue(DigitChar(d)) == d
  {
  }

  /** Decimal rendering of a natural number, without leading zeros. */
  function Itoa(n: nat): (s: string)
    ensures |s| >= 1
    ensures forall i :: 0 <= i < |s| ==> IsDigit(s[i])
    decreases n
  {
    if n < 10 then [DigitChar(n)] else Itoa(n / 10) + [DigitChar(n % 10)]
  }

  /** Decimal reading of a string of digits, the inverse of Itoa. */
  function Atoi(s: string): nat
    decreases |s|
  {
    if s == [] then 0 else Atoi(s[..|s| - 1]) * 10 + DigitValue(s[|s| - 1])
  }

  /** Reading back a rendered number gives the number. */
  lemma {:induction false} AtoiItoa(n: nat)
    ensures Atoi(Itoa(n)) == n
    decreases n
  {
    var s := Itoa(n);
    if n < 10 {
      assert s[..0] == [];
      DigitValueChar(n);
    } else {
      AtoiItoa(n / 10);
      assert s[..|s| - 1] == Itoa(n / 10);
      DigitValueChar(n % 10);
    }
  }

  /** One digit below ten, two digits from ten to ninety-nine, never a leading zero. */
  lemma {:induction false} ItoaLength(n: nat)
    ensures n < 10 ==> |Itoa(n)| == 1
    ensures 10 <= n < 100 ==> |Itoa(n)| == 2
    ensures n > 0 ==> Itoa(n)[0] != '0'
    decreases n
  {
    if n >= 10 {
      ItoaLength(n / 10);
    }
  }

  /** The shape of a poll key: "lunch_" followed by one or two digits. */
  predicate IsKeyFormat(k: string)
  {
    && (|k| == |Prefix| + 1 || |k| == |Prefix| + 2)
    && k[..|Prefix|] == Prefix
    && forall i :: |Prefix| <= i < |k| ==> IsDigit(k[i])
  }

  /** The week number a well-formed key names. */
  function KeyWeek(k: string): Option<nat>
  {
    if IsKeyFormat(k) then Some(Atoi(k[|Prefix|..])) else None
  }

  /** The key of the poll for ISO week `week`. */
  function CurrentKey(week: nat): (k: string)
    requires 1 <= week <= 53
    ensures IsKeyFormat(k)
    ensures KeyWeek(k) == Some(week)
  {
    ItoaLength(week);
    AtoiItoa(week);
    var k := Prefix + Itoa(week);
    assert k[|Prefix|..] == Itoa(week);
    k
  }

  /** Different weeks get different keys, so each week has its own poll. */
  lemma CurrentKeyInjective(a: nat, b: nat)
    requires 1 <= a <= 53 && 1 <= b <= 53
    ensures CurrentKey(a) == CurrentKey(b) <==> a == b
  {
  }
}
