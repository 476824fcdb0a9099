/**
 * Decimal spelling of natural numbers, as Rust's `to_string` and `format!`
 * print them, and the facts about it the class names and share images use.
 */
module Decimal {
  function DigitChar(d: nat): char
    requires d < 10
  {
    "0123456789"[d]
  }

  /** The decimal spelling of `n`, without leading zeros. */
  function NatStr(n: nat): string {
    if n < 10 then [DigitChar(n)] else NatStr(n / 10) + [DigitChar(n % 10)]
  }

  /** The number a string of decimal digits spells, most significant digit first. */
  function DigitsValue(s: string): nat
    requires forall i | 0 <= i < |s| :: '0' <= s[i] <= '9'
  {
    if |s| == 0 then 0 else 10 * DigitsValue(s[..|s| - 1]) + (s[|s| - 1] as int - '0' as int)
  }

  /** `NatStr` spells only digits, and reading them back gives the number. */
  lemma {:induction false} NatStrRoundTrip(n: nat)
    ensures forall i | 0 <= i < |NatStr(n)| :: '0' <= NatStr(n)[i] <= '9'
    ensures DigitsValue(NatStr(n)) == n
  {
    if n >= 10 {
      NatStrRoundTrip(n / 10);
      var s := NatStr(n);
      assert s[..|s| - 1] == NatStr(n / 10);
    }
  }

  /** A decimal spelling holds no space. */
  lemma {:induction false} NatStrHasNoSpace(n: nat)
    ensures ' ' !in NatStr(n)
  {
    if n >= 10 {
      NatStrHasNoSpace(n / 10);
    }
  }

  /** The spelling is ASCII, and its length is the number of decimal digits. */
  lemma {:induction false} NatStrDigits(n: nat)
    ensures forall i | 0 <= i < |NatStr(n)| :: NatStr(n)[i] as int < 0x80
    ensures n < 10 ==> |NatStr(n)| == 1
    ensures 10 <= n < 100 ==> |NatStr(n)| == 2
    ensures 100 <= n < 1000 ==> |NatStr(n)| == 3
    ensures 1000 <= n ==> |NatStr(n)| >= 4
  {
    if n >= 10 {
      NatStrDigits(n / 10);
    }
  }

  /** The decimal spellings of the one- and two-digit tile values. */
  lemma NatStrOfSmallTiles()
    ensures NatStr(2) == "2" && NatStr(4) == "4" && NatStr(8) == "8"
    ensures NatStr(16) == "16" && NatStr(32) == "32" && NatStr(64) == "64"
  {
    assert NatStr(1) == "1" && NatStr(3) == "3" && NatStr(6) == "6";
  }

  /** The decimal spellings of the three- and four-digit tile values. */
  lemma NatStrOfLargeTiles()
    ensures NatStr(128) == "128" && NatStr(256) == "256" && NatStr(512) == "512"
    ensures NatStr(1024) == "1024" && NatStr(2048) == "2048"
  {
    assert NatStr(128) == "128" by { assert NatStr(12) == "12"; }
    assert NatStr(256) == "256" by { assert NatStr(25) == "25"; }
    assert NatStr(512) == "512" by { assert NatStr(51) == "51"; }
    assert NatStr(1024) == "1024" by { assert NatStr(102) == "102" by { assert NatStr(10) == "10"; } }
    assert NatStr(2048) == "2048" by { assert NatStr(204) == "204" by { assert NatStr(20) == "20"; } }
  }
}
