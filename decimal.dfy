/** Decimal rendering of a non-negative integer, as Swift string
    interpolation writes it, and the reminder identifiers built from it. */
module Decimal {

  function DigitChar(d: nat): char
    requires d < 10
  {
    "0123456789"[d]
  }

  lemma DigitCharInjective(a: nat, b: nat)
    requires a < 10 && b < 10 && DigitChar(a) == DigitChar(b)
    ensures a == b
  {
  }

  /** The shortest decimal rendering of `n`: a single digit below ten, and
      at least two digits from ten on. */
  function NatToString(n: nat): (s: string)
    ensures |s| >= 1
    ensures |s| == 1 <==> n < 10
    decreases n
  {
    if n < 10 then [DigitChar(n)] else NatToString(n / 10) + [DigitChar(n % 10)]
  }

  /** Different numbers render differently. */
  lemma {:induction false} NatToStringInjective(a: nat, b: nat)
    requires NatToString(a) == NatToString(b)
    ensures a == b
  {
    var s := NatToString(a);
    if a < 10 {
      assert b < 10;
      DigitCharInjective(a, b);
    } else {
      assert b >= 10;
      var n := |s|;
      assert s[n - 1] == DigitChar(a % 10) == DigitChar(b % 10);
      DigitCharInjective(a % 10, b % 10);
      assert NatToString(a / 10) == s[..n - 1] == NatToString(b / 10);
      NatToStringInjective(a / 10, b / 10);
    }
  }

  /** The identifier of the index-th silent "still running" reminder. */
  function IntermediateId(index: nat): (id: string)
    ensures |id| > |"intermediate-"| && id[..|"intermediate-"|] == "intermediate-"
  {
    "intermediate-" + NatToString(index)
  }

  /** Distinct indices give distinct identifiers, and none of them collides
      with the identifier "notif" of the end-of-session reminder. */
  lemma IntermediateIdDistinct(i: nat, j: nat)
    ensures IntermediateId(i) != "notif"
    ensures IntermediateId(i) == IntermediateId(j) ==> i == j
  {
    var p := "intermediate-";
    assert IntermediateId(i)[0] == 'i' != "notif"[0];
    if IntermediateId(i) == IntermediateId(j) {
      assert NatToString(i) == IntermediateId(i)[|p|..] == IntermediateId(j)[|p|..] == NatToString(j);
      NatToStringInjective(i, j);
    }
  }
}
