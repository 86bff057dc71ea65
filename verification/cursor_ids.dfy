/**
 * The id of the cursor's element: "cursorImg-n" for the smallest n whose id
 * the document does not hold yet.
 */
module CursorIds {

  /** The decimal digit for d. */
  function DigitChar(d: nat): char
    requires d < 10
  {
    "0123456789"[d]
  }

  /** The decimal text of n, as a template literal prints a non-negative integer. */
  function Decimal(n: nat): string
  {
    if n < 10 then [DigitChar(n)] else Decimal(n / 10) + [DigitChar(n % 10)]
  }

  function Pow10(k: nat): nat
  {
    if k == 0 then 1 else 10 * Pow10(k - 1)
  }

  /** A number of at least k + 1 digits is at least 10^k: short texts mean small numbers. */
  lemma {:induction false} DecimalLength(n: nat, k: nat)
    requires n >= Pow10(k)
    ensures |Decimal(n)| > k
  {
    if k > 0 {
      DecimalLength(n / 10, k - 1);
    }
  }

  function CursorElementId(n: nat): string
  {
    "cursorImg-" + Decimal(n)
  }

  /** A bound on the length of every id in a finite set. */
  ghost function LongestLength(ids: set<string>): (l: nat)
    ensures forall s :: s in ids ==> |s| <= l
  {
    if ids == {} then 0
    else
      var s :| s in ids;
      var rest := LongestLength(ids - {s});
      if |s| > rest then |s| else rest
  }

  /**
   * Probes cursorImg-0, cursorImg-1, ... and returns the first id the
   * document does not hold, with its number.
   */
  method UniqueCursorElementId(taken: set<string>) returns (id: string, n: nat)
    ensures id == CursorElementId(n)
    ensures id !in taken
    ensures forall k :: 0 <= k < n ==> CursorElementId(k) in taken
  {
    ghost var bound := Pow10(LongestLength(taken));
    n := 0;
    id := "cursorImg-0";
    while id in taken
      invariant id == CursorElementId(n)
      invariant forall k :: 0 <= k < n ==> CursorElementId(k) in taken
      decreases bound - n
    {
      if n >= bound {
        DecimalLength(n, LongestLength(taken));
        assert false;
      }
      n := n + 1;
      id := "cursorImg-" + Decimal(n);
    }
  }
}
