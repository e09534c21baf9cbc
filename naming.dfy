/** Names the generation pass derives from a slot index: C# string interpolation of a
    non-negative int (`$"GenInventorySlot{i}"`) renders the index in decimal. */
module Naming {

  /** The decimal digit character for 0 <= d < 10. */
  function Digit(d: nat): (c: char)
    requires d < 10
    ensures '0' <= c <= '9'
    ensures c as int - '0' as int == d
  {
    (d + '0' as int) as char
  }

  /** The number a string of decimal digits stands for, read most significant digit first. */
  function DigitsValue(s: string): (value: nat)
    requires forall k :: 0 <= k < |s| ==> '0' <= s[k] <= '9'
    decreases |s|
  {
    if s == [] then 0 else DigitsValue(s[..|s| - 1]) * 10 + (s[|s| - 1] as int - '0' as int)
  }

  /** Decimal rendering of a natural number, most significant digit first, no leading zeros. */
  function Decimal(n: nat): (s: string)
    ensures |s| >= 1
    ensures forall k :: 0 <= k < |s| ==> '0' <= s[k] <= '9'
    ensures |s| >= 2 ==> s[0] != '0'
    decreases n
  {
    if n < 10 then [Digit(n)] else Decimal(n / 10) + [Digit(n % 10)]
  }

  /** The rendering stands for the number rendered. */
  lemma {:induction false} DecimalValue(n: nat)
    ensures DigitsValue(Decimal(n)) == n
    decreases n
  {
    if n >= 10 {
      var s := Decimal(n);
      assert s[..|s| - 1] == Decimal(n / 10);
      DecimalValue(n / 10);
    }
  }

  /** Different numbers render differently, so names built from different indices differ. */
  lemma DecimalInjective(a: nat, b: nat)
    requires Decimal(a) == Decimal(b)
    ensures a == b
  {
    DecimalValue(a);
    DecimalValue(b);
  }

  /** `name + index` with a fixed prefix is injective in the index. */
  lemma PrefixedInjective(prefix: string, a: nat, b: nat)
    requires prefix + Decimal(a) == prefix + Decimal(b)
    ensures a == b
  {
    assert Decimal(a) == (prefix + Decimal(a))[|prefix|..];
    assert Decimal(b) == (prefix + Decimal(b))[|prefix|..];
    DecimalInjective(a, b);
  }

  const SlotParamPrefix: string := "GenInventorySlot"
  const LayerPrefix: string := "GenToggleLayer"
  const ClipPrefix: string := "toggleAnim"

  /** The expression/controller parameter name of generated slot i. */
  function SlotParamName(i: nat): (name: string) { SlotParamPrefix + Decimal(i) }

  /** The controller layer (and state machine) name of generated slot i. */
  function LayerName(i: nat): (name: string) { LayerPrefix + Decimal(i) }

  /** The clip name of generated slot i. */
  function ClipName(i: nat): (name: string) { ClipPrefix + Decimal(i) }

  /** Every generated parameter name is non-blank, and distinct slots get distinct names. */
  lemma SlotParamNameDistinct(i: nat, j: nat)
    ensures SlotParamName(i) != ""
    ensures SlotParamName(i) == SlotParamName(j) <==> i == j
  {
    if SlotParamName(i) == SlotParamName(j) {
      PrefixedInjective(SlotParamPrefix, i, j);
    }
  }

  /** Distinct slots get distinct layer names. */
  lemma LayerNameDistinct(i: nat, j: nat)
    ensures LayerName(i) == LayerName(j) <==> i == j
  {
    if LayerName(i) == LayerName(j) {
      PrefixedInjective(LayerPrefix, i, j);
    }
  }
}
