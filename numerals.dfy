/**
 Decimal rendering of block numbers, as Python's `str` on a non-negative
 `int`, and the names of block files built from it.
 */
module Numerals {

  function DigitChar(d: nat): (c: char)
    requires d < 10
    ensures '0' <= c <= '9'
  {
    ('0' as int + d) as char
  }

  function DigitValue(c: char): nat
  {
    if '0' <= c <= '9' then c as int - '0' as int else 0
  }

  /** Python's `str(n)` for `n >= 0`: decimal digits, no leading zero. */
  function NatToString(n: nat): (s: string)
    ensures |s| >= 1
    ensures forall i :: 0 <= i < |s| ==> '0' <= s[i] <= '9'
    ensures |s| > 1 ==> s[0] != '0'
  {
    if n < 10 then [DigitChar(n)] else NatToString(n / 10) + [DigitChar(n % 10)]
  }

  /** Reads a string of decimal digits back as a number. */
  function ParseDecimal(s: string): nat
  {
    if s == [] then 0 else ParseDecimal(s[..|s|-1]) * 10 + DigitValue(s[|s|-1])
  }

  lemma {:induction false} ParseNatToString(n: nat)
    ensures ParseDecimal(NatToString(n)) == n
  {
    var s := NatToString(n);
    if n < 10 {
      assert s[..|s|-1] == [];
    } else {
      assert s[..|s|-1] == NatToString(n / 10);
      ParseNatToString(n / 10);
    }
  }

  /** Different block numbers are rendered differently. */
  lemma NatToStringInjective(a: nat, b: nat)
    ensures NatToString(a) == NatToString(b) ==> a == b
  {
    ParseNatToString(a);
    ParseNatToString(b);
  }

  /** The name `block_name + str(block_number) + '.txt'` of a block file. */
  function BlockFileName(blockName: string, blockNumber: nat): (name: string)
    ensures |name| >= |blockName| + 5
    ensures name[..|blockName|] == blockName
    ensures name[|name| - 4..] == ".txt"
  {
    blockName + NatToString(blockNumber) + ".txt"
  }

  /** Two blocks with different numbers are written to different files. */
  lemma BlockFileNameInjective(blockName: string, a: nat, b: nat)
    ensures BlockFileName(blockName, a) == BlockFileName(blockName, b) ==> a == b
  {
    var x, y := BlockFileName(blockName, a), BlockFileName(blockName, b);
    if x == y {
      assert NatToString(a) == x[|blockName|..|x| - 4];
      assert NatToString(b) == y[|blockName|..|y| - 4];
      NatToStringInjective(a, b);
    }
  }
}
