/** The unit loop of the byte formatter. */
module Units {
  import opened Text

  const UNIT := 1024
  const SUFFIXES := "KMGTPE"

  function Power(exp: nat): nat { if exp == 0 then 1 else UNIT * Power(exp - 1) }

  lemma PowerTable()
    ensures Power(1) == 1024 && Power(2) == 0x10_0000 && Power(3) == 0x4000_0000
    ensures Power(4) == 0x100_0000_0000 && Power(5) == 0x4_0000_0000_0000 && Power(6) == 0x1000_0000_0000_0000
  {
    assert Power(2) == 0x10_0000;
    assert Power(4) == 0x100_0000_0000;
  }

  /** Dividing by 1024 once more divides by the next power, which is still within
      reach of the bytes. */
  lemma NextUnit(bytes: nat, exp: nat, n: nat)
    requires bytes <= MAX_INT64 && exp < 6 && Power(exp + 1) > 0
    requires n == bytes / Power(exp + 1) && n >= UNIT
    ensures exp < 5 && Power(exp + 2) == UNIT * Power(exp + 1)
    ensures n / UNIT == bytes / Power(exp + 2) && n / UNIT >= 1
  {
    PowerTable();
  }

  /** For every int64 of at least 1024 the loop picks a unit that leaves a whole
      part from 1 to 1023; the suffix exists and the divisor fits int64. */
  method SelectUnit(bytes: int) returns (div: int, exp: nat)
    requires UNIT <= bytes <= MAX_INT64
    ensures exp < |SUFFIXES| && div == Power(exp + 1)
    ensures 0 < div <= MAX_INT64
    ensures 1 <= bytes / div < UNIT && div <= bytes < UNIT * div
    ensures (SUFFIXES[exp], div) in [('K', 1024), ('M', 1024 * 1024), ('G', 1024 * 1024 * 1024),
                                     ('T', 1024 * 1024 * 1024 * 1024), ('P', 1024 * 1024 * 1024 * 1024 * 1024),
                                     ('E', 1024 * 1024 * 1024 * 1024 * 1024 * 1024)]
  {
    PowerTable();
    div, exp := UNIT, 0;
    var n := bytes / UNIT;
    while n >= UNIT
      invariant exp < 6 && div == Power(exp + 1) && 0 < div <= MAX_INT64
      invariant n == bytes / div && n >= 1
      decreases n
    {
      NextUnit(bytes, exp, n);
      n := n / UNIT;
      div := div * UNIT;
      exp := exp + 1;
      PowerFits(exp);
    }
  }

  lemma PowerFits(exp: nat)
    requires exp < 6
    ensures 0 < Power(exp + 1) <= MAX_INT64
  {
    PowerTable();
  }

  /** No other unit does: the bytes lie between one power and the next. */
  lemma UnitIsUnique(bytes: nat, a: nat, b: nat)
    requires a < 6 && b < 6
    requires Power(a + 1) <= bytes < UNIT * Power(a + 1) && Power(b + 1) <= bytes < UNIT * Power(b + 1)
    ensures a == b
  {
    if a < b { PowerGrows(a + 1, b); }
    if b < a { PowerGrows(b + 1, a); }
  }

  lemma {:induction false} PowerGrows(a: nat, b: nat)
    requires a <= b
    ensures 1 <= Power(a) <= Power(b)
  {
    if b > 0 { PowerGrows(if a < b then a else a - 1, b - 1); }
  }
}
