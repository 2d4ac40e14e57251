/** The wall-clock text that goes into capture file names. The clock itself
    is not modelled: a moment is supplied as its calendar fields. */
module Timestamps {
  import opened Text

  /** A UTC moment as `datetime` holds it, as its calendar fields. */
  datatype DateTime = DateTime(
    year: nat, month: nat, day: nat, hour: nat, minute: nat, second: nat, microsecond: nat)

  /** `strftime("%Y%m%d_%H%M%S")` for years written with four digits. */
  function Compact(t: DateTime): (r: string)
    ensures |r| == 15 && r[8] == '_'
  {
    Padded(t.year, 4) + Padded(t.month, 2) + Padded(t.day, 2) + "_"
      + Padded(t.hour, 2) + Padded(t.minute, 2) + Padded(t.second, 2)
  }

  /** `strftime("%Y%m%d_%H%M%S_%f")`: the compact form followed by the six
      microsecond digits. */
  function CompactMicro(t: DateTime): (r: string)
    ensures |r| == 22
  {
    Compact(t) + "_" + Padded(t.microsecond, 6)
  }

  /** Cutting the microsecond form to 19 characters keeps the compact form and
      the first three microsecond digits, i.e. the milliseconds. */
  lemma MicroCutKeepsMilliseconds(t: DateTime)
    ensures CompactMicro(t)[..19] == Compact(t) + "_" + Padded(t.microsecond / 1000, 3)
  {
    PaddedDropThree(t.microsecond, 3);
    assert CompactMicro(t)[..19] == Compact(t) + "_" + Padded(t.microsecond, 6)[..3];
  }

  function Pow10(n: nat): (r: nat)
    ensures r >= 1
  {
    if n == 0 then 1 else 10 * Pow10(n - 1)
  }

  /** A field that fits its width is written exactly: its digits read back as
      the field's value. */
  lemma {:induction false} PaddedValue(n: nat, width: nat)
    requires n < Pow10(width)
    ensures DecimalValue(Padded(n, width)) == n
  {
    if width > 0 {
      PaddedValue(n / 10, width - 1);
      var r := Padded(n, width);
      assert r[..|r| - 1] == Padded(n / 10, width - 1);
    }
  }
}
