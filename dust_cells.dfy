/**
 * How the legacy pipeline's `parseXLSX` reads a worksheet cell address such as
 * "AQ918" (backend/dust_processing/index.js:114-128): addresses starting with '!' are
 * skipped, the column is the text before the first character that `isNaN` does not
 * reject, and the row is `parseInt` of the rest.
 */
module DustCells {
  import opened JsValues
  import opened JsText
  import opened JsNumbers

  /** `!isNaN(c)` for a one-character string: a digit, or white space (which converts to 0). */
  predicate NotNaN(c: char)
  {
    IsDigit(c) || JsWhiteSpace(c)
  }

  /** `digit_idx`: the first position from `from` on whose character passes the test, or 0 when none does. */
  function DigitIndexFrom(cell: string, from: nat): (d: nat)
    requires from <= |cell|
    ensures (exists i :: from <= i < |cell| && NotNaN(cell[i])) ==>
              from <= d < |cell| && NotNaN(cell[d]) && forall i :: from <= i < d ==> !NotNaN(cell[i])
    ensures (forall i :: from <= i < |cell| ==> !NotNaN(cell[i])) ==> d == 0
    decreases |cell| - from
  {
    if from == |cell| then 0
    else if NotNaN(cell[from]) then from
    else DigitIndexFrom(cell, from + 1)
  }

  /** The column letters and the row number (`None` is NaN). */
  datatype Address = Address(col: string, row: Option<nat>)

  /** The split of one address, `None` for the worksheet's '!' entries. */
  function CellAddress(cell: string): Option<Address>
  {
    if |cell| > 0 && cell[0] == '!' then None
    else
      var d := DigitIndexFrom(cell, 0);
      Some(Address(cell[..d], ParseInt(cell[d..])))
  }

  /** The loop with its `break`, as `parseXLSX` runs it on each cell. */
  method SplitCell(cell: string) returns (a: Option<Address>)
    ensures a == CellAddress(cell)
  {
    if |cell| > 0 && cell[0] == '!' {
      return None;
    }
    var digitIdx := 0;
    var i := 0;
    while i < |cell|
      invariant 0 <= i <= |cell|
      invariant DigitIndexFrom(cell, 0) == DigitIndexFrom(cell, i)
    {
      if NotNaN(cell[i]) {
        digitIdx := i;
        break;
      }
      i := i + 1;
    }
    a := Some(Address(cell[..digitIdx], ParseInt(cell[digitIdx..])));
  }

  /** A column of capital letters followed by a row number splits back into the two. */
  lemma AddressRoundTrip(col: string, row: nat)
    requires forall i :: 0 <= i < |col| ==> IsUpper(col[i])
    ensures CellAddress(col + NatToString(row)) == Some(Address(col, Some(row)))
  {
    var digits := NatToString(row);
    var cell := col + digits;
    assert cell[|col|] == digits[0];
    assert forall i :: 0 <= i < |col| ==> cell[i] == col[i] && !NotNaN(cell[i]);
    assert DigitIndexFrom(cell, 0) == |col|;
    assert cell[..|col|] == col && cell[|col|..] == digits;
    ParseIntOfNatToString(row);
  }

  /** Without a digit, `digit_idx` stays 0: the column is empty and the row is NaN. */
  lemma AddressWithoutDigit(cell: string)
    requires forall i :: 0 <= i < |cell| ==> IsUpper(cell[i])
    ensures CellAddress(cell) == Some(Address("", None))
  {
  }
}
