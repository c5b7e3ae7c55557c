/** `format_size`: a byte count, as the downloader prints it, made readable
    with binary (1024-based) units. */
module SizeFormat {
  import opened Wrappers
  import opened Numbers
  import opened Text

  datatype Unit = B | KB | MB | GB | TB

  /** What `format_size` returns: the text "N/A", or an amount (printed with
      one decimal place) followed by a unit name. */
  datatype SizeText = NotAvailable | Scaled(amount: real, unit: Unit)

  function UnitName(u: Unit): string {
    match u
    case B => "B"
    case KB => "KB"
    case MB => "MB"
    case GB => "GB"
    case TB => "TB"
  }

  /** The units in the order `format_size` tries them. */
  const Units: seq<Unit> := [B, KB, MB, GB, TB]

  /** How many bytes one of a unit is. */
  function Factor(u: Unit): real {
    match u
    case B => 1.0
    case KB => 1024.0
    case MB => 1048576.0
    case GB => 1073741824.0
    case TB => 1099511627776.0
  }

  /** The unit for a value, by thresholds: below 1 KB in bytes, below 1 MB in
      kilobytes, and so on, with terabytes for everything from 1 TB up. */
  function UnitFor(v: real): Unit {
    if v < Factor(KB) then B
    else if v < Factor(MB) then KB
    else if v < Factor(GB) then MB
    else if v < Factor(TB) then GB
    else TB
  }

  /** The readable form of a parsed value. */
  function ScaleOf(v: real): (r: SizeText)
    ensures r.Scaled? && r.unit == UnitFor(v)
  {
    match UnitFor(v)
    case B => Scaled(v, B)
    case KB => Scaled(v / 1024.0, KB)
    case MB => Scaled(v / 1048576.0, MB)
    case GB => Scaled(v / 1073741824.0, GB)
    case TB => Scaled(v / 1099511627776.0, TB)
  }

  /** The result `format_size` is specified to give. */
  function SizeTextOf(sizeBytes: string): SizeText {
    match ParseNumber(sizeBytes)
    case None => NotAvailable
    case Some(v) => ScaleOf(v)
  }

  /** After `i` divisions by 1024, `s` is `v` expressed in the `i`-th unit. */
  predicate DividedTimes(s: real, v: real, i: int) {
    || (i == 0 && s == v)
    || (i == 1 && s * 1024.0 == v && v >= 1024.0)
    || (i == 2 && s * 1048576.0 == v && v >= 1048576.0)
    || (i == 3 && s * 1073741824.0 == v && v >= 1073741824.0)
    || (i == 4 && s * 1099511627776.0 == v && v >= 1099511627776.0)
  }

  /** `format_size(size_bytes)`: divide by 1024 until the value drops below
      1024, trying B, KB, MB and GB in turn, and fall back to TB. */
  method FormatSize(sizeBytes: string) returns (r: SizeText)
    ensures r == SizeTextOf(sizeBytes)
  {
    var parsed := ParseNumber(sizeBytes);
    if parsed.None? {
      return NotAvailable;
    }
    var v := parsed.value;
    assert SizeTextOf(sizeBytes) == ScaleOf(v);
    var s := v;
    for i := 0 to 4
      invariant DividedTimes(s, v, i)
    {
      if s < 1024.0 {
        return Scaled(s, Units[i]);
      }
      s := s / 1024.0;
    }
    return Scaled(s, TB);
  }

  /** A formatted amount times its unit is the input; it stays below 1024
      except in terabytes, and it is at least 1 except in bytes. */
  lemma ScaledAmount(sizeBytes: string)
    requires SizeTextOf(sizeBytes).Scaled?
    ensures var r := SizeTextOf(sizeBytes);
      && ParseNumber(sizeBytes) == Some(r.amount * Factor(r.unit))
      && (r.unit != TB ==> r.amount < 1024.0)
      && (r.unit != B ==> r.amount >= 1.0)
  {
  }

  /** "N/A" exactly when the text is not a number. */
  lemma NotAvailableIffNoNumber(sizeBytes: string)
    ensures SizeTextOf(sizeBytes) == NotAvailable <==> ParseNumber(sizeBytes).None?
  {
  }

  /** A decimal numeral, with the whitespace a read line may carry, is
      scaled by its value. */
  lemma SizeOfNumeral(n: nat, pad: string)
    requires AllSpace(pad)
    ensures SizeTextOf(NatToString(n) + pad) == ScaleOf(n as real)
  {
    ParseNatToString(n, pad);
  }

  /** The documented examples: 0 is "0.0 B", 1536 is "1.5 KB",
      10485760 is "10.0 MB", 1073741824 is "1.0 GB", and "NA" is "N/A". */
  lemma FormatSizeExamples()
    ensures SizeTextOf("0") == Scaled(0.0, B)
    ensures ScaleOf(1536.0) == Scaled(1.5, KB)
    ensures ScaleOf(10485760.0) == Scaled(10.0, MB)
    ensures ScaleOf(1073741824.0) == Scaled(1.0, GB)
    ensures ScaleOf(1023.0) == Scaled(1023.0, B)
    ensures ScaleOf(2199023255552.0) == Scaled(2.0, TB)
    ensures SizeTextOf("NA") == NotAvailable
  {
    SizeOfNumeral(0, "");
    assert NatToString(0) + "" == "0";
    NoDigitsNoNumber("NA");
  }

}
