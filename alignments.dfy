/**
 * The number of primary alignments reported for the run: which file is
 * counted (the converted SAM file in the temporary folder, or the given
 * one) and how the count read back from the counting pipeline falls back
 * to 0 when it cannot be parsed.
 */
module Alignments {
  import opened Wrappers
  import Decimal

  /**
   * The part after the last '.', as splitting once from the right gives
   * it; None when the name holds no '.', where taking the second part of
   * the split fails and the run stops.
   */
  function Extension(s: string): (e: Option<string>)
    ensures e.None? <==> '.' !in s
    ensures e.Some? ==> |e.value| < |s| && s[|s| - |e.value| - 1] == '.' &&
                        s[|s| - |e.value|..] == e.value && '.' !in e.value
  {
    if s == [] then None
    else if s[|s| - 1] == '.' then Some([])
    else
      var init := s[..|s| - 1];
      assert s == init + [s[|s| - 1]];
      match Extension(init)
      case None => None
      case Some(e) => Some(e + [s[|s| - 1]])
  }

  /** A stem, a dot and a dot-free extension give back that extension. */
  lemma ExtensionOfName(stem: string, ext: string)
    requires '.' !in ext
    ensures Extension(stem + "." + ext) == Some(ext)
  {
    var s := stem + "." + ext;
    assert s[|stem|] == '.';
    assert s[|s| - |ext|..] == ext;
  }

  /** What went wrong before any counting: the input name has no '.'. */
  datatype SamError = NoExtension

  /** The file that was counted and the count the run reports. */
  datatype AlignmentCount = AlignmentCount(counted: string, total: int)

  /** The SAM file produced from the input in the temporary folder. */
  function ConvertedSam(tmpFolder: string): string
  {
    tmpFolder + "/input.sam"
  }

  /**
   * Counts the primary alignments: `countLine` is the first line the
   * counting pipeline writes for the chosen file. A BAM input, or a Galaxy
   * run whose input is not SAM, is counted in its converted form.
   */
  method MapsOutOfSam(sam: string, galaxy: string, galaxySam: string, tmpFolder: string, countLine: string)
    returns (r: Result<AlignmentCount, SamError>)
    ensures r.Err? <==> '.' !in sam
    ensures r.Ok? && (Extension(sam) == Some("bam") || (galaxy == "Y" && galaxySam == "N")) ==>
              r.value.counted == ConvertedSam(tmpFolder)
    ensures r.Ok? && !(Extension(sam) == Some("bam") || (galaxy == "Y" && galaxySam == "N")) ==>
              r.value.counted == sam
    ensures r.Ok? && Decimal.ParseInt(countLine).None? ==> r.value.total == 0
    ensures r.Ok? && Decimal.ParseInt(countLine).Some? ==> r.value.total == Decimal.ParseInt(countLine).value
    ensures r.Ok? ==> forall n: nat :: countLine == Decimal.IntToString(n) + "\n" ==> r.value.total == n
  {
    var totMaps := 0;
    var ext := Extension(sam);
    if ext.None? {
      return Err(NoExtension);
    }
    var counted := sam;
    if ext.value == "bam" {
      counted := ConvertedSam(tmpFolder);
    } else if galaxy == "Y" && galaxySam == "N" {
      counted := ConvertedSam(tmpFolder);
    }
    var parsed := Decimal.ParseInt(countLine);
    if parsed.Some? {
      totMaps := parsed.value;
    }
    forall n: nat | countLine == Decimal.IntToString(n) + "\n"
      ensures totMaps == n
    {
      CountLineRead(n);
    }
    return Ok(AlignmentCount(counted, totMaps));
  }

  /** The line `wc -l` writes for n alignments reads back as n. */
  lemma CountLineRead(n: nat)
    ensures Decimal.ParseInt(Decimal.IntToString(n) + "\n") == Some(n)
  {
    Decimal.ParseIntTrailingSpace(Decimal.IntToString(n), '\n');
    Decimal.ParseIntToString(n);
  }
}
