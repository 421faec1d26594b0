/** The terminal card's text: fallbacks for a missing header and missing
    lines, the scanner prefix on telemetry headers, the rewriting of stale
    dates, and the two-digit line numbers. The props arrive as JSON from a
    model response or a stored record, so any of them may be of any type. */
module TerminalCard {
  import opened Wrappers
  import opened Json
  import Text

  const ChecksumError := "CHECKSUM ERROR // PACKET RECONSTRUCTION ACTIVE"
  const RetryLine := "RETRY SIGNAL INTAKE"
  const ScannerPrefix := "[SCANNER UPLINK // RAW TELEMETRY] "

  /** The header shown before any prefix: the given one when it is a string
      with some non-blank character. */
  function HeaderText(header: Option<Json>): (h: string)
    ensures IsString(header) && Text.Trim(header.value.s) != "" ==> h == header.value.s
    ensures !(IsString(header) && Text.Trim(header.value.s) != "") ==> h == ChecksumError
  {
    match header
    case Some(JStr(s)) => if Text.Trim(s) != "" then s else ChecksumError
    case _ => ChecksumError
  }

  /** A header that is absent, not a string or only white space falls back. */
  lemma BlankHeaderFallsBack(s: string)
    requires forall i :: 0 <= i < |s| ==> Text.IsJsSpace(s[i])
    ensures HeaderText(Some(JStr(s))) == ChecksumError
    ensures HeaderText(None) == ChecksumError && HeaderText(Some(JNum(1.0))) == ChecksumError
  {
  }

  /** A telemetry header mentions "telemetry" or "scanner" in any case. */
  predicate IsScanTelemetry(h: string) {
    Text.Contains(Text.ToLower(h), "telemetry") || Text.Contains(Text.ToLower(h), "scanner")
  }

  function DisplayHeader(header: Option<Json>): (d: string)
    ensures IsScanTelemetry(HeaderText(header)) ==> d == ScannerPrefix + HeaderText(header)
    ensures !IsScanTelemetry(HeaderText(header)) ==> d == HeaderText(header)
  {
    var h := HeaderText(header);
    if IsScanTelemetry(h) then ScannerPrefix + h else h
  }

  /** The prefix is added exactly for telemetry headers, never twice. */
  lemma PrefixIffTelemetry(header: Option<Json>)
    ensures Text.OccursAt(DisplayHeader(header), ScannerPrefix, 0) <==>
      IsScanTelemetry(HeaderText(header)) || Text.OccursAt(HeaderText(header), ScannerPrefix, 0)
  {
    var h := HeaderText(header);
    if IsScanTelemetry(h) {
      assert (ScannerPrefix + h)[..|ScannerPrefix|] == ScannerPrefix;
    }
  }

  /** The lines shown: a non-empty array as given, otherwise the two
      checksum lines. */
  function SafeLines(lines: Option<Json>): (r: seq<Json>)
    ensures |r| > 0
    ensures IsArray(lines) && |lines.value.items| > 0 ==> r == lines.value.items
    ensures !(IsArray(lines) && |lines.value.items| > 0) ==> r == [JStr(ChecksumError), JStr(RetryLine)]
  {
    match lines
    case Some(JArr(items)) => if |items| > 0 then items else [JStr(ChecksumError), JStr(RetryLine)]
    case _ => [JStr(ChecksumError), JStr(RetryLine)]
  }

  /** The date rewriting of one line of text: a line with neither stale date
      nor the CURRENT_DATE marker is left as it is. */
  function CleanLine(line: string, liveDate: string): (r: string)
    ensures (!Text.Contains(line, "24/05/2024") && !Text.Contains(line, "05/24/2024") &&
             !Text.Contains(line, "CURRENT_DATE")) ==> r == line
  {
    var clean := Text.ReplaceAll(line, "24/05/2024", liveDate);
    var clean := Text.ReplaceAll(clean, "05/24/2024", liveDate);
    if Text.Contains(line, "CURRENT_DATE") then Text.ReplaceAll(clean, "2024", "2026")
    else if !Text.Contains(line, "24/05/2024") && !Text.Contains(line, "05/24/2024") then
      Text.ReplaceAllAbsent(line, "24/05/2024", liveDate);
      Text.ReplaceAllAbsent(line, "05/24/2024", liveDate);
      clean
    else clean
  }

  /** A line with none of the rewritten patterns is shown unchanged. */
  lemma CleanLineKeepsOtherText(line: string, liveDate: string)
    requires !Text.Contains(line, "24/05/2024") && !Text.Contains(line, "05/24/2024")
    requires !Text.Contains(line, "CURRENT_DATE") || !Text.Contains(line, "2024")
    ensures CleanLine(line, liveDate) == line
  {
    Text.ReplaceAllAbsent(line, "24/05/2024", liveDate);
    Text.ReplaceAllAbsent(line, "05/24/2024", liveDate);
    if Text.Contains(line, "CURRENT_DATE") {
      Text.ReplaceAllAbsent(line, "2024", "2026");
    }
  }

  /** The stale date is replaced by the live date. */
  lemma CleanLineReplacesStaleDate(liveDate: string)
    requires !Text.Contains(liveDate, "05/24/2024")
    ensures CleanLine("24/05/2024", liveDate) == liveDate
  {
    var d := "24/05/2024";
    assert d[..|d|] == d && d[|d|..] == [];
    assert Text.ReplaceAll(d, d, liveDate) == liveDate;
    assert !Text.Contains(d, "CURRENT_DATE");
    Text.ReplaceAllAbsent(liveDate, "05/24/2024", liveDate);
  }

  /** On a system line that holds neither stale date, every "2024" becomes
      "2026" and nothing else changes. */
  lemma CleanLineSystemYear(line: string, liveDate: string)
    requires Text.Contains(line, "CURRENT_DATE")
    requires !Text.Contains(line, "24/05/2024") && !Text.Contains(line, "05/24/2024")
    ensures CleanLine(line, liveDate) == Text.ReplaceAll(line, "2024", "2026")
  {
    Text.ReplaceAllAbsent(line, "24/05/2024", liveDate);
    Text.ReplaceAllAbsent(line, "05/24/2024", liveDate);
  }

  /** The rewriting as written: `line.replace` exists only on strings, so a
      line of any other type throws and the card does not render. */
  function ProcessedLinesAsWritten(lines: seq<Json>, liveDate: string): (r: Option<seq<string>>)
    ensures r.Some? <==> forall i :: 0 <= i < |lines| ==> lines[i].JStr?
    ensures r.Some? ==> |r.value| == |lines|
    ensures r.Some? ==> forall i :: 0 <= i < |lines| ==> r.value[i] == CleanLine(lines[i].s, liveDate)
  {
    if lines == [] then Some([])
    else if !lines[0].JStr? then None
    else match ProcessedLinesAsWritten(lines[1..], liveDate)
      case None => None
      case Some(rest) => Some([CleanLine(lines[0].s, liveDate)] + rest)
  }

  /** A number among the lines makes the card fail to render. */
  lemma NonStringLineBreaksCard(liveDate: string)
    ensures ProcessedLinesAsWritten(SafeLines(Some(JArr([JStr("SCAN"), JNum(42.0)]))), liveDate).None?
  {
    assert !SafeLines(Some(JArr([JStr("SCAN"), JNum(42.0)])))[1].JStr?;
  }

  /** The rewriting with each line first converted to its text, as React
      shows a line of any other type; for strings it is the same. */
  function ProcessedLines(env: Foreign, lines: seq<Json>, liveDate: string): (r: seq<string>)
    ensures |r| == |lines|
    ensures forall i :: 0 <= i < |lines| ==> r[i] == CleanLine(ElementText(env, lines[i]), liveDate)
  {
    seq(|lines|, i requires 0 <= i < |lines| => CleanLine(ElementText(env, lines[i]), liveDate))
  }

  /** Wherever the rewriting as written renders, the corrected one shows the
      same lines; and it always shows one line per input line. */
  lemma ProcessedLinesAgree(env: Foreign, lines: seq<Json>, liveDate: string)
    requires ProcessedLinesAsWritten(lines, liveDate).Some?
    ensures ProcessedLines(env, lines, liveDate) == ProcessedLinesAsWritten(lines, liveDate).value
  {
  }

  /** The displayed number of the line at index `i`: `String(i + 1)` padded
      to two digits with zeros. */
  function LineNumber(i: nat): string {
    Text.PadStart(Text.IntToString(i + 1), 2, '0')
  }

  /** Line numbers are at least two digits long and read back as `i + 1`. */
  lemma {:induction false} LineNumberValue(i: nat)
    ensures |LineNumber(i)| >= 2 && Text.AllDigits(LineNumber(i))
    ensures Text.DigitsValue(LineNumber(i)) == i + 1
    ensures i < 9 ==> LineNumber(i) == ['0', Text.DigitChar(i + 1)]
  {
    var s := Text.NatToString(i + 1);
    Text.NatToStringRoundTrip(i + 1);
    if |s| < 2 {
      assert |s| == 1;
      var r := LineNumber(i);
      assert r == ['0'] + s;
      assert r[..1] == ['0'];
      assert Text.DigitsValue(r[..1]) == 0 by {
        assert r[..1][..0] == [];
      }
      assert Text.DigitsValue(s) == Text.DigitValue(s[0]) by {
        assert s[..0] == [];
      }
      assert i + 1 < 10;
      assert s == [Text.DigitChar(i + 1)];
    } else {
      assert i + 1 >= 10;
    }
  }

  /** The whole card text. */
  datatype CardText = CardText(header: string, lines: seq<(string, string)>)

  function Card(env: Foreign, header: Option<Json>, lines: Option<Json>, liveDate: string): (c: CardText)
    ensures c.header == DisplayHeader(header)
    ensures |c.lines| == |SafeLines(lines)| > 0
    ensures forall i :: 0 <= i < |c.lines| ==>
      c.lines[i] == (LineNumber(i), CleanLine(ElementText(env, SafeLines(lines)[i]), liveDate))
  {
    var processed := ProcessedLines(env, SafeLines(lines), liveDate);
    CardText(DisplayHeader(header), seq(|processed|, i requires 0 <= i < |processed| => (LineNumber(i), processed[i])))
  }
}
