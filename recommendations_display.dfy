/**
 * RecommendationsDisplay: the result panel of a finished campaign. Its display
 * helpers (duration, fit-score colour, confidence badge), the CSV export's rows and
 * text, the render guard and the one-row-at-a-time "Show Details" toggle.
 */
module RecommendationsView {
  import opened Wrappers
  import opened Lifecycle
  import opened Text
  import opened CampaignTypes
  import opened ContextBinding
  import CampaignContext

  // ----- display helpers -----

  /** formatDuration: whole seconds, rounded down, followed by 's'. */
  function FormatDuration(ms: int): (r: string)
    ensures |r| >= 2 && r[|r| - 1] == 's'
    ensures IsIntString(r[..|r| - 1])
    ensures IntValue(r[..|r| - 1]) * 1000 <= ms < IntValue(r[..|r| - 1]) * 1000 + 1000
  {
    var seconds := ms / 1000;
    IntStringRoundTrip(seconds);
    var r := IntString(seconds) + "s";
    assert r[..|r| - 1] == IntString(seconds);
    r
  }

  const FitHigh := "bg-green-500"
  const FitMedium := "bg-yellow-500"
  const FitLow := "bg-orange-500"

  /** getFitScoreColor */
  function FitScoreColor(score: int): string
  {
    if score >= 80 then FitHigh
    else if score >= 60 then FitMedium
    else FitLow
  }

  /** The three colours split the scores into the bands [80, ∞), [60, 80) and (-∞, 60). */
  lemma FitScoreBands(score: int)
    ensures FitScoreColor(score) == FitHigh <==> score >= 80
    ensures FitScoreColor(score) == FitMedium <==> 60 <= score < 80
    ensures FitScoreColor(score) == FitLow <==> score < 60
  {
    assert FitHigh[3] != FitMedium[3] && FitHigh[3] != FitLow[3] && FitMedium[3] != FitLow[3];
  }

  /** A higher score never gets a lower band. */
  lemma FitScoreMonotone(a: int, b: int)
    requires a <= b
    ensures FitScoreColor(a) == FitHigh ==> FitScoreColor(b) == FitHigh
    ensures FitScoreColor(a) == FitMedium ==> FitScoreColor(b) != FitLow
  {
    FitScoreBands(a);
    FitScoreBands(b);
  }

  datatype Level = High | Medium | Low

  /** The `{ label, color }` pair (`label` is `caption` here) getConfidenceBadge returns. */
  datatype Badge = Badge(caption: string, color: string)

  function LevelBadge(l: Level): Badge
  {
    match l
    case High => Badge("High", "bg-green-100 text-green-700")
    case Medium => Badge("Medium", "bg-yellow-100 text-yellow-700")
    case Low => Badge("Low", "bg-orange-100 text-orange-700")
  }

  /** getConfidenceBadge: the confidence as an exact decimal, compared with 0.8 and then 0.6. */
  function ConfidenceBadge(confidence: real): Badge
  {
    if confidence >= 0.8 then LevelBadge(High)
    else if confidence >= 0.6 then LevelBadge(Medium)
    else LevelBadge(Low)
  }

  /** The badge is High from 0.8 on, Medium on [0.6, 0.8) and Low below 0.6. */
  lemma ConfidenceBands(confidence: real)
    ensures ConfidenceBadge(confidence) == LevelBadge(High) <==> confidence >= 0.8
    ensures ConfidenceBadge(confidence) == LevelBadge(Medium) <==> 0.6 <= confidence < 0.8
    ensures ConfidenceBadge(confidence) == LevelBadge(Low) <==> confidence < 0.6
  {
  }

  // ----- the CSV export -----

  const Header: seq<string> := [
    "Influencer ID", "Platform", "Fit Score", "Confidence", "Rationale",
    "Predicted Likes", "Predicted Comments", "Predicted Shares", "Predicted Views"
  ]

  /**
   * One recommendation's nine cells. `confidenceText` is the number-to-string
   * conversion of the confidence, which the model does not spell out.
   */
  function RecordCells(rec: Recommendation, confidenceText: real -> string): (cells: seq<string>)
    ensures |cells| == |Header|
  {
    [ rec.influencerId,
      PlatformName(rec.platform),
      IntString(rec.fitScore),
      confidenceText(rec.confidence),
      rec.rationale,
      IntString(rec.predictedEngagement.likes),
      IntString(rec.predictedEngagement.comments),
      IntString(rec.predictedEngagement.shares),
      IntString(rec.predictedEngagement.views) ]
  }

  function DataRows(recs: seq<Recommendation>, confidenceText: real -> string): (rows: seq<seq<string>>)
    ensures |rows| == |recs|
    ensures forall i :: 0 <= i < |recs| ==> rows[i] == RecordCells(recs[i], confidenceText)
  {
    if recs == [] then [] else [RecordCells(recs[0], confidenceText)] + DataRows(recs[1..], confidenceText)
  }

  /** csvRows: the header, then one row per recommendation in ranking order. */
  function ExportRows(results: CampaignResults, confidenceText: real -> string): (rows: seq<seq<string>>)
    ensures |rows| == 1 + |results.recommendations|
    ensures rows[0] == Header
    ensures forall i :: 0 <= i < |results.recommendations| ==>
      rows[i + 1] == RecordCells(results.recommendations[i], confidenceText)
    ensures forall i :: 0 <= i < |rows| ==> |rows[i]| == 9
  {
    [Header] + DataRows(results.recommendations, confidenceText)
  }

  /** Each quote doubled, as section 2 of RFC 4180 asks of a quoted field. */
  function EscapeQuotes(cell: string): string
  {
    if cell == [] then []
    else if cell[0] == '"' then "\"\"" + EscapeQuotes(cell[1..])
    else [cell[0]] + EscapeQuotes(cell[1..])
  }

  lemma {:induction false} EscapeQuotesNoop(cell: string)
    requires '"' !in cell
    ensures EscapeQuotes(cell) == cell
  {
    if cell != [] {
      EscapeQuotesNoop(cell[1..]);
    }
  }

  /** `"${cell}"`, or with its quotes doubled when `escape` is set. */
  function Quote(cell: string, escape: bool): string
  {
    "\"" + (if escape then EscapeQuotes(cell) else cell) + "\""
  }

  function QuoteAll(row: seq<string>, escape: bool): (q: seq<string>)
    ensures |q| == |row|
    ensures forall i :: 0 <= i < |row| ==> q[i] == Quote(row[i], escape)
  {
    if row == [] then [] else [Quote(row[0], escape)] + QuoteAll(row[1..], escape)
  }

  /** `row.map(cell => ...).join(',')` */
  function RowLine(row: seq<string>, escape: bool): string
  {
    Join(QuoteAll(row, escape), ',')
  }

  function RowLines(rows: seq<seq<string>>, escape: bool): (lines: seq<string>)
    ensures |lines| == |rows|
    ensures forall i :: 0 <= i < |rows| ==> lines[i] == RowLine(rows[i], escape)
  {
    if rows == [] then [] else [RowLine(rows[0], escape)] + RowLines(rows[1..], escape)
  }

  /** csvContent as written: every cell in quotes, with no escaping. */
  function CsvText(rows: seq<seq<string>>): string
  {
    Join(RowLines(rows, false), '\n')
  }

  /** csvContent with embedded quotes doubled. */
  function EscapedCsvText(rows: seq<seq<string>>): string
  {
    Join(RowLines(rows, true), '\n')
  }

  // ----- reading a CSV text back, as section 2 of RFC 4180 reads quoted fields -----

  /** A value read off the front of a text, and the text after it. */
  datatype Cut<T> = Cut(value: T, rest: string)

  function Prepend(c: char, o: Option<Cut<string>>): Option<Cut<string>>
  {
    match o
    case None => None
    case Some(Cut(v, rest)) => Some(Cut([c] + v, rest))
  }

  /** The body of a quoted field, up to the closing quote; a doubled quote stands for one quote. */
  function ReadQuoted(s: string): (r: Option<Cut<string>>)
    ensures r.Some? ==> |r.value.rest| < |s|
  {
    if s == [] then None
    else if s[0] == '"' then
      if |s| >= 2 && s[1] == '"' then Prepend('"', ReadQuoted(s[2..])) else Some(Cut([], s[1..]))
    else Prepend(s[0], ReadQuoted(s[1..]))
  }

  function ReadCell(s: string): (r: Option<Cut<string>>)
    ensures r.Some? ==> |r.value.rest| < |s|
  {
    if s != [] && s[0] == '"' then ReadQuoted(s[1..]) else None
  }

  /** Quoted fields separated by ',', up to the end of the line. */
  function ReadRow(s: string): (r: Option<Cut<seq<string>>>)
    ensures r.Some? ==> |r.value.rest| < |s|
    decreases |s|
  {
    match ReadCell(s)
    case None => None
    case Some(Cut(cell, rest)) =>
      if rest != [] && rest[0] == ',' then
        match ReadRow(rest[1..])
        case None => None
        case Some(Cut(cells, after)) => Some(Cut([cell] + cells, after))
      else Some(Cut([cell], rest))
  }

  /** Rows separated by '\n', to the end of the text. */
  function ReadRows(s: string): Option<seq<seq<string>>>
    decreases |s|
  {
    match ReadRow(s)
    case None => None
    case Some(Cut(cells, rest)) =>
      if rest == [] then Some([cells])
      else if rest[0] == '\n' then
        match ReadRows(rest[1..])
        case None => None
        case Some(rows) => Some([cells] + rows)
      else None
  }

  /** What may follow a closing quote without being read as part of the field. */
  predicate EndsField(t: string)
  {
    t == [] || t[0] != '"'
  }

  lemma {:induction false} ReadQuotedEscaped(cell: string, t: string)
    requires EndsField(t)
    ensures ReadQuoted(EscapeQuotes(cell) + "\"" + t) == Some(Cut(cell, t))
  {
    var s := EscapeQuotes(cell) + "\"" + t;
    if cell == [] {
      assert s == ['"'] + t;
      assert s[1..] == t;
    } else {
      ReadQuotedEscaped(cell[1..], t);
      ReadQuotedStep(cell, t);
    }
  }

  /** One character of the cell, escaped, is read back before the rest of the field. */
  lemma ReadQuotedStep(cell: string, t: string)
    requires cell != []
    requires ReadQuoted(EscapeQuotes(cell[1..]) + "\"" + t) == Some(Cut(cell[1..], t))
    ensures ReadQuoted(EscapeQuotes(cell) + "\"" + t) == Some(Cut(cell, t))
  {
    var more := EscapeQuotes(cell[1..]) + "\"" + t;
    var c := cell[0];
    assert ReadQuoted(EscapeQuotes(cell) + "\"" + t) == Prepend(c, ReadQuoted(more)) by {
      if c == '"' {
        var s := ['"', '"'] + more;
        assert EscapeQuotes(cell) + "\"" + t == s;
        assert s[0] == '"' && s[1] == '"' && s[2..] == more;
      } else {
        var s := [c] + more;
        assert EscapeQuotes(cell) + "\"" + t == s;
        assert s[0] == c && s[1..] == more;
      }
    }
    assert [c] + cell[1..] == cell;
  }

  /** The cells need no escaping, or are escaped. */
  predicate Readable(row: seq<string>, escape: bool)
  {
    escape || forall i :: 0 <= i < |row| ==> '"' !in row[i]
  }

  lemma ReadCellQuoted(cell: string, escape: bool, t: string)
    requires Readable([cell], escape)
    requires EndsField(t)
    ensures ReadCell(Quote(cell, escape) + t) == Some(Cut(cell, t))
  {
    if !escape {
      assert '"' !in [cell][0];
      EscapeQuotesNoop(cell);
    }
    ReadQuotedEscaped(cell, t);
    assert Quote(cell, escape) + t == "\"" + (EscapeQuotes(cell) + "\"" + t);
  }

  /** A row line is read back cell for cell, and reading stops where the line ends. */
  lemma {:induction false} ReadRowLine(row: seq<string>, escape: bool, t: string)
    requires |row| >= 1
    requires Readable(row, escape)
    requires t == [] || (t[0] != ',' && t[0] != '"')
    ensures ReadRow(RowLine(row, escape) + t) == Some(Cut(row, t))
  {
    ReadableParts(row, escape);
    if |row| == 1 {
      assert QuoteAll(row, escape) == [Quote(row[0], escape)];
      ReadCellQuoted(row[0], escape, t);
      assert [row[0]] == row;
    } else {
      var tail := RowLine(row[1..], escape) + t;
      RowLineCons(row, escape);
      assert RowLine(row, escape) + t == Quote(row[0], escape) + ([','] + tail);
      ReadRowLine(row[1..], escape, t);
      ReadRowCons(row[0], escape, tail, row[1..], t);
      assert [row[0]] + row[1..] == row;
    }
  }

  lemma ReadableParts(row: seq<string>, escape: bool)
    requires |row| >= 1
    requires Readable(row, escape)
    ensures Readable([row[0]], escape) && Readable(row[1..], escape)
  {
    if !escape {
      assert [row[0]][0] == row[0];
      forall i | 0 <= i < |row[1..]| ensures '"' !in row[1..][i] {
        assert row[1..][i] == row[i + 1];
      }
    }
  }

  /** A line of two or more cells is the first quoted cell, a comma and the line of the others. */
  lemma RowLineCons(row: seq<string>, escape: bool)
    requires |row| >= 2
    ensures RowLine(row, escape) == Quote(row[0], escape) + [','] + RowLine(row[1..], escape)
  {
    assert QuoteAll(row[1..], escape) == QuoteAll(row, escape)[1..];
  }

  /** A readable cell followed by a comma is read, and reading goes on after the comma. */
  lemma ReadRowCons(cell: string, escape: bool, tail: string, cells: seq<string>, t: string)
    requires Readable([cell], escape)
    requires ReadRow(tail) == Some(Cut(cells, t))
    ensures ReadRow(Quote(cell, escape) + ([','] + tail)) == Some(Cut([cell] + cells, t))
  {
    ReadCellQuoted(cell, escape, [','] + tail);
    assert ([','] + tail)[1..] == tail;
  }

  /** Every row has a cell and all of them are readable. */
  predicate Well(rows: seq<seq<string>>, escape: bool)
  {
    forall i :: 0 <= i < |rows| ==> |rows[i]| >= 1 && Readable(rows[i], escape)
  }

  lemma {:induction false} ReadRowsLines(rows: seq<seq<string>>, escape: bool)
    requires |rows| >= 1
    requires Well(rows, escape)
    ensures ReadRows(Join(RowLines(rows, escape), '\n')) == Some(rows)
  {
    if |rows| == 1 {
      assert RowLines(rows, escape) == [RowLine(rows[0], escape)];
      ReadRowLine(rows[0], escape, []);
      assert RowLine(rows[0], escape) + [] == RowLine(rows[0], escape);
      assert [rows[0]] == rows;
    } else {
      var tail := Join(RowLines(rows[1..], escape), '\n');
      LinesCons(rows, escape);
      WellTail(rows, escape);
      ReadRowsLines(rows[1..], escape);
      ReadRowsCons(rows[0], escape, tail, rows[1..]);
      assert [rows[0]] + rows[1..] == rows;
    }
  }

  /** A text of two or more lines is the first line, a newline and the text of the others. */
  lemma LinesCons(rows: seq<seq<string>>, escape: bool)
    requires |rows| >= 2
    ensures Join(RowLines(rows, escape), '\n') == RowLine(rows[0], escape) + (['\n'] + Join(RowLines(rows[1..], escape), '\n'))
  {
    assert RowLines(rows[1..], escape) == RowLines(rows, escape)[1..];
  }

  lemma WellTail(rows: seq<seq<string>>, escape: bool)
    requires |rows| >= 1
    requires Well(rows, escape)
    ensures |rows[0]| >= 1 && Readable(rows[0], escape) && Well(rows[1..], escape)
  {
    forall i | 0 <= i < |rows[1..]| ensures |rows[1..][i]| >= 1 && Readable(rows[1..][i], escape) {
      assert rows[1..][i] == rows[i + 1];
    }
  }

  /** A readable row followed by a newline is read, and reading goes on after the newline. */
  lemma ReadRowsCons(row: seq<string>, escape: bool, tail: string, rows: seq<seq<string>>)
    requires |row| >= 1
    requires Readable(row, escape)
    requires ReadRows(tail) == Some(rows)
    ensures ReadRows(RowLine(row, escape) + (['\n'] + tail)) == Some([row] + rows)
  {
    ReadRowLine(row, escape, ['\n'] + tail);
    assert (['\n'] + tail)[1..] == tail;
  }

  /** As written, the export reads back as the rows it was made from when no cell holds a quote. */
  lemma CsvRoundTripWithoutQuotes(rows: seq<seq<string>>)
    requires |rows| >= 1
    requires Well(rows, false)
    ensures ReadRows(CsvText(rows)) == Some(rows)
  {
    ReadRowsLines(rows, false);
  }

  /** As written, one quote inside a cell ends the field early and the text no longer reads as CSV. */
  lemma CsvQuoteInCellBreaksRow()
    ensures ReadRows(CsvText([["a\"b"]])) == None
  {
    var cell := "a\"b";
    var line := "\"a\"b\"";
    assert Quote(cell, false) == line;
    assert QuoteAll([cell], false) == [line];
    assert RowLines([[cell]], false) == [line];
    assert CsvText([[cell]]) == line;
    assert line[1..] == "a\"b\"";
    assert "a\"b\""[1..] == "\"b\"";
    assert "\"b\""[1..] == "b\"";
    assert ReadQuoted("\"b\"") == Some(Cut([], "b\""));
    assert ['a'] + [] == "a";
    assert ReadQuoted("a\"b\"") == Some(Cut("a", "b\""));
    assert ReadRow(line) == Some(Cut(["a"], "b\""));
  }

  /** With quotes doubled, every export reads back as the rows it was made from. */
  lemma EscapedCsvRoundTrip(rows: seq<seq<string>>)
    requires |rows| >= 1
    requires forall i :: 0 <= i < |rows| ==> |rows[i]| >= 1
    ensures ReadRows(EscapedCsvText(rows)) == Some(rows)
  {
    ReadRowsLines(rows, true);
  }

  /** No number or platform cell holds a quote, so only the id and the rationale can break the export. */
  lemma ExportReadsBack(results: CampaignResults, confidenceText: real -> string)
    requires forall c :: '"' !in confidenceText(c)
    requires forall i :: 0 <= i < |results.recommendations| ==>
      '"' !in results.recommendations[i].influencerId && '"' !in results.recommendations[i].rationale
    ensures ReadRows(CsvText(ExportRows(results, confidenceText))) == Some(ExportRows(results, confidenceText))
  {
    var rows := ExportRows(results, confidenceText);
    forall i | 0 <= i < |rows| ensures |rows[i]| >= 1 && Readable(rows[i], false) {
      if i == 0 {
        HeaderReadable();
      } else {
        RecordCellsReadable(results.recommendations[i - 1], confidenceText);
      }
    }
    CsvRoundTripWithoutQuotes(rows);
  }

  /** With quotes doubled, the export of any campaign reads back as its rows, whatever the ids and rationales hold. */
  lemma EscapedExportReadsBack(results: CampaignResults, confidenceText: real -> string)
    ensures ReadRows(EscapedCsvText(ExportRows(results, confidenceText))) == Some(ExportRows(results, confidenceText))
  {
    EscapedCsvRoundTrip(ExportRows(results, confidenceText));
  }

  lemma HeaderReadable()
    ensures Readable(Header, false)
  {
  }

  lemma RecordCellsReadable(rec: Recommendation, confidenceText: real -> string)
    requires '"' !in confidenceText(rec.confidence)
    requires '"' !in rec.influencerId && '"' !in rec.rationale
    ensures Readable(RecordCells(rec, confidenceText), false)
  {
    var cells := RecordCells(rec, confidenceText);
    IntStringHasNoQuote(rec.fitScore);
    IntStringHasNoQuote(rec.predictedEngagement.likes);
    IntStringHasNoQuote(rec.predictedEngagement.comments);
    IntStringHasNoQuote(rec.predictedEngagement.shares);
    IntStringHasNoQuote(rec.predictedEngagement.views);
    assert '"' !in PlatformName(rec.platform);
  }

  lemma IntStringHasNoQuote(i: int)
    ensures '"' !in IntString(i)
  {
  }

  // ----- the component -----

  /** The render guard over the bound values: `state !== 'done' || !results` renders nothing. */
  predicate RendersWith(state: JsValue, results: JsValue)
  {
    !(!StrictEquals(state, "done") || !Truthy(results))
  }

  /** As written: `state` is the context record and `results` is not a property of the context value. */
  predicate RendersAsWritten(s: CampaignState)
  {
    RendersWith(CampaignBindingAsWritten(s, "state"), CampaignBindingAsWritten(s, "results"))
  }

  /** As intended: the phase and the record's results. */
  predicate Renders(s: CampaignState)
  {
    RendersWith(CampaignBinding(s, "state"), CampaignBinding(s, "results"))
  }

  /** As written, the panel never renders, not even for a finished campaign. */
  lemma NeverRendersAsWritten(s: CampaignState)
    ensures !RendersAsWritten(s)
    ensures s.phase == Done && s.results.Some? ==> Renders(s) != RendersAsWritten(s)
  {
    PhaseComparison(s.phase, Done);
  }

  /** As intended, the panel shows exactly the finished campaigns, which always hold results. */
  lemma RendersIffDone(s: CampaignState)
    requires CampaignContext.Consistent(s)
    ensures Renders(s) <==> s.phase == Done
  {
    PhaseComparison(s.phase, Done);
  }

  /** The "Show Details" button: close the clicked row if it is open, otherwise open it (closing any other). */
  function ToggleExpanded(expanded: Option<string>, id: string): (r: Option<string>)
    ensures r == Some(id) <==> expanded != Some(id)
    ensures r.Some? ==> r == Some(id)
  {
    if expanded == Some(id) then None else Some(id)
  }

  predicate IsExpanded(expanded: Option<string>, rec: Recommendation)
  {
    expanded == Some(rec.influencerId)
  }

  /** Clicking the same row twice gives back the closed panel or the previous choice. */
  lemma ToggleTwice(expanded: Option<string>, id: string)
    ensures ToggleExpanded(ToggleExpanded(expanded, id), id) == (if expanded == Some(id) then Some(id) else None)
  {
  }

  /** With distinct influencer ids, at most one row is expanded at a time. */
  lemma AtMostOneExpanded(recs: seq<Recommendation>, expanded: Option<string>, i: int, j: int)
    requires forall a, b :: 0 <= a < b < |recs| ==> recs[a].influencerId != recs[b].influencerId
    requires 0 <= i < |recs| && 0 <= j < |recs|
    requires IsExpanded(expanded, recs[i]) && IsExpanded(expanded, recs[j])
    ensures i == j
  {
  }
}
