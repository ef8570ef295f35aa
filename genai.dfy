/** The prompt that the summary text is generated from: one sentence per
    asset, joined by single spaces. How a float is printed is a parameter
    `show`; the text generation model itself is not part of this model. */
module GenAi {

  /** One of the dictionaries the summary is built from. */
  datatype SummaryRow = SummaryRow(symbol: string, changePercent24h: real, averagePrice7d: real)

  /** `format_asset_summary`'s f-string for one record. */
  function Sentence(row: SummaryRow, show: real -> string): string {
    row.symbol + " had a " + show(row.changePercent24h) + "% change in the last 24 hours, "
      + "with a weekly average price of $" + show(row.averagePrice7d) + "."
  }

  /** `" ".join(parts)`. */
  function JoinSpaces(parts: seq<string>): string {
    if parts == [] then ""
    else if |parts| == 1 then parts[0]
    else parts[0] + " " + JoinSpaces(parts[1..])
  }

  function Sentences(rows: seq<SummaryRow>, show: real -> string): (r: seq<string>)
    ensures |r| == |rows|
    ensures forall i :: 0 <= i < |rows| ==> r[i] == Sentence(rows[i], show)
  {
    if rows == [] then [] else [Sentence(rows[0], show)] + Sentences(rows[1..], show)
  }

  /** `format_asset_summary`. */
  function FormatAssetSummary(rows: seq<SummaryRow>, show: real -> string): string {
    JoinSpaces(Sentences(rows, show))
  }

  /** Joining two non-empty lists is joining each and putting one space between. */
  lemma {:induction false} JoinSpacesAppend(a: seq<string>, b: seq<string>)
    requires a != [] && b != []
    decreases |a|
    ensures JoinSpaces(a + b) == JoinSpaces(a) + " " + JoinSpaces(b)
  {
    if |a| == 1 {
      assert (a + b)[1..] == b;
    } else {
      assert (a + b)[1..] == a[1..] + b;
      JoinSpacesAppend(a[1..], b);
    }
  }

  lemma {:induction false} SentencesAppend(a: seq<SummaryRow>, b: seq<SummaryRow>, show: real -> string)
    ensures Sentences(a + b, show) == Sentences(a, show) + Sentences(b, show)
  {
    var l, r := Sentences(a + b, show), Sentences(a, show) + Sentences(b, show);
    assert |l| == |r|;
    forall i | 0 <= i < |l| ensures l[i] == r[i] {
      if i < |a| { assert (a + b)[i] == a[i]; } else { assert (a + b)[i] == b[i - |a|]; }
    }
  }

  /** The summary of two non-empty lists of records is the summary of the
      first, one space, and the summary of the second: one sentence per
      record, in input order. */
  lemma FormatAssetSummaryAppend(a: seq<SummaryRow>, b: seq<SummaryRow>, show: real -> string)
    requires a != [] && b != []
    ensures FormatAssetSummary(a + b, show)
      == FormatAssetSummary(a, show) + " " + FormatAssetSummary(b, show)
  {
    SentencesAppend(a, b, show);
    JoinSpacesAppend(Sentences(a, show), Sentences(b, show));
  }

  /** No records give the empty string, and one record gives its sentence alone. */
  lemma FormatAssetSummaryShort(row: SummaryRow, show: real -> string)
    ensures FormatAssetSummary([], show) == ""
    ensures FormatAssetSummary([row], show) == Sentence(row, show)
  {
  }

  /** The summary is the first record's sentence followed by the summary of the rest. */
  lemma FormatAssetSummaryCons(rows: seq<SummaryRow>, show: real -> string)
    requires |rows| >= 2
    ensures FormatAssetSummary(rows, show)
      == Sentence(rows[0], show) + " " + FormatAssetSummary(rows[1..], show)
  {
    assert rows == [rows[0]] + rows[1..];
    FormatAssetSummaryAppend([rows[0]], rows[1..], show);
  }

  /** Each sentence, and so a non-empty summary, starts with the record's symbol. */
  lemma SummaryStartsWithSymbol(rows: seq<SummaryRow>, show: real -> string)
    requires rows != []
    ensures rows[0].symbol <= Sentence(rows[0], show)
    ensures rows[0].symbol <= FormatAssetSummary(rows, show)
  {
    var s := Sentence(rows[0], show);
    assert s == rows[0].symbol + s[|rows[0].symbol|..];
    if |rows| >= 2 {
      FormatAssetSummaryCons(rows, show);
      assert FormatAssetSummary(rows, show) == s + (" " + FormatAssetSummary(rows[1..], show));
    }
  }

  lemma BtcFirstHalf()
    ensures "BTC" + " had a " + "5.0" + "% change in the last 24 hours, "
      == "BTC had a 5.0% change in the last 24 hours, "
  {
  }

  lemma BtcSecondHalf()
    ensures "with a weekly average price of $" + "48000.0" + "." == "with a weekly average price of $48000.0."
  {
  }

  /** The first case of the summary test: with floats shown as Python shows
      5.0 and 48000.0, the sentence is the expected one (written here in the
      two halves of the f-string). */
  lemma BtcSentence(show: real -> string)
    requires show(5.0) == "5.0" && show(48000.0) == "48000.0"
    ensures FormatAssetSummary([SummaryRow("BTC", 5.0, 48000.0)], show)
      == "BTC had a 5.0% change in the last 24 hours, " + "with a weekly average price of $48000.0."
  {
    var row := SummaryRow("BTC", 5.0, 48000.0);
    assert Sentences([row], show) == [Sentence(row, show)];
    BtcFirstHalf();
    BtcSecondHalf();
    assert Sentence(row, show)
      == ("BTC" + " had a " + "5.0" + "% change in the last 24 hours, ")
         + ("with a weekly average price of $" + "48000.0" + ".");
  }
}
