/**
 * The per-field extraction rules of `parse_outerbox`: the draw-date
 * pattern, the draw-number cleanup and the special/consolation lists.
 */
module Fields {
  import opened Wrappers
  import opened Seqs
  import opened PyStr
  import opened Markup

  /** The label removed from the draw-number cell. */
  const DRAW_NO_LABEL := "Draw No:"
  /** The placeholder the page shows in an unfilled prize cell. */
  const NO_NUMBER := "----"
  /** The class of the cells holding the special and consolation numbers. */
  const BOTTOM_CLASS := "resultbottom"

  predicate IsAsciiDigit(c: char) {
    '0' <= c <= '9'
  }

  /** The pattern `\d{2}-\d{2}-\d{4}` (ASCII digits) matches `s` at index `i`. */
  predicate DateAt(s: string, i: nat) {
    && i + 10 <= |s|
    && IsAsciiDigit(s[i]) && IsAsciiDigit(s[i + 1])
    && s[i + 2] == '-'
    && IsAsciiDigit(s[i + 3]) && IsAsciiDigit(s[i + 4])
    && s[i + 5] == '-'
    && IsAsciiDigit(s[i + 6]) && IsAsciiDigit(s[i + 7]) && IsAsciiDigit(s[i + 8]) && IsAsciiDigit(s[i + 9])
  }

  /** `re.search` for the date pattern from index `from`: the leftmost index where it matches. */
  function FindDate(s: string, from: nat): (r: Option<nat>)
    ensures r.Some? ==> from <= r.value && DateAt(s, r.value)
    ensures r.Some? ==> forall j: nat | from <= j < r.value :: !DateAt(s, j)
    ensures r.None? ==> forall j: nat | from <= j :: !DateAt(s, j)
    decreases |s| - from
  {
    if from + 10 > |s| then None
    else if DateAt(s, from) then Some(from)
    else FindDate(s, from + 1)
  }

  /** `match.group(1)` of the date search, or `""` when the pattern matches nowhere. */
  function LeftmostDate(s: string): string {
    match FindDate(s, 0)
    case None => ""
    case Some(i) => s[i..i + 10]
  }

  /**
   * The date is `""` exactly when the pattern matches nowhere; otherwise it
   * is the 10 characters of the leftmost match, so it has the pattern's shape.
   */
  lemma LeftmostDateSpec(s: string)
    ensures LeftmostDate(s) == "" <==> forall j: nat :: !DateAt(s, j)
    ensures LeftmostDate(s) != "" ==> |LeftmostDate(s)| == 10 && DateAt(LeftmostDate(s), 0)
    ensures LeftmostDate(s) != "" ==>
      exists i: nat :: DateAt(s, i) && LeftmostDate(s) == s[i..i + 10] && forall j: nat | j < i :: !DateAt(s, j)
  {
    match FindDate(s, 0)
    case None =>
    case Some(i) =>
      assert DateAt(s, i);
  }

  /** `text.replace("Draw No:", "").strip()`. */
  function DrawNumber(text: string): string {
    Strip(RemoveAll(text, DRAW_NO_LABEL))
  }

  /** A draw-number cell reading `Draw No:` followed by the number yields the number, stripped. */
  lemma DrawNumberOfLabelled(number: string)
    requires !Contains(number, DRAW_NO_LABEL)
    ensures DrawNumber(DRAW_NO_LABEL + number) == Strip(number)
  {
    RemoveAllLeading(DRAW_NO_LABEL, number);
    RemoveAllAbsent(number, DRAW_NO_LABEL);
  }

  /** A cell without the label is only stripped. */
  lemma DrawNumberUnlabelled(text: string)
    requires !Contains(text, DRAW_NO_LABEL)
    ensures DrawNumber(text) == Strip(text)
  {
    RemoveAllAbsent(text, DRAW_NO_LABEL);
  }

  /** `if num and num != "----"`: a prize cell text that is kept. */
  predicate IsKeptNumber(t: string) {
    t != "" && t != NO_NUMBER
  }

  /** Python's `rows[1:]`: every row but the header row. */
  function TailRows(rows: seq<Row>): seq<Row> {
    if rows == [] then [] else rows[1..]
  }

  /** The stripped texts of the `resultbottom` cells of one row, in order. */
  function RowTexts(row: Row): seq<string> {
    Texts(CellsWithClass(row.cells, BOTTOM_CLASS))
  }

  /** The stripped texts of the `resultbottom` cells of the given rows, row after row. */
  function BottomTexts(rows: seq<Row>): seq<string> {
    if rows == [] then [] else BottomTexts(rows[..|rows| - 1]) + RowTexts(rows[|rows| - 1])
  }

  /** The prize numbers a labelled table contributes. */
  function PrizeNumbers(table: Table): seq<string> {
    Filter(BottomTexts(TailRows(table.rows)), IsKeptNumber)
  }

  /**
   * The numbers are the `resultbottom` texts of the rows after the header
   * row, in order, keeping each text that is neither empty nor `----` as
   * often as it occurs and dropping every other.
   */
  lemma PrizeNumbersSpec(table: Table)
    ensures forall i | 0 <= i < |PrizeNumbers(table)| :: PrizeNumbers(table)[i] != "" && PrizeNumbers(table)[i] != NO_NUMBER
    ensures forall t :: t in PrizeNumbers(table) <==> t in BottomTexts(TailRows(table.rows)) && IsKeptNumber(t)
    ensures forall t :: multiset(PrizeNumbers(table))[t] == if IsKeptNumber(t) then multiset(BottomTexts(TailRows(table.rows)))[t] else 0
    ensures IsSubsequence(PrizeNumbers(table), BottomTexts(TailRows(table.rows)))
    ensures |PrizeNumbers(table)| <= |BottomTexts(TailRows(table.rows))|
  {
    var texts := BottomTexts(TailRows(table.rows));
    forall t
      ensures t in PrizeNumbers(table) <==> t in texts && IsKeptNumber(t)
      ensures multiset(PrizeNumbers(table))[t] == if IsKeptNumber(t) then multiset(texts)[t] else 0
    {
      FilterMembership(texts, IsKeptNumber, t);
      FilterMultiplicity(texts, IsKeptNumber, t);
    }
    FilterIsSubsequence(texts, IsKeptNumber);
  }

  /** The header row never contributes a number. */
  lemma PrizeNumbersSkipHeader(header: Row, body: seq<Row>)
    ensures PrizeNumbers(Table([header] + body)) == Filter(BottomTexts(body), IsKeptNumber)
  {
    assert ([header] + body)[1..] == body;
  }

  /** One more cell of a row: its text is appended when it is kept. */
  lemma KeptTextsStep(tds: seq<Cell>, m: nat)
    requires m < |tds|
    ensures IsKeptNumber(tds[m].StrippedText()) ==>
      Filter(Texts(tds[..m + 1]), IsKeptNumber) == Filter(Texts(tds[..m]), IsKeptNumber) + [tds[m].StrippedText()]
    ensures !IsKeptNumber(tds[m].StrippedText()) ==>
      Filter(Texts(tds[..m + 1]), IsKeptNumber) == Filter(Texts(tds[..m]), IsKeptNumber)
  {
    TextsSnoc(tds, m);
    FilterSnoc(Texts(tds[..m]), tds[m].StrippedText(), IsKeptNumber);
  }

  /** One more row: the numbers kept from its cells are appended. */
  lemma KeptRowsStep(rows: seq<Row>, k: nat)
    requires k < |rows|
    ensures Filter(BottomTexts(rows[..k + 1]), IsKeptNumber)
         == Filter(BottomTexts(rows[..k]), IsKeptNumber) + Filter(RowTexts(rows[k]), IsKeptNumber)
  {
    assert rows[..k + 1][..k] == rows[..k];
    FilterAppend(BottomTexts(rows[..k]), RowTexts(rows[k]), IsKeptNumber);
  }

  /** The inner loop over one row's `resultbottom` cells: appends the kept texts to `numbers`. */
  method AppendRowNumbers(numbers: seq<string>, tds: seq<Cell>) returns (out: seq<string>)
    ensures out == numbers + Filter(Texts(tds), IsKeptNumber)
  {
    out := numbers;
    for m := 0 to |tds|
      invariant out == numbers + Filter(Texts(tds[..m]), IsKeptNumber)
    {
      var num := tds[m].StrippedText();
      KeptTextsStep(tds, m);
      if IsKeptNumber(num) {
        out := out + [num];
      }
    }
    assert tds[..|tds|] == tds;
  }

  /** The nested loops that collect one list: every row after the header, every `resultbottom` cell in it. */
  method CollectPrizeNumbers(table: Table) returns (numbers: seq<string>)
    ensures numbers == PrizeNumbers(table)
  {
    var rows := TailRows(table.rows);
    numbers := [];
    for k := 0 to |rows|
      invariant numbers == Filter(BottomTexts(rows[..k]), IsKeptNumber)
    {
      var tds := CellsWithClass(rows[k].cells, BOTTOM_CLASS);
      numbers := AppendRowNumbers(numbers, tds);
      KeptRowsStep(rows, k);
    }
    assert rows[..|rows|] == rows;
  }
}
