/**
 * The result extraction of the 4D crawler: the table of companies, the
 * parse of one result box into a draw record, and the search for the box
 * of one company.
 */
module Crawler {
  import opened Wrappers
  import opened Seqs
  import opened PyStr
  import opened Markup
  import opened Fields

  /** How a company's result box is recognised: the class of its name cell and the name shown in it. */
  datatype CompanyConfig = CompanyConfig(tableClass: string, name: string)

  const COMPANY_CONFIG: map<string, CompanyConfig> := map[
    "damacai" := CompanyConfig("resultdamacailable", "Damacai 4D"),
    "magnum" := CompanyConfig("resultm4dlable", "Magnum 4D"),
    "toto" := CompanyConfig("resulttotolable", "Toto 4D"),
    "singapore" := CompanyConfig("resultsabahlable", "Singapore 4D"),
    "damacai_1p3d" := CompanyConfig("resultdamacailable", "Da Ma Cai 1+3D"),
    "sandakan" := CompanyConfig("resultstc4dlable", "Sandakan 4D"),
    "sarawak_cashsweep" := CompanyConfig("resultsteclable", "Cashweep 4D"),
    "sabah" := CompanyConfig("resultsabahlable", "Sabah88 4D"),
    "sabah_lotto" := CompanyConfig("resultsabahlable", "Sabah Lotto"),
    "sportstoto_fireball" := CompanyConfig("resulttotolable", "SportsToto Fireball"),
    "grand_dragon" := CompanyConfig("resultdamacailable", "Grand Dragon"),
    "singapore_toto" := CompanyConfig("resultsabahlable", "Singapore Toto"),
    "sportstoto_lotto" := CompanyConfig("resulttotolable", "SportsToto Lotto"),
    "magnum_jackpot_gold" := CompanyConfig("resultm4dlable", "Magnum Jackpot Gold"),
    "sportstoto_5d" := CompanyConfig("resulttotolable", "SportsToto 5D"),
    "sportstoto_6d" := CompanyConfig("resulttotolable", "SportsToto 6D"),
    "magnum_life" := CompanyConfig("resultm4dlable", "Magnum Life")
  ]

  /** The companies whose record is tagged with its own key. */
  const TYPED_KEYS: seq<string> := [
    "sportstoto_5d", "sportstoto_6d", "sportstoto_lotto", "singapore_toto", "magnum_jackpot_gold", "magnum_life"
  ]

  const DATE_CLASS := "resultdrawdate"
  const TOP_CLASS := "resulttop"
  const SPECIAL_LABELS := ["Special", "特別獎"]
  const CONSOLATION_LABELS := ["Consolation", "安慰獎"]

  /** The record `parse_outerbox` returns; `kind` is its `type` entry. */
  datatype DrawResult = DrawResult(
    drawDate: string,
    drawNo: string,
    first: string,
    second: string,
    third: string,
    special: seq<string>,
    consolation: seq<string>,
    kind: Option<string>)

  /** The record before any field is filled in. */
  const EMPTY_RESULT := DrawResult("", "", "", "", "", [], [], None)

  /** The error `COMPANY_CONFIG[company_key]` raises for an unknown key. */
  datatype LookupError = KeyError(key: string)

  /** The first `resultdrawdate` cell of the box. */
  function DateCell(box: Outerbox): Option<nat> {
    FindCellFrom(box.cells, DATE_CLASS, 0)
  }

  /** `find_next` of a date cell: the next `resultdrawdate` cell after cell `i`, inside the box or after it. */
  function NextDateCell(box: Outerbox, i: nat): Option<nat> {
    FindCellFrom(box.cells + box.following, DATE_CLASS, i + 1)
  }

  /** The stripped texts of the box's `resulttop` cells, in document order. */
  function TopTexts(box: Outerbox): seq<string> {
    Texts(CellsWithClass(box.cells, TOP_CLASS))
  }

  /** The table enclosing the box's first label cell for `words`, if there is such a cell and such a table. */
  function LabelledTable(box: Outerbox, words: seq<string>): Option<Table> {
    match FindLabel(box.cells, words)
    case None => None
    case Some(i) => box.cells[i].parentTable
  }

  /** The list read from the table of the label `words`; empty when there is no label or no table. */
  function LabelledNumbers(box: Outerbox, words: seq<string>): seq<string> {
    match LabelledTable(box, words)
    case None => []
    case Some(t) => PrizeNumbers(t)
  }

  /** The `type` entry: the key itself for the six typed companies, `None` for every other key. */
  function TypeTag(key: string): Option<string> {
    if key in TYPED_KEYS then Some(key) else None
  }

  /** The `draw_date` entry. */
  function DrawDateOf(box: Outerbox): string {
    match DateCell(box)
    case None => ""
    case Some(i) => LeftmostDate(box.cells[i].StrippedText())
  }

  /** The `draw_no` entry. */
  function DrawNoOf(box: Outerbox): string {
    match DateCell(box)
    case None => ""
    case Some(i) =>
      match NextDateCell(box, i)
      case None => ""
      case Some(j) => DrawNumber((box.cells + box.following)[j].StrippedText())
  }

  /** What `parse_outerbox(box, key)` returns. */
  function Parse(box: Outerbox, key: string): DrawResult {
    var tops := TopTexts(box);
    DrawResult(
      DrawDateOf(box),
      DrawNoOf(box),
      if |tops| >= 3 then tops[0] else "",
      if |tops| >= 3 then tops[1] else "",
      if |tops| >= 3 then tops[2] else "",
      LabelledNumbers(box, SPECIAL_LABELS),
      LabelledNumbers(box, CONSOLATION_LABELS),
      TypeTag(key))
  }

  /**
   * The draw date is the leftmost match of `\d{2}-\d{2}-\d{4}` in the
   * stripped text of the first date cell; it stays empty when there is no
   * date cell or no match.
   */
  lemma ParseDrawDate(box: Outerbox, key: string)
    ensures DateCell(box).None? ==> Parse(box, key).drawDate == ""
    ensures DateCell(box).Some? ==>
      var text := box.cells[DateCell(box).value].StrippedText();
      var date := Parse(box, key).drawDate;
      && (date == "" <==> forall j: nat :: !DateAt(text, j))
      && (date != "" ==> exists i: nat :: DateAt(text, i) && date == text[i..i + 10] && forall j: nat | j < i :: !DateAt(text, j))
    ensures Parse(box, key).drawDate == "" || (|Parse(box, key).drawDate| == 10 && DateAt(Parse(box, key).drawDate, 0))
  {
    match DateCell(box)
    case None =>
    case Some(i) => LeftmostDateSpec(box.cells[i].StrippedText());
  }

  /**
   * The draw number is the text of the date cell after the first one, with
   * the label removed and the ends stripped; it stays empty when either
   * date cell is missing.
   */
  lemma ParseDrawNo(box: Outerbox, key: string)
    ensures DateCell(box).None? ==> Parse(box, key).drawNo == ""
    ensures DateCell(box).Some? && NextDateCell(box, DateCell(box).value).None? ==> Parse(box, key).drawNo == ""
    ensures DateCell(box).Some? && NextDateCell(box, DateCell(box).value).Some? ==>
      var j := NextDateCell(box, DateCell(box).value).value;
      && DateCell(box).value < j < |box.cells + box.following|
      && HasClass((box.cells + box.following)[j], DATE_CLASS)
      && Parse(box, key).drawNo == DrawNumber((box.cells + box.following)[j].StrippedText())
    ensures var n := Parse(box, key).drawNo; n == [] || (!IsSpace(n[0]) && !IsSpace(n[|n| - 1]))
  {
  }

  /** With three or more `resulttop` cells the prizes are the first three texts in order; with fewer, all stay empty. */
  lemma ParseTopPrizes(box: Outerbox, key: string)
    ensures var r := Parse(box, key); var tops := CellsWithClass(box.cells, TOP_CLASS);
      && (|tops| >= 3 ==>
           r.first == tops[0].StrippedText() && r.second == tops[1].StrippedText() && r.third == tops[2].StrippedText())
      && (|tops| < 3 ==> r.first == "" && r.second == "" && r.third == "")
  {
    var tops := CellsWithClass(box.cells, TOP_CLASS);
    if |tops| >= 3 {
      TextsAt(tops, 0);
      TextsAt(tops, 1);
      TextsAt(tops, 2);
    }
  }

  /**
   * A prize list is empty when the label or its table is missing;
   * otherwise it is the in-order subsequence of the `resultbottom` texts of
   * the table's rows after the header row that keeps exactly the texts
   * that are neither empty nor `----`.
   */
  lemma ParsePrizeLists(box: Outerbox, key: string)
    ensures LabelledTable(box, SPECIAL_LABELS).None? ==> Parse(box, key).special == []
    ensures LabelledTable(box, CONSOLATION_LABELS).None? ==> Parse(box, key).consolation == []
    ensures LabelledTable(box, SPECIAL_LABELS).Some? ==>
      var texts := BottomTexts(TailRows(LabelledTable(box, SPECIAL_LABELS).value.rows));
      var list := Parse(box, key).special;
      && list == PrizeNumbers(LabelledTable(box, SPECIAL_LABELS).value)
      && (forall t :: t in list <==> t in texts && IsKeptNumber(t))
      && (forall t :: multiset(list)[t] == if IsKeptNumber(t) then multiset(texts)[t] else 0)
      && IsSubsequence(list, texts)
    ensures LabelledTable(box, CONSOLATION_LABELS).Some? ==>
      var texts := BottomTexts(TailRows(LabelledTable(box, CONSOLATION_LABELS).value.rows));
      var list := Parse(box, key).consolation;
      && list == PrizeNumbers(LabelledTable(box, CONSOLATION_LABELS).value)
      && (forall t :: t in list <==> t in texts && IsKeptNumber(t))
      && (forall t :: multiset(list)[t] == if IsKeptNumber(t) then multiset(texts)[t] else 0)
      && IsSubsequence(list, texts)
    ensures forall t | t in Parse(box, key).special :: t != "" && t != NO_NUMBER
    ensures forall t | t in Parse(box, key).consolation :: t != "" && t != NO_NUMBER
  {
    var r := Parse(box, key);
    match LabelledTable(box, SPECIAL_LABELS) {
      case None =>
      case Some(t) => PrizeNumbersSpec(t);
    }
    match LabelledTable(box, CONSOLATION_LABELS) {
      case None =>
      case Some(t) => PrizeNumbersSpec(t);
    }
  }

  /** The `type` entry is the key exactly for the six typed companies and `None` for every other key. */
  lemma ParseKind(box: Outerbox, key: string)
    ensures Parse(box, key).kind.Some? <==> key in TYPED_KEYS
    ensures Parse(box, key).kind.Some? ==> Parse(box, key).kind.value == key
  {
  }

  /** A box without any cell yields the empty record, tagged only by its key. */
  lemma ParseEmptyBox(following: seq<Cell>, key: string)
    ensures Parse(Outerbox([], following), key) == EMPTY_RESULT.(kind := TypeTag(key))
  {
  }

  /** The date section of `parse_outerbox`: the draw date and the draw number, `""` where the page has none. */
  method ReadDrawInfo(box: Outerbox) returns (drawDate: string, drawNo: string)
    ensures drawDate == DrawDateOf(box) && drawNo == DrawNoOf(box)
  {
    drawDate, drawNo := "", "";
    var drawRow := FindCellFrom(box.cells, DATE_CLASS, 0);
    if drawRow.Some? {
      var dateText := box.cells[drawRow.value].StrippedText();
      var found := FindDate(dateText, 0);
      if found.Some? {
        drawDate := dateText[found.value..found.value + 10];
      }
      var all := box.cells + box.following;
      var nextTd := FindCellFrom(all, DATE_CLASS, drawRow.value + 1);
      if nextTd.Some? {
        drawNo := DrawNumber(all[nextTd.value].StrippedText());
      }
    }
  }

  /** A list section of `parse_outerbox`: the numbers of the table of the label `words`, `[]` where there is none. */
  method ReadPrizeList(box: Outerbox, words: seq<string>) returns (numbers: seq<string>)
    ensures numbers == LabelledNumbers(box, words)
  {
    numbers := [];
    var section := FindLabel(box.cells, words);
    if section.Some? {
      var table := box.cells[section.value].parentTable;
      if table.Some? {
        numbers := CollectPrizeNumbers(table.value);
      }
    }
  }

  /** `parse_outerbox`: start from the empty record and fill in the fields the box provides, section by section. */
  method ParseOuterbox(box: Outerbox, key: string) returns (data: DrawResult)
    ensures data == Parse(box, key)
  {
    data := EMPTY_RESULT;

    var drawDate, drawNo := ReadDrawInfo(box);
    data := data.(drawDate := drawDate, drawNo := drawNo);

    var prizeTds := CellsWithClass(box.cells, TOP_CLASS);
    if |prizeTds| >= 3 {
      TextsAt(prizeTds, 0);
      TextsAt(prizeTds, 1);
      TextsAt(prizeTds, 2);
      data := data.(first := prizeTds[0].StrippedText(),
                    second := prizeTds[1].StrippedText(),
                    third := prizeTds[2].StrippedText());
    }

    var specialNumbers := ReadPrizeList(box, SPECIAL_LABELS);
    data := data.(special := specialNumbers);

    var consNumbers := ReadPrizeList(box, CONSOLATION_LABELS);
    data := data.(consolation := consNumbers);

    if key in TYPED_KEYS {
      data := data.(kind := Some(key));
    }
  }

  /** The box's first cell of the company's class exists and shows the company's name somewhere in its text. */
  predicate BoxMatches(box: Outerbox, config: CompanyConfig) {
    match FindCellFrom(box.cells, config.tableClass, 0)
    case None => false
    case Some(i) => Contains(box.cells[i].Text(), config.name)
  }

  /**
   * `extract_company_data`: an unknown key is an error; otherwise the parse
   * of the first box, in document order, that matches the company, or
   * `None` when no box does.
   */
  method ExtractCompanyData(boxes: seq<Outerbox>, key: string) returns (r: Result<Option<DrawResult>, LookupError>)
    ensures r.Failure? <==> key !in COMPANY_CONFIG
    ensures r.Failure? ==> r.error == KeyError(key)
    ensures r == Success(None) <==>
      key in COMPANY_CONFIG && forall i | 0 <= i < |boxes| :: !BoxMatches(boxes[i], COMPANY_CONFIG[key])
    ensures r.Success? && r.value.Some? ==>
      exists i | 0 <= i < |boxes| ::
        && BoxMatches(boxes[i], COMPANY_CONFIG[key])
        && (forall j | 0 <= j < i :: !BoxMatches(boxes[j], COMPANY_CONFIG[key]))
        && r.value.value == Parse(boxes[i], key)
  {
    if key !in COMPANY_CONFIG {
      return Failure(KeyError(key));
    }
    var config := COMPANY_CONFIG[key];
    for i := 0 to |boxes|
      invariant forall j | 0 <= j < i :: !BoxMatches(boxes[j], config)
    {
      var box := boxes[i];
      var nameTd := FindCellFrom(box.cells, config.tableClass, 0);
      if nameTd.Some? && Contains(box.cells[nameTd.value].Text(), config.name) {
        var data := ParseOuterbox(box, key);
        return Success(Some(data));
      }
    }
    return Success(None);
  }

  /** Every typed company is a configured company. */
  lemma TypedKeysAreConfigured()
    ensures forall k | k in TYPED_KEYS :: k in COMPANY_CONFIG
  {
  }
}
