/**
 * The page as the crawler's queries see it. An outer box is the list of
 * its `td` cells in document order, together with the `td` cells that come
 * after the box in the document (a `find_next` search may run past the end
 * of the box). A cell knows its CSS classes, its text nodes in order and
 * the table that encloses it.
 */
module Markup {
  import opened Wrappers
  import opened Seqs
  import opened PyStr

  /**
   * `str` is the cell's `.string` as BeautifulSoup answers it (its only
   * string, found through a single child element as well; `None` when the
   * cell has several children), and `parentTable` is its `find_parent("table")`.
   */
  datatype Cell = Cell(classes: set<string>, strings: seq<string>, str: Option<string>, parentTable: Option<Table>)
  {
    /** `get_text()`: the text nodes joined with nothing between them. */
    function Text(): string {
      Concat(strings)
    }

    /** `get_text(strip=True)`: every text node stripped, then joined with nothing between them. */
    function StrippedText(): string {
      ConcatStripped(strings)
    }
  }

  /** A `tr` element: every `td` inside it, in document order. */
  datatype Row = Row(cells: seq<Cell>)

  /** A `table` element: every `tr` inside it, in document order. */
  datatype Table = Table(rows: seq<Row>)

  /** A `div.outerbox`: its own `td` cells, and the `td` cells that follow it in the document. */
  datatype Outerbox = Outerbox(cells: seq<Cell>, following: seq<Cell>)

  function Concat(ss: seq<string>): string {
    if ss == [] then "" else ss[0] + Concat(ss[1..])
  }

  function ConcatStripped(ss: seq<string>): string {
    if ss == [] then "" else Strip(ss[0]) + ConcatStripped(ss[1..])
  }

  /** The stripped text of each cell, in order. */
  function Texts(cells: seq<Cell>): (r: seq<string>)
    ensures |r| == |cells|
  {
    if cells == [] then [] else Texts(cells[..|cells| - 1]) + [cells[|cells| - 1].StrippedText()]
  }

  /** Text `i` is the stripped text of cell `i`. */
  lemma {:induction false} TextsAt(cells: seq<Cell>, i: nat)
    requires i < |cells|
    ensures Texts(cells)[i] == cells[i].StrippedText()
  {
    if i < |cells| - 1 {
      TextsAt(cells[..|cells| - 1], i);
    }
  }

  /** The texts of a longer prefix extend those of the shorter one by one text. */
  lemma TextsSnoc(cells: seq<Cell>, m: nat)
    requires m < |cells|
    ensures Texts(cells[..m + 1]) == Texts(cells[..m]) + [cells[m].StrippedText()]
  {
    assert cells[..m + 1][..m] == cells[..m];
  }

  predicate HasClass(c: Cell, cls: string) {
    cls in c.classes
  }

  /** `tag.find_all("td", class_=cls)`: the cells carrying class `cls`, in document order. */
  function CellsWithClass(cells: seq<Cell>, cls: string): seq<Cell> {
    Filter(cells, c => HasClass(c, cls))
  }

  /** The index of the first cell at or after `from` carrying class `cls` (`find` / `find_next`). */
  function FindCellFrom(cells: seq<Cell>, cls: string, from: nat): Option<nat> {
    FindFirst(cells, c => HasClass(c, cls), from)
  }

  /**
   * The cell matches `find("td", string=re.compile(w1|w2|...))`: it has a
   * `.string` and one of the alternatives occurs somewhere in it.
   */
  predicate IsLabelCell(c: Cell, words: seq<string>) {
    match c.str
    case None => false
    case Some(t) => exists w | w in words :: Contains(t, w)
  }

  /** The index of the first label cell of the box for the alternatives `words`. */
  function FindLabel(cells: seq<Cell>, words: seq<string>): Option<nat> {
    FindFirst(cells, c => IsLabelCell(c, words), 0)
  }

  /** Every cell `find_all` returns carries the class, and every cell that carries it is returned. */
  lemma CellsWithClassSpec(cells: seq<Cell>, cls: string)
    ensures forall i | 0 <= i < |CellsWithClass(cells, cls)| :: HasClass(CellsWithClass(cells, cls)[i], cls)
    ensures forall c :: c in CellsWithClass(cells, cls) <==> c in cells && HasClass(c, cls)
    ensures forall c :: multiset(CellsWithClass(cells, cls))[c] == if HasClass(c, cls) then multiset(cells)[c] else 0
    ensures IsSubsequence(CellsWithClass(cells, cls), cells)
  {
    forall c
      ensures c in CellsWithClass(cells, cls) <==> c in cells && HasClass(c, cls)
      ensures multiset(CellsWithClass(cells, cls))[c] == if HasClass(c, cls) then multiset(cells)[c] else 0
    {
      FilterMembership(cells, c => HasClass(c, cls), c);
      FilterMultiplicity(cells, c => HasClass(c, cls), c);
    }
    FilterIsSubsequence(cells, c => HasClass(c, cls));
  }

  /** A label cell is one whose `.string` contains one of the alternatives at some index. */
  lemma LabelCellIff(c: Cell, words: seq<string>)
    ensures IsLabelCell(c, words) <==>
      c.str.Some? && exists w, i :: w in words && OccursAt(c.str.value, w, i)
  {
    if c.str.Some? {
      forall w | w in words {
        ContainsIff(c.str.value, w);
      }
    }
  }

  /**
   * `find("td", string=...)`: the first label cell of the box, with no label
   * cell before it, or `None` when the box has no label cell.
   */
  lemma FindLabelSpec(cells: seq<Cell>, words: seq<string>)
    ensures FindLabel(cells, words).Some? ==>
      var i := FindLabel(cells, words).value;
      i < |cells| && IsLabelCell(cells[i], words) && forall j | 0 <= j < i :: !IsLabelCell(cells[j], words)
    ensures FindLabel(cells, words).None? ==> forall j | 0 <= j < |cells| :: !IsLabelCell(cells[j], words)
  {
  }
}
