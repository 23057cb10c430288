/**
 * What `submit()` sends (captura_foto.py:119-137): the eleven-column row it
 * builds from the form, and its effect on the spreadsheet, modelled as a map
 * from worksheet title to the rows that worksheet holds.
 */
module Rows {
  import opened Records

  /** One value of a row: text, a number, or an empty cell (Python's None). */
  datatype Cell = Text(text: string) | Number(value: real) | Empty

  type Row = seq<Cell>

  /** The spreadsheet: worksheet title to rows, oldest first. */
  type Book = map<string, seq<Row>>

  function TextCell(s: Option<string>): Cell {
    match s
    case Some(t) => Text(t)
    case None => Empty
  }

  function NumberCell(x: Option<real>): Cell {
    match x
    case Some(v) => Number(v)
    case None => Empty
  }

  /** The columns of a submitted row. */
  datatype Column =
    | DateColumn | PhotoColumn | ObserverColumn | PlantColumn | AnimalColumn
    | InteractionColumn | PartColumn | LatitudeColumn | LongitudeColumn
    | TimestampColumn | DigitizerColumn

  const RowWidth: nat := 11

  /** Where each column sits in the row, counting from zero. */
  function Position(c: Column): (i: nat)
    ensures i < RowWidth
  {
    match c
    case DateColumn => 0
    case PhotoColumn => 1
    case ObserverColumn => 2
    case PlantColumn => 3
    case AnimalColumn => 4
    case InteractionColumn => 5
    case PartColumn => 6
    case LatitudeColumn => 7
    case LongitudeColumn => 8
    case TimestampColumn => 9
    case DigitizerColumn => 10
  }

  /** The column at each position. */
  function ColumnAt(i: nat): (c: Column)
    requires i < RowWidth
    ensures Position(c) == i
  {
    if i == 0 then DateColumn
    else if i == 1 then PhotoColumn
    else if i == 2 then ObserverColumn
    else if i == 3 then PlantColumn
    else if i == 4 then AnimalColumn
    else if i == 5 then InteractionColumn
    else if i == 6 then PartColumn
    else if i == 7 then LatitudeColumn
    else if i == 8 then LongitudeColumn
    else if i == 9 then TimestampColumn
    else DigitizerColumn
  }

  /**
   * Every column has its own position, and reading a column's position back
   * gives that column (with `ColumnAt`'s own ensures: every position has a column).
   */
  lemma PositionIsBijective()
    ensures forall c, d :: Position(c) == Position(d) ==> c == d
    ensures forall c :: ColumnAt(Position(c)) == c
  {
  }

  /** The value a column takes for a form with a photo, read field by field. */
  function CellOf(o: Observation, p: Photo, timestamp: string, c: Column): Cell {
    match c
    case DateColumn => Text(DateText(o.date))
    case PhotoColumn => Text(p.name)
    case ObserverColumn => TextCell(o.observer)
    case PlantColumn => Text(o.sp1)
    case AnimalColumn => Text(o.sp2)
    case InteractionColumn => TextCell(o.inter)
    case PartColumn => TextCell(o.part)
    case LatitudeColumn => NumberCell(o.lat)
    case LongitudeColumn => NumberCell(o.lon)
    case TimestampColumn => Text(timestamp)
    case DigitizerColumn => TextCell(o.digitizer)
  }

  /**
   * The row `submit()` builds. Reading `photo.name` raises when no photo is
   * attached, so there is a row only when there is a photo.
   */
  function BuildRow(o: Observation, timestamp: string): (r: Option<Row>)
    ensures r.Some? <==> o.photo.Some?
    ensures r.Some? ==> |r.value| == RowWidth
  {
    match o.photo
    case None => None
    case Some(p) => Some([
      Text(DateText(o.date)),
      Text(p.name),
      TextCell(o.observer),
      Text(o.sp1),
      Text(o.sp2),
      TextCell(o.inter),
      TextCell(o.part),
      NumberCell(o.lat),
      NumberCell(o.lon),
      Text(timestamp),
      TextCell(o.digitizer)
    ])
  }

  /** Each column of the row holds that column's field of the form: no column drifts. */
  lemma RowFollowsColumns(o: Observation, timestamp: string)
    requires o.photo.Some?
    ensures |BuildRow(o, timestamp).value| == RowWidth
    ensures forall c :: BuildRow(o, timestamp).value[Position(c)] == CellOf(o, o.photo.value, timestamp, c)
  {
  }

  /**
   * The row loses nothing: two submissions give the same row exactly when
   * they had the same form values and the same timestamp.
   */
  lemma RowIsInjective(o1: Observation, o2: Observation, t1: string, t2: string)
    requires o1.photo.Some? && o2.photo.Some?
    ensures BuildRow(o1, t1) == BuildRow(o2, t2) <==> o1 == o2 && t1 == t2
  {
    if BuildRow(o1, t1) == BuildRow(o2, t2) {
      var r1, r2 := BuildRow(o1, t1).value, BuildRow(o2, t2).value;
      assert r1[0] == r2[0];
      DateTextInjective(o1.date, o2.date);
      assert r1[2] == r2[2] && r1[5] == r2[5] && r1[6] == r2[6] && r1[10] == r2[10];
      assert r1[7] == r2[7] && r1[8] == r2[8];
    }
  }

  // ----------------------------------------------------------------------
  // The effect on the spreadsheet
  // ----------------------------------------------------------------------

  /** `append_row` on one worksheet: that worksheet gains the row at its end, no other changes. */
  function AppendRow(book: Book, title: string, row: Row): (r: Book)
    requires title in book
    ensures r.Keys == book.Keys
    ensures r[title] == book[title] + [row]
    ensures forall t :: t in book && t != title ==> r[t] == book[t]
  {
    book[title := book[title] + [row]]
  }

  /** How `submit()` ends: the row is appended, or one of the two lookups raises. */
  datatype SubmitOutcome = Appended | WorksheetNotFound | NoPhoto

  /**
   * `submit()` on a form: first the worksheet named by the digitizer is
   * looked up (captura_foto.py:121), then the row is built; either failing
   * raises before anything is written.
   */
  function Submission(o: Observation, book: Book, timestamp: string): (r: (SubmitOutcome, Book))
    ensures r.0 == WorksheetNotFound <==> o.digitizer.None? || o.digitizer.value !in book
    ensures r.0 == NoPhoto <==> o.digitizer.Some? && o.digitizer.value in book && o.photo.None?
    ensures r.0 != Appended ==> r.1 == book
    ensures r.0 == Appended ==>
              o.photo.Some? && o.digitizer.Some? && o.digitizer.value in book &&
              r.1 == AppendRow(book, o.digitizer.value, BuildRow(o, timestamp).value)
  {
    if o.digitizer.None? || o.digitizer.value !in book then (WorksheetNotFound, book)
    else match BuildRow(o, timestamp)
      case None => (NoPhoto, book)
      case Some(row) => (Appended, AppendRow(book, o.digitizer.value, row))
  }

  /**
   * A successful submission adds exactly one row to the digitizer's
   * worksheet, and that row carries the digitizer's own name in its last
   * column; every other worksheet is left as it was.
   */
  lemma SubmissionAppendsOneRow(o: Observation, book: Book, timestamp: string)
    requires Submission(o, book, timestamp).0 == Appended
    ensures var after := Submission(o, book, timestamp).1;
            var title := o.digitizer.value;
            after.Keys == book.Keys &&
            |after[title]| == |book[title]| + 1 &&
            after[title][..|book[title]|] == book[title] &&
            after[title][|book[title]|][Position(DigitizerColumn)] == Text(title) &&
            forall t :: t in book && t != title ==> after[t] == book[t]
  {
  }
}
