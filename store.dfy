/**
 * The worksheet behind the records, held in memory: a sequence of rows of
 * text cells. load_data splits it into a header and data rows, save_new_data
 * appends one row (writing the header first on an empty sheet), and
 * update_all_data clears the sheet and rewrites it. The detail view's save
 * button checks the entered weight and repetitions before appending.
 */
module Store {
  import Taxonomy

  type Row = seq<string>

  /** The header written to an empty sheet and assumed when nothing is stored. */
  const Header: Row := ["日付", "部位", "種目名", "重量(kg)", "回数(レップ)"]

  /** A data frame as far as the store sees it: column names and text rows. */
  datatype Frame = Frame(columns: Row, rows: seq<Row>)

  /** The split load_data performs on everything the sheet holds. */
  function Load(data: seq<Row>): (f: Frame)
    ensures data == [] ==> f == Frame(Header, [])
    ensures data != [] ==> [f.columns] + f.rows == data
  {
    if data == [] then Frame(Header, [])
    else Frame(data[0], data[1..])
  }

  /** What the sheet holds after save_new_data appends a row. */
  function AfterSave(data: seq<Row>, row: Row): (r: seq<Row>)
    ensures r != [] && r[|r| - 1] == row
    ensures data == [] ==> r == [Header, row]
    ensures data != [] ==> |r| == |data| + 1 && r[..|data|] == data
  {
    (if data == [] then [Header] else data) + [row]
  }

  /** Loading after a save yields the old columns and the old rows followed by
      the new row, on an empty sheet and on a filled one alike. */
  lemma LoadAfterSave(data: seq<Row>, row: Row)
    ensures Load(AfterSave(data, row)) == Frame(Load(data).columns, Load(data).rows + [row])
  {
  }

  /** Loading what update_all_data wrote gives back exactly the frame written,
      including a frame with columns and no rows. */
  lemma LoadAfterUpdate(f: Frame)
    ensures Load([f.columns] + f.rows) == f
  {
  }

  /** The text cells save_new_data writes for one set. */
  datatype Texts = Texts(date: int -> string, weight: real -> string, reps: int -> string)

  function NewRow(date: int, part: string, exercise: string, weight: real, reps: int, show: Texts): (r: Row)
    ensures |r| == |Header|
    ensures r[0] == show.date(date) && r[1] == part && r[2] == exercise
    ensures r[3] == show.weight(weight) && r[4] == show.reps(reps)
  {
    [show.date(date), part, exercise, show.weight(weight), show.reps(reps)]
  }

  /** The save button's check: both the weight and the repetitions are positive. */
  predicate Accepts(weight: real, reps: int)
  {
    weight > 0.0 && reps > 0
  }

  class Sheet {
    var cells: seq<Row>

    constructor (initial: seq<Row>)
      ensures cells == initial
    {
      cells := initial;
    }

    /** get_all_values followed by load_data's split. */
    method LoadData() returns (f: Frame)
      ensures f == Load(cells)
    {
      if |cells| == 0 {
        return Frame(Header, []);
      }
      var header := cells[0];
      var rows := cells[1..];
      if |rows| == 0 {
        return Frame(header, []);
      }
      f := Frame(header, rows);
    }

    method SaveNewData(row: Row)
      modifies this
      ensures cells == AfterSave(old(cells), row)
    {
      if |cells| == 0 {
        cells := cells + [Header];
      }
      cells := cells + [row];
    }

    method UpdateAllData(f: Frame)
      modifies this
      ensures cells == [f.columns] + f.rows
    {
      cells := [];
      cells := cells + ([f.columns] + f.rows);
    }

    /** The form submission of the detail view: a rejected entry writes
        nothing; an accepted one appends the set under the exercise's body part. */
    method Submit(date: int, exercise: string, weight: real, reps: int, show: Texts) returns (saved: bool)
      modifies this
      ensures saved == Accepts(weight, reps)
      ensures saved ==> cells == AfterSave(old(cells),
        NewRow(date, Taxonomy.BodyPartOf(Taxonomy.Exercises, exercise), exercise, weight, reps, show))
      ensures !saved ==> cells == old(cells)
    {
      saved := weight > 0.0 && reps > 0;
      if saved {
        var part := Taxonomy.GetBodyPart(Taxonomy.Exercises, exercise);
        SaveNewData(NewRow(date, part, exercise, weight, reps, show));
      }
    }
  }
}
