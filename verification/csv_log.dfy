/**
 * The CSV file of pump_fun_scraper.py:217-221: `os.path.exists` followed by
 * `to_csv(mode='a', header=not file_exists)`. The file is an append-only
 * sequence of rows; the header goes in only when the file is created.
 */
module CsvLog {
  import opened Record

  /** The rows after one `to_csv` append of `row`. */
  function AfterAppend(existed: bool, rows: seq<seq<Cell>>, row: seq<Cell>): seq<seq<Cell>> {
    if existed then rows + [row] else rows + [Header, row]
  }

  /**
   * One append keeps every earlier row in place, adds the header only when
   * the file did not exist, and ends with the new data row.
   */
  lemma AppendKeepsEarlierRows(existed: bool, rows: seq<seq<Cell>>, row: seq<Cell>)
    ensures |AfterAppend(existed, rows, row)| == |rows| + (if existed then 1 else 2)
    ensures AfterAppend(existed, rows, row)[..|rows|] == rows
    ensures AfterAppend(existed, rows, row)[|AfterAppend(existed, rows, row)| - 1] == row
    ensures !existed ==> AfterAppend(existed, rows, row)[|rows|] == Header
  {
  }

  /** The rows after appending each of `data` in turn. */
  function AppendAll(existed: bool, rows: seq<seq<Cell>>, data: seq<seq<Cell>>): seq<seq<Cell>>
    decreases |data|
  {
    if data == [] then rows
    else AppendAll(true, AfterAppend(existed, rows, data[0]), data[1..])
  }

  /**
   * A run of appends leaves the earlier rows, then one header if the file
   * did not exist and anything was appended, then the data rows in order.
   */
  lemma {:induction false} AppendAllShape(existed: bool, rows: seq<seq<Cell>>, data: seq<seq<Cell>>)
    ensures AppendAll(existed, rows, data) == Appended(existed, rows, data)
    decreases |data|
  {
    if data != [] {
      var next := AfterAppend(existed, rows, data[0]);
      AppendAllShape(true, next, data[1..]);
      assert AppendAll(existed, rows, data) == next + data[1..];
      assert [data[0]] + data[1..] == data;
      if existed {
        assert next + data[1..] == rows + data;
      } else {
        assert next == rows + [Header] + [data[0]];
        assert next + data[1..] == rows + [Header] + data;
      }
    }
  }

  /** The rows of a run of appends, as AppendAllShape states them. */
  function Appended(existed: bool, rows: seq<seq<Cell>>, data: seq<seq<Cell>>): seq<seq<Cell>> {
    rows + (if !existed && data != [] then [Header] else []) + data
  }

  /** One more append extends a run of appends by its row. */
  lemma AppendedSnoc(existed: bool, rows: seq<seq<Cell>>, data: seq<seq<Cell>>, row: seq<Cell>)
    ensures Appended(existed, rows, data + [row]) == AfterAppend(existed || data != [], Appended(existed, rows, data), row)
  {
    if !existed && data == [] {
      assert data + [row] == [row];
    }
  }

  /** The log file: whether it exists and the rows it holds. */
  class Log {
    var fileExists: bool
    var rows: seq<seq<Cell>>

    /** A file that does not exist holds no rows. */
    ghost predicate Valid()
      reads this
    {
      !fileExists ==> rows == []
    }

    /** The file as found at start-up, possibly left by an earlier run. */
    constructor (existed: bool, contents: seq<seq<Cell>>)
      requires !existed ==> contents == []
      ensures Valid()
      ensures fileExists == existed && rows == contents
    {
      fileExists := existed;
      rows := contents;
    }

    /** `df.to_csv(CSV_FILE, mode='a', index=False, header=not file_exists)`. */
    method Append(row: seq<Cell>)
      requires Valid()
      modifies this
      ensures Valid() && fileExists
      ensures rows == AfterAppend(old(fileExists), old(rows), row)
      ensures !old(fileExists) ==> rows == [Header, row]
    {
      var existed := fileExists;
      if !existed {
        rows := rows + [Header];
      }
      rows := rows + [row];
      fileExists := true;
    }
  }
}
