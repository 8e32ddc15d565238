/**
 * The calculation history table of app/pandas_facade.py: an ordered table
 * of records under the columns operation, operand1, operand2 and result, with
 * a row index, and a tiny file system the table is saved to and loaded from.
 */
module History {
  import opened Wrappers
  import Numerals

  /** One row: the operation's name, both operands, and the result (`None` before a calculation ran). */
  datatype Record = Record(operation: string, operand1: real, operand2: real, result: Option<real>)

  const Columns: seq<string> := ["operation", "operand1", "operand2", "result"]

  /** A saved table: its header row and its data rows, in order. */
  datatype CsvFile = CsvFile(header: seq<string>, rows: seq<Record>)

  /** The files the history is saved to, by path. */
  class FileSystem {
    var files: map<string, CsvFile>

    constructor (files: map<string, CsvFile>)
      ensures this.files == files
    {
      this.files := files;
    }
  }

  /** The default row index of a table with `n` rows: 0, 1, ..., n - 1. */
  function Positions(n: nat): (ls: seq<int>)
    ensures |ls| == n && forall j :: 0 <= j < n ==> ls[j] == j
  {
    seq(n, j => j)
  }

  /** The rows whose operation is `op`, in their original order. */
  function Select(rs: seq<Record>, op: string): seq<Record> {
    if rs == [] then []
    else (if rs[0].operation == op then [rs[0]] else []) + Select(rs[1..], op)
  }

  /** `a` is `b` with some elements left out. */
  ghost predicate IsSubsequence(a: seq<Record>, b: seq<Record>) {
    if a == [] then true
    else if b == [] then false
    else (a[0] == b[0] && IsSubsequence(a[1..], b[1..])) || IsSubsequence(a, b[1..])
  }

  lemma IsSubsequenceRefl(s: seq<Record>)
    ensures IsSubsequence(s, s)
  {
  }

  /**
   * `Select` keeps exactly the matching rows: every row it returns matches,
   * a matching row occurs in it as often as in the input, and it keeps the
   * input's order.
   */
  lemma {:induction false} SelectExact(rs: seq<Record>, op: string)
    ensures forall x :: x in Select(rs, op) ==> x.operation == op
    ensures forall x: Record :: x.operation == op ==> multiset(Select(rs, op))[x] == multiset(rs)[x]
    ensures IsSubsequence(Select(rs, op), rs)
  {
    if rs != [] {
      var head := if rs[0].operation == op then [rs[0]] else [];
      var tail := Select(rs[1..], op);
      SelectExact(rs[1..], op);
      assert Select(rs, op) == head + tail;
      assert rs == [rs[0]] + rs[1..];
      assert multiset(rs) == multiset([rs[0]]) + multiset(rs[1..]);
      assert multiset(Select(rs, op)) == multiset(head) + multiset(tail);
      if rs[0].operation == op {
        assert Select(rs, op)[0] == rs[0] && Select(rs, op)[1..] == tail;
      } else {
        assert Select(rs, op) == tail;
        if tail != [] {
          assert IsSubsequence(tail, rs);
        }
      }
    }
  }

  /** Selecting from rows none of which match gives nothing; from rows all of which match, everything. */
  lemma {:induction false} SelectExtremes(rs: seq<Record>, op: string)
    ensures (forall j :: 0 <= j < |rs| ==> rs[j].operation != op) ==> Select(rs, op) == []
    ensures (forall j :: 0 <= j < |rs| ==> rs[j].operation == op) ==> Select(rs, op) == rs
  {
    if rs != [] {
      SelectExtremes(rs[1..], op);
      assert forall j :: 1 <= j < |rs| ==> rs[1..][j - 1] == rs[j];
    }
  }

  /**
   * `DataFrame.drop(dropped)` for a label that is in the index: removes every
   * row whose index label is `dropped`, giving the remaining rows and their
   * labels. Pandas raises `KeyError` for a label that is not in the index; the
   * guard of `delete_record` never lets one through, and on such rows this
   * total definition keeps them all (`DropAbsentLabel`).
   */
  function Drop(rs: seq<Record>, ls: seq<int>, dropped: int): (r: (seq<Record>, seq<int>))
    requires |rs| == |ls|
    ensures |r.0| == |r.1|
  {
    if rs == [] then ([], [])
    else
      var rest := Drop(rs[1..], ls[1..], dropped);
      if ls[0] == dropped then rest else ([rs[0]] + rest.0, [ls[0]] + rest.1)
  }

  /** Dropping a label that occurs at exactly one position removes the row at that position. */
  lemma {:induction false} DropUniqueLabel(rs: seq<Record>, ls: seq<int>, k: nat)
    requires |rs| == |ls| && k < |rs|
    requires forall j :: 0 <= j < |ls| ==> (ls[j] == ls[k] <==> j == k)
    ensures Drop(rs, ls, ls[k]).0 == rs[..k] + rs[k + 1..]
  {
    if k == 0 {
      DropAbsentLabel(rs[1..], ls[1..], ls[0]);
    } else {
      assert forall j :: 0 <= j < |ls| - 1 ==> ls[1..][j] == ls[j + 1];
      DropUniqueLabel(rs[1..], ls[1..], k - 1);
      assert rs[1..][..k - 1] + rs[1..][k..] == rs[1..k] + rs[k + 1..];
      assert rs[..k] == [rs[0]] + rs[1..k];
    }
  }

  /** On rows none of which carry the label, `Drop` keeps them all: the recursion's step toward `DropUniqueLabel`. */
  lemma {:induction false} DropAbsentLabel(rs: seq<Record>, ls: seq<int>, dropped: int)
    requires |rs| == |ls|
    requires forall j :: 0 <= j < |ls| ==> ls[j] != dropped
    ensures Drop(rs, ls, dropped).0 == rs
  {
    if rs != [] {
      assert forall j :: 0 <= j < |ls| - 1 ==> ls[1..][j] == ls[j + 1];
      DropAbsentLabel(rs[1..], ls[1..], dropped);
      assert rs == [rs[0]] + rs[1..];
    }
  }

  /** With the default row index, dropping label `k` removes exactly the record at position `k`. */
  lemma DropByPosition(rs: seq<Record>, k: nat)
    requires k < |rs|
    ensures Drop(rs, Positions(|rs|), k).0 == rs[..k] + rs[k + 1..]
  {
    var ls := Positions(|rs|);
    assert ls[k] == k;
    DropUniqueLabel(rs, ls, k);
  }

  /** What `delete_record` reports. */
  datatype DeleteReport = Deleted(index: int) | InvalidIndex(index: int)
  {
    function Message(): string {
      match this
      case Deleted(i) => "Deleted calculation at index " + Numerals.IntToString(i) + "."
      case InvalidIndex(i) => "Invalid index: " + Numerals.IntToString(i) + ". No record deleted."
    }
  }

  class PandasFacade {
    /** The table's rows, in insertion order. */
    var records: seq<Record>
    /** The table's row index. */
    var labels: seq<int>
    var columns: seq<string>

    /** The row index is always the default one, so a label is a position. */
    ghost predicate Valid()
      reads this
    {
      labels == Positions(|records|)
    }

    /** An empty table with the four fixed columns. */
    constructor ()
      ensures Valid()
      ensures records == [] && columns == Columns
    {
      records := [];
      labels := [];
      columns := Columns;
    }

    /** `add_record`: the record is appended and the index renumbered (`ignore_index=True`). */
    method AddRecord(record: Record)
      requires Valid()
      modifies this
      ensures Valid()
      ensures records == old(records) + [record]
      ensures columns == old(columns)
    {
      records := records + [record];
      labels := Positions(|records|);
    }

    /** `clear`: no rows, the same columns. */
    method Clear()
      requires Valid()
      modifies this
      ensures Valid()
      ensures records == [] && columns == old(columns)
    {
      records := [];
      labels := [];
    }

    /**
     * `filter_by_operation`: exactly the rows whose operation is `operation`,
     * each as many times as it occurs, in table order.
     */
    function FilterByOperation(operation: string): (r: seq<Record>)
      reads this
      ensures forall x :: x in r ==> x.operation == operation
      ensures forall x: Record :: x.operation == operation ==> multiset(r)[x] == multiset(records)[x]
      ensures IsSubsequence(r, records)
    {
      SelectExact(records, operation);
      Select(records, operation)
    }

    /** `save_to_file`: the file at `path` now holds the header and every row, in order. */
    method SaveToFile(path: string, fs: FileSystem)
      modifies fs
      ensures fs.files == old(fs.files)[path := CsvFile(columns, records)]
    {
      fs.files := fs.files[path := CsvFile(columns, records)];
    }

    /**
     * `load_from_file`: the table is replaced by the file's header and rows.
     * A missing file raises, which is `loaded == false` with nothing changed.
     */
    method LoadFromFile(path: string, fs: FileSystem) returns (loaded: bool)
      requires Valid()
      modifies this
      ensures Valid()
      ensures loaded == (path in fs.files)
      ensures loaded ==> records == fs.files[path].rows && columns == fs.files[path].header
      ensures !loaded ==> records == old(records) && columns == old(columns)
    {
      loaded := path in fs.files;
      if loaded {
        var file := fs.files[path];
        records := file.rows;
        columns := file.header;
        labels := Positions(|records|);
      }
    }

    /**
     * `delete_record`: with `0 <= index < len`, the row labelled `index` is
     * dropped and the index reset, so later rows move down by one; any other
     * index changes nothing and is reported as invalid.
     */
    method DeleteRecord(index: int) returns (report: DeleteReport)
      requires Valid()
      modifies this
      ensures Valid()
      ensures columns == old(columns)
      ensures 0 <= index < |old(records)| ==>
                report == Deleted(index) && records == old(records)[..index] + old(records)[index + 1..]
      ensures !(0 <= index < |old(records)|) ==> report == InvalidIndex(index) && records == old(records)
    {
      if 0 <= index < |records| {
        DropByPosition(records, index);
        var kept := Drop(records, labels, index);
        records, labels := kept.0, kept.1;
        labels := Positions(|records|);
        report := Deleted(index);
      } else {
        report := InvalidIndex(index);
      }
    }
  }

  /** The message of the invalid-index test. */
  lemma InvalidIndexMessage()
    ensures InvalidIndex(10).Message() == "Invalid index: 10. No record deleted."
  {
    Numerals.IntToStringTen();
  }
}
