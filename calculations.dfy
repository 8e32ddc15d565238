/**
 * The calculation history of app/calculations.py: one table shared by every
 * caller, to which completed calculations are added as records.
 */
module CalcHistory {
  import opened History
  import Calc

  class Calculations {
    /** The class-level `_history_facade` that every method acts on. */
    const historyFacade: PandasFacade

    ghost predicate Valid()
      reads this, historyFacade
    {
      historyFacade.Valid()
    }

    constructor ()
      ensures Valid() && fresh(historyFacade)
      ensures GetAllCalculations() == [] && historyFacade.columns == Columns
    {
      historyFacade := new PandasFacade();
    }

    /** `get_all_calculations`: the whole table, in insertion order. */
    function GetAllCalculations(): seq<Record>
      reads this, historyFacade
    {
      historyFacade.records
    }

    /**
     * `add_calculation`: appends one record made of the command's operation
     * name, the two operands and the calculation's current result.
     */
    method AddCalculation(calculation: Calc.Calculation)
      requires Valid()
      modifies historyFacade
      ensures Valid()
      ensures GetAllCalculations() == old(GetAllCalculations())
                + [Record(calculation.operation.OperationName(), calculation.operand1,
                          calculation.operand2, calculation.result)]
      ensures historyFacade.columns == old(historyFacade.columns)
    {
      var record := Record(calculation.operation.OperationName(), calculation.operand1,
                           calculation.operand2, calculation.result);
      historyFacade.AddRecord(record);
    }

    /** `clear_history`. */
    method ClearHistory()
      requires Valid()
      modifies historyFacade
      ensures Valid()
      ensures GetAllCalculations() == [] && historyFacade.columns == old(historyFacade.columns)
    {
      historyFacade.Clear();
    }

    /** `filter_by_operation`: the table's matching records, as the table selects them. */
    function FilterByOperation(operationName: string): (r: seq<Record>)
      reads this, historyFacade
      ensures forall x :: x in r ==> x.operation == operationName
      ensures forall x: Record :: x.operation == operationName ==>
                multiset(r)[x] == multiset(GetAllCalculations())[x]
      ensures IsSubsequence(r, GetAllCalculations())
    {
      historyFacade.FilterByOperation(operationName)
    }

    /** `save_history`. */
    method SaveHistory(filePath: string, fs: FileSystem)
      modifies fs
      ensures fs.files == old(fs.files)[filePath := CsvFile(historyFacade.columns, GetAllCalculations())]
    {
      historyFacade.SaveToFile(filePath, fs);
    }

    /** `load_history`: the table becomes the file's rows; a missing file changes nothing. */
    method LoadHistory(filePath: string, fs: FileSystem) returns (loaded: bool)
      requires Valid()
      modifies historyFacade
      ensures Valid()
      ensures loaded == (filePath in fs.files)
      ensures loaded ==> GetAllCalculations() == fs.files[filePath].rows
                         && historyFacade.columns == fs.files[filePath].header
      ensures !loaded ==> GetAllCalculations() == old(GetAllCalculations())
                          && historyFacade.columns == old(historyFacade.columns)
    {
      loaded := historyFacade.LoadFromFile(filePath, fs);
    }

    /** `delete_history`: the table's delete by position. */
    method DeleteHistory(index: int) returns (report: DeleteReport)
      requires Valid()
      modifies historyFacade
      ensures Valid()
      ensures historyFacade.columns == old(historyFacade.columns)
      ensures 0 <= index < |old(GetAllCalculations())| ==>
                report == Deleted(index)
                && GetAllCalculations() == old(GetAllCalculations())[..index] + old(GetAllCalculations())[index + 1..]
      ensures !(0 <= index < |old(GetAllCalculations())|) ==>
                report == InvalidIndex(index) && GetAllCalculations() == old(GetAllCalculations())
    {
      report := historyFacade.DeleteRecord(index);
    }
  }
}
