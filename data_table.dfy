/**
 * The data-table component
 * (src/app/shared/components/data-table/data-table.component.ts): it shows
 * `data` under the configured columns, with a trailing action column when
 * one is configured. The Material data source is reduced to the rows it
 * holds (`sourceData`); its paginator is not modelled.
 */
module DataTable {
  import opened Wrappers
  import opened Http

  /** A column: its key and its header text (`label` in TypeScript). */
  datatype Column = Column(name: string, caption: string)

  datatype ActionButton = ActionButton(icon: string, tooltip: string, name: string)

  /** `TableConfig`: every setting is optional. */
  datatype TableConfig = TableConfig(
    paginator: Option<bool>,
    pageSizeOptions: Option<seq<int>>,
    actionColumn: Option<seq<ActionButton>>)

  const EmptyConfig := TableConfig(None, None, None)

  const ActionsColumn := "actions"

  /** The entry of `changes['data']` that `ngOnChanges` reads; None is a null or undefined value. */
  datatype DataChange = DataChange(currentValue: Option<seq<Row>>)

  /** `columns.map(column => column.name)`. */
  function ColumnNames(columns: seq<Column>): (names: seq<string>)
    ensures |names| == |columns|
    ensures forall i :: 0 <= i < |columns| ==> names[i] == columns[i].name
  {
    seq(|columns|, i requires 0 <= i < |columns| => columns[i].name)
  }

  /** The column keys shown: the column names in order, then "actions" if an action column is configured. */
  function DisplayedColumns(columns: seq<Column>, config: TableConfig): (shown: seq<string>)
    ensures |shown| == |columns| + (if config.actionColumn.Some? then 1 else 0)
    ensures forall i :: 0 <= i < |columns| ==> shown[i] == columns[i].name
    ensures config.actionColumn.Some? ==> shown[|shown| - 1] == ActionsColumn
  {
    if config.actionColumn.Some? then ColumnNames(columns) + [ActionsColumn] else ColumnNames(columns)
  }

  class DataTableComponent {
    // inputs bound by the parent
    var columns: seq<Column>
    var data: seq<Row>
    var config: TableConfig
    // view state
    var displayedColumns: seq<string>
    var sourceData: seq<Row>

    constructor ()
      ensures columns == [] && data == [] && config == EmptyConfig
      ensures displayedColumns == [] && sourceData == []
    {
      columns, data, config := [], [], EmptyConfig;
      displayedColumns := [];
      sourceData := data;
    }

    /** The parent binding the three inputs before `ngOnInit`. */
    method BindInputs(columns: seq<Column>, data: seq<Row>, config: TableConfig)
      modifies this`columns, this`data, this`config
      ensures this.columns == columns && this.data == data && this.config == config
    {
      this.columns, this.data, this.config := columns, data, config;
    }

    /** `ngOnInit`: shows `data` and computes the displayed columns, once. */
    method NgOnInit()
      modifies this`sourceData, this`displayedColumns
      ensures sourceData == data
      ensures displayedColumns == DisplayedColumns(columns, config)
    {
      sourceData := data;
      displayedColumns := ColumnNames(columns);
      if config.actionColumn.Some? {
        displayedColumns := displayedColumns + [ActionsColumn];
      }
    }

    /**
     * `ngOnChanges`: a present new value replaces the shown rows wholesale.
     * Reading `changes['data']` when the data input did not change throws,
     * and then nothing is updated (`threw`).
     */
    method NgOnChanges(dataChange: Option<DataChange>) returns (threw: bool)
      modifies this`sourceData
      ensures threw <==> dataChange.None?
      ensures sourceData ==
        if dataChange.Some? && dataChange.value.currentValue.Some?
        then dataChange.value.currentValue.value
        else old(sourceData)
    {
      if dataChange.None? {
        return true;
      }
      threw := false;
      if dataChange.value.currentValue.Some? {
        sourceData := dataChange.value.currentValue.value;
      }
    }
  }
}
