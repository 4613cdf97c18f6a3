/** The column layout of the clients table
    (`src/components/clients/client-table-config.tsx`). */
module ClientTableConfig {

  /** `ClientTableColumnId`. */
  datatype ColumnId = Name | Phone | PetName | PetAge | PetType | Actions

  /** `ClientTableColumnConfig`; an absent `sortable` is `false`. */
  datatype ColumnConfig = ColumnConfig(id: ColumnId, header: string, widthClassName: string, sortable: bool)

  /** `clientTableColumns`. */
  const ClientTableColumns: seq<ColumnConfig> := [
    ColumnConfig(Name, "Name", "w-[17%]", true),
    ColumnConfig(Phone, "Phone", "w-[17%]", false),
    ColumnConfig(PetName, "Pet Name", "w-[17%]", true),
    ColumnConfig(PetAge, "Pet Age", "w-[12%]", false),
    ColumnConfig(PetType, "Pet Type", "w-[17%]", false),
    ColumnConfig(Actions, "Actions", "w-[20%]", false)
  ]

  /** `columns.some(column => column.id === id && column.sortable)`. */
  function SomeSortable(columns: seq<ColumnConfig>, id: ColumnId): (r: bool)
    ensures r <==> exists i :: 0 <= i < |columns| && columns[i].id == id && columns[i].sortable
  {
    if columns == [] then false
    else
      var rest := SomeSortable(columns[1..], id);
      assert rest <==> exists i :: 1 <= i < |columns| && columns[i].id == id && columns[i].sortable by {
        if rest {
          var i :| 0 <= i < |columns[1..]| && columns[1..][i].id == id && columns[1..][i].sortable;
          assert columns[i + 1] == columns[1..][i];
        }
        forall i | 1 <= i < |columns| && columns[i].id == id && columns[i].sortable ensures rest {
          assert columns[1..][i - 1] == columns[i];
        }
      }
      (columns[0].id == id && columns[0].sortable) || rest
  }

  /** `isSortableClientColumn`. */
  function IsSortableClientColumn(id: ColumnId): (r: bool)
    ensures r <==> id == Name || id == PetName
  {
    SomeSortable(ClientTableColumns, id)
  }

  /** The ids of the columns, in display order. */
  function ColumnIds(columns: seq<ColumnConfig>): (ids: seq<ColumnId>)
    ensures |ids| == |columns| && forall i :: 0 <= i < |columns| ==> ids[i] == columns[i].id
  {
    seq(|columns|, i requires 0 <= i < |columns| => columns[i].id)
  }

  /** Six columns in the order name, phone, pet name, pet age, pet type,
      actions, no id twice. */
  lemma ColumnsInOrder()
    ensures ColumnIds(ClientTableColumns) == [Name, Phone, PetName, PetAge, PetType, Actions]
    ensures forall i, j :: 0 <= i < j < |ClientTableColumns| ==> ClientTableColumns[i].id != ClientTableColumns[j].id
  {
  }
}
