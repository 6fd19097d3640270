/** A board column of src/components/Column.jsx: the title editor and the add-task form. */
module ColumnWidget {
  import opened Wrappers
  import opened Entities
  import Text

  /** The title `handleSaveColumn` submits: nothing when blank, the trimmed title otherwise. */
  function SavedTitle(columnTitle: string): (r: Option<string>)
    ensures r.None? <==> Text.IsBlank(columnTitle)
    ensures r.Some? ==> r.value != "" && Text.Trim(r.value) == r.value
  {
    Text.TrimEmptyIffBlank(columnTitle);
    Text.TrimIdempotent(columnTitle);
    if Text.Trim(columnTitle) != "" then Some(Text.Trim(columnTitle)) else None
  }

  /** An `onEditColumn(columnId, { title })` call. */
  datatype ColumnEdit = ColumnEdit(columnId: string, title: string)

  /** An `onAddTask(columnId, taskData)` call. */
  datatype TaskAdd = TaskAdd(columnId: string, taskData: Task)

  class ColumnHeader {
    /** The `column` prop: the parent passes a new value after each retitle, while the state below
        lives on. */
    var column: Column
    var isAddingTask: bool
    var isEditingColumn: bool
    var columnTitle: string

    constructor (column: Column)
      ensures this.column == column && columnTitle == column.title
      ensures !isAddingTask && !isEditingColumn
    {
      this.column := column;
      isAddingTask := false;
      isEditingColumn := false;
      columnTitle := column.title;
    }

    /** The edit button. */
    method StartEditing()
      modifies this`isEditingColumn
      ensures isEditingColumn
    {
      isEditingColumn := true;
    }

    method SetColumnTitle(value: string)
      modifies this`columnTitle
      ensures columnTitle == value
    {
      columnTitle := value;
    }

    /** `handleSaveColumn`: a blank title makes no call and stays in edit mode. */
    method HandleSaveColumn() returns (edit: Option<ColumnEdit>)
      modifies this`isEditingColumn
      ensures SavedTitle(columnTitle).None? ==> edit.None? && isEditingColumn == old(isEditingColumn)
      ensures SavedTitle(columnTitle).Some? ==> edit == Some(ColumnEdit(column.id, SavedTitle(columnTitle).value)) && !isEditingColumn
    {
      var trimmed := SavedTitle(columnTitle);
      if trimmed.Some? {
        edit := Some(ColumnEdit(column.id, trimmed.value));
        isEditingColumn := false;
      } else {
        edit := None;
      }
    }

    /** A key press in the title input: Enter saves, any other key does nothing. */
    method KeyPress(key: string) returns (edit: Option<ColumnEdit>)
      modifies this`isEditingColumn
      ensures key != "Enter" ==> edit.None? && isEditingColumn == old(isEditingColumn)
      ensures key == "Enter" && SavedTitle(columnTitle).None? ==> edit.None? && isEditingColumn == old(isEditingColumn)
      ensures key == "Enter" && SavedTitle(columnTitle).Some? ==>
        edit == Some(ColumnEdit(column.id, SavedTitle(columnTitle).value)) && !isEditingColumn
    {
      if key == "Enter" {
        edit := HandleSaveColumn();
      } else {
        edit := None;
      }
    }

    /** `handleCancelEdit`. */
    method HandleCancelEdit()
      modifies this`columnTitle, this`isEditingColumn
      ensures columnTitle == column.title && !isEditingColumn
    {
      columnTitle := column.title;
      isEditingColumn := false;
    }

    /** A re-render with a new `column` prop: React keeps the component's state. */
    method ReceiveColumn(c: Column)
      modifies this`column
      ensures column == c
    {
      column := c;
    }

    /** Rename the column, let the parent apply the edit, then open the editor again and cancel:
        the editor shows the saved title, which the new prop carries. */
    method RenameThenCancel(value: string) returns (edit: Option<ColumnEdit>)
      modifies this`column, this`columnTitle, this`isEditingColumn
      ensures SavedTitle(value).Some? ==>
        edit == Some(ColumnEdit(old(column).id, SavedTitle(value).value)) &&
        column == old(column).(title := SavedTitle(value).value) &&
        columnTitle == SavedTitle(value).value && !isEditingColumn
      ensures SavedTitle(value).None? ==> edit.None? && column == old(column) && columnTitle == old(column).title && !isEditingColumn
    {
      StartEditing();
      SetColumnTitle(value);
      edit := HandleSaveColumn();
      if edit.Some? {
        ReceiveColumn(column.(title := edit.value.title));
        StartEditing();
      }
      HandleCancelEdit();
    }

    /** The delete button: `onDeleteColumn(column.id)`. */
    method RequestDelete() returns (columnId: string)
      ensures columnId == column.id
    {
      columnId := column.id;
    }

    /** The "Add Task" button. */
    method OpenAddTask()
      modifies this`isAddingTask
      ensures isAddingTask
    {
      isAddingTask := true;
    }

    /** The add-task form's `onSave`: add to this column, close the form. */
    method SaveNewTask(taskData: Task) returns (call: TaskAdd)
      modifies this`isAddingTask
      ensures call == TaskAdd(column.id, taskData) && !isAddingTask
    {
      call := TaskAdd(column.id, taskData);
      isAddingTask := false;
    }

    method CancelAddTask()
      modifies this`isAddingTask
      ensures !isAddingTask
    {
      isAddingTask := false;
    }
  }
}
