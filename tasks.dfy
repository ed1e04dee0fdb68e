/** The add-task form of the task list: whether it is open, and the title and
    date typed into it. */
module TaskList {
  import opened Types

  /** The arguments of one `onAddTask` call. */
  datatype NewTask = NewTask(title: string, dueDate: string)

  class TaskForm {
    var isAdding: bool
    var title: string
    var date: string

    constructor ()
      ensures !isAdding && title == "" && date == ""
    {
      isAdding := false;
      title := "";
      date := "";
    }

    /** "Add Task": show the form; what was typed before is still there. */
    method Open()
      modifies this
      ensures isAdding && title == old(title) && date == old(date)
    {
      isAdding := true;
    }

    method EditTitle(value: string)
      modifies this
      ensures title == value && date == old(date) && isAdding == old(isAdding)
    {
      title := value;
    }

    method EditDate(value: string)
      modifies this
      ensures date == value && title == old(title) && isAdding == old(isAdding)
    {
      date := value;
    }

    /** "Cancel": hide the form and keep what was typed. */
    method Cancel()
      modifies this
      ensures !isAdding && title == old(title) && date == old(date)
    {
      isAdding := false;
    }

    /** `handleAdd`: with an empty title nothing is added and nothing changes;
        otherwise one task is added with the typed date, or `today` when no
        date was typed, and the form is cleared and closed. */
    method Submit(today: string) returns (added: Option<NewTask>)
      modifies this
      ensures old(title) == "" ==> added == None
      ensures old(title) == "" ==> isAdding == old(isAdding) && title == old(title) && date == old(date)
      ensures old(title) != "" ==> added == Some(NewTask(old(title), DueDateOrToday(old(date), today)))
      ensures old(title) != "" ==> !isAdding && title == "" && date == ""
    {
      if title == "" {
        return None;
      }
      var dueDate := if date != "" then date else today;
      added := Some(NewTask(title, dueDate));
      title := "";
      date := "";
      isAdding := false;
    }
  }

  /** `date || today`: an empty date falls back to today's. */
  function DueDateOrToday(date: string, today: string): (r: string)
    ensures date != "" ==> r == date
    ensures date == "" ==> r == today
  {
    if date != "" then date else today
  }
}
