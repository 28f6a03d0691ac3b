/** The task board's state store: the component's state slots as the fields of one
    object, and the handlers that overwrite them. Storage, rendering and the clock stay
    outside; the current instant is passed to `AddTask`. */
module Board {
  import opened Wrappers
  import opened Text
  import opened Tasks
  import opened Filtering

  const EmptyTaskError := "Task cannot be empty."
  const PastDueError := "Due date cannot be in the past."

  /** `new Date(dueDate) < new Date()`: an absent (empty or unparseable) due date is an
      invalid date, and comparing it is false. */
  predicate IsPastDue(dueDate: Option<Instant>, now: Instant) {
    dueDate.Some? && dueDate.value < now
  }

  /** The checks of `addTask`, in their order: blank text first, then a past due date.
      `None` means the draft may be added; otherwise the message to show. */
  function ValidateDraft(text: string, dueDate: Option<Instant>, now: Instant): (r: Option<string>)
    ensures r == None <==> !IsBlank(text) && !IsPastDue(dueDate, now)
    ensures r == Some(EmptyTaskError) <==> IsBlank(text)
    ensures r == Some(PastDueError) <==> !IsBlank(text) && IsPastDue(dueDate, now)
  {
    if IsBlank(text) then Some(EmptyTaskError)
    else if IsPastDue(dueDate, now) then Some(PastDueError)
    else None
  }

  /** The record `addTask` appends: not done, not being edited. */
  function NewTask(text: string, priority: Priority, dueDate: Option<Instant>): (t: Task) {
    Task(text, false, priority, dueDate, false)
  }

  /** Appending a draft that passed validation keeps every task's text non-blank. */
  lemma AddingValidDraftKeepsTextsNonBlank(ts: seq<Task>, text: string, priority: Priority,
                                           dueDate: Option<Instant>, now: Instant)
    requires AllTextsNonBlank(ts)
    requires ValidateDraft(text, dueDate, now) == None
    ensures AllTextsNonBlank(ts + [NewTask(text, priority, dueDate)])
  {
    var r := ts + [NewTask(text, priority, dueDate)];
    forall k | 0 <= k < |r| ensures !IsBlank(r[k].text) {
      assert r[k].text == if k < |ts| then ts[k].text else text;
    }
  }

  class TaskBoard {
    var tasks: seq<Task>
    // the new-task form
    var draftText: string
    var draftPriority: Priority
    var draftDueDate: Option<Instant>
    var filters: Filters
    var darkMode: bool
    var error: Option<string>

    /** The initial state: the saved list and theme flag when storage held them, an
        empty list and the light theme otherwise; an empty draft with Medium priority,
        no filters and no error. */
    constructor (savedTasks: Option<seq<Task>>, savedDarkMode: Option<bool>)
      ensures tasks == (if savedTasks.Some? then savedTasks.value else [])
      ensures darkMode == (savedDarkMode.Some? && savedDarkMode.value)
      ensures draftText == "" && draftPriority == Medium && draftDueDate == None
      ensures filters == NoFilters && error == None
    {
      tasks := if savedTasks.Some? then savedTasks.value else [];
      darkMode := if savedDarkMode.Some? then savedDarkMode.value else false;
      draftText, draftPriority, draftDueDate := "", Medium, None;
      filters := NoFilters;
      error := None;
    }

    /** Validates the draft against `now`. On failure only the error changes; on success
        the draft becomes one new task at the end of the list, the draft is reset and
        the error cleared. */
    method AddTask(now: Instant)
      modifies this`tasks, this`draftText, this`draftPriority, this`draftDueDate, this`error
      ensures var verdict := ValidateDraft(old(draftText), old(draftDueDate), now);
        if verdict.Some? then
          && tasks == old(tasks)
          && draftText == old(draftText) && draftPriority == old(draftPriority)
          && draftDueDate == old(draftDueDate)
          && error == verdict
        else
          && tasks == old(tasks) + [NewTask(old(draftText), old(draftPriority), old(draftDueDate))]
          && draftText == "" && draftPriority == Medium && draftDueDate == None
          && error == None
    {
      ghost var verdict := ValidateDraft(draftText, draftDueDate, now);
      if IsBlank(draftText) {
        assert verdict == Some(EmptyTaskError);
        error := Some(EmptyTaskError);
        return;
      }
      if IsPastDue(draftDueDate, now) {
        assert verdict == Some(PastDueError);
        error := Some(PastDueError);
        return;
      }
      assert verdict == None;
      tasks := tasks + [NewTask(draftText, draftPriority, draftDueDate)];
      draftText := "";
      draftPriority := Medium;
      draftDueDate := None;
      error := None;
    }

    method ToggleDone(index: int)
      modifies this`tasks
      ensures tasks == Tasks.ToggleDone(old(tasks), index)
    {
      tasks := Tasks.ToggleDone(tasks, index);
    }

    method DeleteTask(index: int)
      modifies this`tasks
      ensures tasks == Tasks.DeleteTask(old(tasks), index)
    {
      tasks := Tasks.DeleteTask(tasks, index);
    }

    method StartEditing(index: int)
      modifies this`tasks
      ensures tasks == Tasks.StartEditing(old(tasks), index)
    {
      tasks := Tasks.StartEditing(tasks, index);
    }

    /** Saves an inline edit. Blank text raises the alert (`alerted`) and changes nothing;
        the error slot is not used. */
    method SaveEditedTask(index: int, newText: string, newPriority: Priority, newDueDate: Option<Instant>)
      returns (alerted: bool)
      modifies this`tasks
      ensures alerted == IsBlank(newText)
      ensures tasks == Tasks.SaveEditedTask(old(tasks), index, newText, newPriority, newDueDate)
    {
      if IsBlank(newText) {
        alerted := true;
        return;
      }
      alerted := false;
      tasks := Tasks.SaveEditedTask(tasks, index, newText, newPriority, newDueDate);
    }

    method HandleFilterChange(change: FilterChange)
      modifies this`filters
      ensures filters == ChangeFilter(old(filters), change)
    {
      filters := ChangeFilter(filters, change);
    }

    method ToggleDarkMode()
      modifies this`darkMode
      ensures darkMode == !old(darkMode)
    {
      darkMode := !darkMode;
    }
  }

  /** A fresh board refuses a blank draft and then adds a valid one. */
  method ExampleAdd(now: Instant)
  {
    var board := new TaskBoard(None, None);
    var blank, name := "  ", "Report";
    assert IsBlank(blank) by {
      assert forall k :: 0 <= k < |blank| ==> blank[k] == ' ';
    }
    assert !IsBlank(name) by {
      assert name[0] == 'R' && !IsWhitespace(name[0]);
    }

    board.draftText := blank;
    board.AddTask(now);
    assert board.tasks == [] && board.error == Some(EmptyTaskError);

    board.draftText := name;
    board.draftPriority := High;
    board.AddTask(now);
    assert board.tasks == [NewTask(name, High, None)];
    assert board.error == None && board.draftText == "" && board.draftPriority == Medium;
  }

  /** Toggling a task twice restores it, and deleting the only task empties the list. */
  method ExampleToggleDelete(t: Task)
  {
    var board := new TaskBoard(Some([t]), None);
    board.ToggleDone(0);
    assert board.tasks[0].done == !t.done;
    board.ToggleDone(0);
    ToggleDoneTwice([t], 0);
    assert board.tasks == [t];
    board.DeleteTask(0);
    assert board.tasks == [];
  }

  /** Toggling the theme twice restores it. */
  method ExampleTheme(saved: Option<bool>)
  {
    var board := new TaskBoard(None, saved);
    var before := board.darkMode;
    board.ToggleDarkMode();
    board.ToggleDarkMode();
    assert board.darkMode == before;
  }
}
