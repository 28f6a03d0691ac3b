/** The task record and the list operations the board performs by position. Each
    operation returns a new list, as the source builds new arrays with `map` and
    `filter`; a position outside the list changes nothing. */
module Tasks {
  import opened Wrappers
  import opened Text

  datatype Priority = Low | Medium | High

  /** A due date, abstracted to a comparable instant. */
  type Instant = int

  datatype Task = Task(text: string, done: bool, priority: Priority, dueDate: Option<Instant>, isEditing: bool)

  /** The per-task rewrites the source applies to the one task at the chosen position. */
  datatype Edit =
    | FlipDone
    | BeginEditing
    | Replace(newText: string, newPriority: Priority, newDueDate: Option<Instant>)

  function Apply(e: Edit, t: Task): (t': Task) {
    match e
    case FlipDone => t.(done := !t.done)
    case BeginEditing => t.(isEditing := true)
    case Replace(text, p, d) => t.(text := text, priority := p, dueDate := d, isEditing := false)
  }

  /** `tasks.map((t, i) => i === index ? edit(t) : t)`: the task at `index` is rewritten,
      every other position keeps its task. */
  function UpdateAt(ts: seq<Task>, index: int, e: Edit): (r: seq<Task>)
    ensures |r| == |ts|
    ensures forall k :: 0 <= k < |ts| && k != index ==> r[k] == ts[k]
    ensures 0 <= index < |ts| ==> r[index] == Apply(e, ts[index])
  {
    if ts == [] then []
    else
      var last := |ts| - 1;
      UpdateAt(ts[..last], index, e) + [if index == last then Apply(e, ts[last]) else ts[last]]
  }

  /** Flips the `done` flag of the task at `index` and touches nothing else. */
  function ToggleDone(ts: seq<Task>, index: int): (r: seq<Task>)
    ensures |r| == |ts|
    ensures forall k :: 0 <= k < |ts| && k != index ==> r[k] == ts[k]
    ensures 0 <= index < |ts| ==> r[index].done == !ts[index].done && r[index] == ts[index].(done := r[index].done)
    ensures !(0 <= index < |ts|) ==> r == ts
  {
    UpdateAt(ts, index, FlipDone)
  }

  /** Puts the task at `index` into edit mode; other tasks keep their edit flags, so
      several tasks may be in edit mode at once. */
  function StartEditing(ts: seq<Task>, index: int): (r: seq<Task>)
    ensures |r| == |ts|
    ensures forall k :: 0 <= k < |ts| && k != index ==> r[k] == ts[k]
    ensures 0 <= index < |ts| ==> r[index].isEditing && r[index] == ts[index].(isEditing := true)
    ensures !(0 <= index < |ts|) ==> r == ts
  {
    UpdateAt(ts, index, BeginEditing)
  }

  /** Saves an inline edit: blank new text leaves the list as it is (the source alerts
      and returns); otherwise the task at `index` takes the new text, priority and due
      date, leaves edit mode and keeps its `done` flag. */
  function SaveEditedTask(ts: seq<Task>, index: int, newText: string, newPriority: Priority,
                          newDueDate: Option<Instant>): (r: seq<Task>)
    ensures IsBlank(newText) || !(0 <= index < |ts|) ==> r == ts
    ensures |r| == |ts|
    ensures forall k :: 0 <= k < |ts| && k != index ==> r[k] == ts[k]
    ensures !IsBlank(newText) && 0 <= index < |ts| ==>
              r[index] == Task(newText, ts[index].done, newPriority, newDueDate, false)
  {
    if IsBlank(newText) then ts else UpdateAt(ts, index, Replace(newText, newPriority, newDueDate))
  }

  /** `tasks.filter((_, i) => i !== index)`: drops the task at `index`, shifting the later
      ones down by one; a position outside the list drops nothing. */
  function DeleteTask(ts: seq<Task>, index: int): (r: seq<Task>)
    ensures if 0 <= index < |ts| then r == ts[..index] + ts[index + 1..] else r == ts
  {
    if ts == [] then []
    else
      var last := |ts| - 1;
      var front := DeleteTask(ts[..last], index);
      if index == last then
        front
      else
        assert 0 <= index < last ==> ts[..index] + ts[index + 1..] == ts[..last][..index] + ts[..last][index + 1..] + [ts[last]];
        front + [ts[last]]
  }

  /** Toggling the same position twice restores the list. */
  lemma ToggleDoneTwice(ts: seq<Task>, index: int)
    ensures ToggleDone(ToggleDone(ts, index), index) == ts
  {
    var r := ToggleDone(ToggleDone(ts, index), index);
    assert forall k :: 0 <= k < |ts| ==> r[k] == ts[k];
  }

  /** Starting to edit a task that is already being edited changes nothing. */
  lemma StartEditingIdempotent(ts: seq<Task>, index: int)
    ensures StartEditing(StartEditing(ts, index), index) == StartEditing(ts, index)
  {
  }

  /** Saving overrides the edit flag that starting the edit set: entering edit mode and
      then saving non-blank text gives the same list as saving directly. */
  lemma SaveAfterStartEditing(ts: seq<Task>, index: int, newText: string, newPriority: Priority,
                              newDueDate: Option<Instant>)
    requires !IsBlank(newText)
    ensures SaveEditedTask(StartEditing(ts, index), index, newText, newPriority, newDueDate)
         == SaveEditedTask(ts, index, newText, newPriority, newDueDate)
  {
  }

  /** Deleting an in-range position shortens the list by one, keeps the earlier tasks in
      place, moves each later task down one position, and removes exactly that task. */
  lemma DeleteTaskShifts(ts: seq<Task>, index: int)
    requires 0 <= index < |ts|
    ensures |DeleteTask(ts, index)| == |ts| - 1
    ensures forall k :: 0 <= k < index ==> DeleteTask(ts, index)[k] == ts[k]
    ensures forall k :: index <= k < |ts| - 1 ==> DeleteTask(ts, index)[k] == ts[k + 1]
    ensures multiset(DeleteTask(ts, index)) + multiset{ts[index]} == multiset(ts)
  {
    var before, after := ts[..index], ts[index + 1..];
    var r := DeleteTask(ts, index);
    assert r == before + after;
    assert ts == before + [ts[index]] + after;
    assert multiset(ts) == multiset(before) + multiset{ts[index]} + multiset(after);
    forall k | index <= k < |ts| - 1 ensures r[k] == ts[k + 1] {
      assert r[k] == after[k - index];
    }
  }

  /** Every task in the list has non-blank text. */
  predicate AllTextsNonBlank(ts: seq<Task>) {
    forall k :: 0 <= k < |ts| ==> !IsBlank(ts[k].text)
  }

  /** The list operations keep every task's text non-blank. */
  lemma OperationsKeepTextsNonBlank(ts: seq<Task>, index: int, newText: string, newPriority: Priority,
                                    newDueDate: Option<Instant>)
    requires AllTextsNonBlank(ts)
    ensures AllTextsNonBlank(ToggleDone(ts, index))
    ensures AllTextsNonBlank(StartEditing(ts, index))
    ensures AllTextsNonBlank(DeleteTask(ts, index))
    ensures AllTextsNonBlank(SaveEditedTask(ts, index, newText, newPriority, newDueDate))
  {
    var toggled := ToggleDone(ts, index);
    forall k | 0 <= k < |toggled| ensures !IsBlank(toggled[k].text) {
      assert toggled[k].text == ts[k].text;
    }
    var editing := StartEditing(ts, index);
    forall k | 0 <= k < |editing| ensures !IsBlank(editing[k].text) {
      assert editing[k].text == ts[k].text;
    }
    var saved := SaveEditedTask(ts, index, newText, newPriority, newDueDate);
    forall k | 0 <= k < |saved| ensures !IsBlank(saved[k].text) {
      assert saved[k].text == if k == index && !IsBlank(newText) then newText else ts[k].text;
    }
    var deleted := DeleteTask(ts, index);
    if 0 <= index < |ts| {
      DeleteTaskShifts(ts, index);
      forall k | 0 <= k < |deleted| ensures !IsBlank(deleted[k].text) {
        assert deleted[k] == if k < index then ts[k] else ts[k + 1];
      }
    }
  }
}
