/** The filter projection: the view the board renders, derived from the task list and
    two independent selectors. */
module Filtering {
  import opened Tasks

  /** The "done" selector: '' (all tasks), 'done' or 'undone'. */
  datatype DoneFilter = AnyStatus | DoneOnly | UndoneOnly

  /** The "priority" selector: '' (all priorities) or one priority. */
  datatype PriorityFilter = AnyPriority | OnlyPriority(wanted: Priority)

  datatype Filters = Filters(done: DoneFilter, priority: PriorityFilter)

  /** The initial filter state `{ done: '', priority: '' }`. */
  const NoFilters := Filters(AnyStatus, AnyPriority)

  /** The predicate `filteredTasks` keeps a task by. A done selector other than "all"
      keeps done tasks when it is 'done' and undone tasks otherwise. */
  predicate Passes(f: Filters, t: Task) {
    (f.done == AnyStatus || (if f.done == DoneOnly then t.done else !t.done))
    && (f.priority == AnyPriority || t.priority == f.priority.wanted)
  }

  /** `tasks.filter(...)`: the tasks that pass, in list order. */
  function Filtered(ts: seq<Task>, f: Filters): (r: seq<Task>)
    ensures |r| <= |ts|
    ensures forall j :: 0 <= j < |r| ==> Passes(f, r[j])
    ensures multiset(r) <= multiset(ts)
  {
    if ts == [] then []
    else
      var last := |ts| - 1;
      assert ts == ts[..last] + [ts[last]];
      Filtered(ts[..last], f) + (if Passes(f, ts[last]) then [ts[last]] else [])
  }

  /** The positions of the tasks that pass, in increasing order: a task's position is
      listed exactly when the task passes. */
  function KeptPositions(ts: seq<Task>, f: Filters): (ps: seq<int>)
    ensures forall j :: 0 <= j < |ps| ==> 0 <= ps[j] < |ts| && Passes(f, ts[ps[j]])
    ensures forall j, j' :: 0 <= j < j' < |ps| ==> ps[j] < ps[j']
    ensures forall k :: 0 <= k < |ts| && Passes(f, ts[k]) ==> k in ps
  {
    if ts == [] then []
    else
      var last := |ts| - 1;
      KeptPositions(ts[..last], f) + (if Passes(f, ts[last]) then [last] else [])
  }

  /** The filtered view is the order-preserving subsequence of the list at the kept
      positions. */
  lemma {:induction false} FilteredIsSubsequence(ts: seq<Task>, f: Filters)
    ensures |Filtered(ts, f)| == |KeptPositions(ts, f)|
    ensures forall j :: 0 <= j < |Filtered(ts, f)| ==> Filtered(ts, f)[j] == ts[KeptPositions(ts, f)[j]]
  {
    if ts != [] {
      var last := |ts| - 1;
      var front := ts[..last];
      FilteredIsSubsequence(front, f);
      var r, ps := Filtered(ts, f), KeptPositions(ts, f);
      var r', ps' := Filtered(front, f), KeptPositions(front, f);
      assert r == r' + (if Passes(f, ts[last]) then [ts[last]] else []);
      assert ps == ps' + (if Passes(f, ts[last]) then [last] else []);
      forall j | 0 <= j < |r| ensures r[j] == ts[ps[j]] {
        if j < |r'| {
          assert r[j] == r'[j] == front[ps'[j]];
        }
      }
    }
  }

  /** Filtering distributes over concatenation. */
  lemma {:induction false} FilteredAppend(a: seq<Task>, b: seq<Task>, f: Filters)
    ensures Filtered(a + b, f) == Filtered(a, f) + Filtered(b, f)
    decreases |b|
  {
    if b != [] {
      var last := |b| - 1;
      assert (a + b)[..|a + b| - 1] == a + b[..last];
      FilteredAppend(a, b[..last], f);
    } else {
      assert a + b == a;
    }
  }

  /** With both selectors unset the view is the whole list. */
  lemma {:induction false} NoFiltersKeepsAll(ts: seq<Task>)
    ensures Filtered(ts, NoFilters) == ts
  {
    if ts != [] {
      var last := |ts| - 1;
      NoFiltersKeepsAll(ts[..last]);
      assert ts == ts[..last] + [ts[last]];
    }
  }

  /** Filtering an already filtered view changes nothing. */
  lemma {:induction false} FilteredIdempotent(ts: seq<Task>, f: Filters)
    ensures Filtered(Filtered(ts, f), f) == Filtered(ts, f)
  {
    if ts != [] {
      var last := |ts| - 1;
      FilteredIdempotent(ts[..last], f);
      FilteredAppend(Filtered(ts[..last], f), if Passes(f, ts[last]) then [ts[last]] else [], f);
    }
  }

  /** The 'done' and 'undone' views split the view with the status selector unset: every
      task it shows is in exactly one of them. */
  lemma {:induction false} DoneSelectorsPartition(ts: seq<Task>, p: PriorityFilter)
    ensures |Filtered(ts, Filters(DoneOnly, p))| + |Filtered(ts, Filters(UndoneOnly, p))|
         == |Filtered(ts, Filters(AnyStatus, p))|
  {
    if ts != [] {
      DoneSelectorsPartition(ts[..|ts| - 1], p);
    }
  }

  /** Which selector a filter change sets, and to what. */
  datatype FilterChange = SetDone(doneValue: DoneFilter) | SetPriority(priorityValue: PriorityFilter)

  /** `handleFilterChange(type, value)`: the named selector takes the new value and the
      other keeps its own. */
  function ChangeFilter(f: Filters, change: FilterChange): (r: Filters)
    ensures change.SetDone? ==> r.done == change.doneValue && r.priority == f.priority
    ensures change.SetPriority? ==> r.priority == change.priorityValue && r.done == f.done
  {
    match change
    case SetDone(v) => f.(done := v)
    case SetPriority(v) => f.(priority := v)
  }

  /** Resetting both selectors, whatever they were, restores the unfiltered view. */
  lemma ResetFiltersShowsAll(f: Filters, ts: seq<Task>)
    ensures ChangeFilter(ChangeFilter(f, SetDone(AnyStatus)), SetPriority(AnyPriority)) == NoFilters
    ensures Filtered(ts, ChangeFilter(ChangeFilter(f, SetDone(AnyStatus)), SetPriority(AnyPriority))) == ts
  {
    NoFiltersKeepsAll(ts);
  }
}
