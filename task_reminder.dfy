/** The task reminder board: a list of reminders, the filter, search and
    sort pipeline that produces the shown list, and the form handlers that
    add, edit, toggle and delete reminders by id. Dates are milliseconds. */
module TaskReminder {
  import opened Types
  import Text
  import Seqs

  /** A reminder; `category` and `notes` may be absent on stored records. */
  datatype Reminder = Reminder(
    id: string,
    task: string,
    dueDate: int,
    priority: Priority,
    completed: bool,
    category: Option<string>,
    notes: Option<string>)

  /** The priority selector: every priority, or exactly one. */
  datatype PriorityFilter = AnyPriority | OnlyPriority(priority: Priority)

  /** The status selector: all tasks, the active ones or the completed ones. */
  datatype StatusFilter = AllTasks | Active | Completed

  /** The form's fields; `dueDate` is the raw text of the date-time input. */
  datatype Form = Form(task: string, dueDate: string, priority: Priority, category: string, notes: string)

  const EmptyForm := Form("", "", Medium, "", "")

  // ----- the filter effect -----

  predicate PriorityOk(pf: PriorityFilter, r: Reminder)
  {
    pf.OnlyPriority? ==> r.priority == pf.priority
  }

  predicate StatusOk(sf: StatusFilter, r: Reminder)
  {
    match sf
    case AllTasks => true
    case Active => !r.completed
    case Completed => r.completed
  }

  /** A present field contains the query, ignoring case. */
  predicate FieldMatches(field: Option<string>, query: string)
  {
    field.Some? && Text.ContainsIgnoringCase(field.value, query)
  }

  /** The search: task, category or notes contains the query, ignoring case. */
  predicate MatchesQuery(r: Reminder, query: string)
  {
    FieldMatches(Some(r.task), query) || FieldMatches(r.category, query) || FieldMatches(r.notes, query)
  }

  /** An empty query keeps everything. */
  predicate QueryOk(query: string, r: Reminder)
  {
    query == [] || MatchesQuery(r, query)
  }

  /** A reminder passes when it passes all three selectors. */
  predicate Passes(r: Reminder, pf: PriorityFilter, sf: StatusFilter, query: string)
  {
    PriorityOk(pf, r) && StatusOk(sf, r) && QueryOk(query, r)
  }

  function ByPriority(rs: seq<Reminder>, pf: PriorityFilter): seq<Reminder>
  {
    Seqs.Filter(rs, r => PriorityOk(pf, r))
  }

  function ByStatus(rs: seq<Reminder>, sf: StatusFilter): seq<Reminder>
  {
    Seqs.Filter(rs, r => StatusOk(sf, r))
  }

  function ByQuery(rs: seq<Reminder>, query: string): seq<Reminder>
  {
    Seqs.Filter(rs, r => QueryOk(query, r))
  }

  /** Incomplete before completed, then earliest due first. */
  function DueKey(r: Reminder): Seqs.Key
  {
    Seqs.Key(if r.completed then 1 else 0, r.dueDate)
  }

  /** The list the board shows: the three filters in turn, then the sort. */
  function Shown(rs: seq<Reminder>, pf: PriorityFilter, sf: StatusFilter, query: string): seq<Reminder>
  {
    Seqs.SortBy(ByQuery(ByStatus(ByPriority(rs, pf), sf), query), DueKey)
  }

  /** No selector is set, so the effect sorts the stored list itself. */
  predicate NoFilter(pf: PriorityFilter, sf: StatusFilter, query: string)
  {
    pf.AnyPriority? && sf.AllTasks? && |query| == 0
  }

  /** Switched-off selectors keep every reminder. */
  lemma SelectorsOff(rs: seq<Reminder>, pf: PriorityFilter, sf: StatusFilter, query: string)
    ensures pf == AnyPriority ==> ByPriority(rs, pf) == rs
    ensures sf == AllTasks ==> ByStatus(rs, sf) == rs
    ensures query == [] ==> ByQuery(rs, query) == rs
  {
    if pf == AnyPriority {
      Seqs.FilterKeepsAll(rs, r => PriorityOk(pf, r));
    }
    if sf == AllTasks {
      Seqs.FilterKeepsAll(rs, r => StatusOk(sf, r));
    }
    if query == [] {
      Seqs.FilterKeepsAll(rs, r => QueryOk(query, r));
    }
  }

  /** The shown list is sorted and is a permutation of the reminders that
      pass every selector: each passing reminder occurs as often as it is
      stored, and no other reminder occurs. */
  lemma ShownIsSortedSelection(rs: seq<Reminder>, pf: PriorityFilter, sf: StatusFilter, query: string)
    ensures Seqs.SortedBy(Shown(rs, pf, sf, query), DueKey)
    ensures forall r :: multiset(Shown(rs, pf, sf, query))[r] == if Passes(r, pf, sf, query) then multiset(rs)[r] else 0
    ensures forall r :: r in Shown(rs, pf, sf, query) <==> r in rs && Passes(r, pf, sf, query)
  {
    var s1 := ByPriority(rs, pf);
    var s2 := ByStatus(s1, sf);
    var s3 := ByQuery(s2, query);
    assert multiset(Shown(rs, pf, sf, query)) == multiset(s3);
    forall y
      ensures multiset(s3)[y] == if Passes(y, pf, sf, query) then multiset(rs)[y] else 0
    {
      Seqs.FilterCount(rs, r => PriorityOk(pf, r), y);
      Seqs.FilterCount(s1, r => StatusOk(sf, r), y);
      Seqs.FilterCount(s2, r => QueryOk(query, r), y);
    }
  }

  /** Each selector on its own: the priority and status choices and the
      case-insensitive search decide membership exactly. */
  lemma ShownBySelector(rs: seq<Reminder>, pf: PriorityFilter, sf: StatusFilter, query: string, r: Reminder)
    requires r in Shown(rs, pf, sf, query)
    ensures r in rs
    ensures pf.OnlyPriority? ==> r.priority == pf.priority
    ensures sf == Active ==> !r.completed
    ensures sf == Completed ==> r.completed
    ensures query != [] ==> MatchesQuery(r, query)
  {
    ShownIsSortedSelection(rs, pf, sf, query);
  }

  /** With no selector set every reminder is shown, and showing the shown
      list again changes nothing. */
  lemma UnfilteredShowsAll(rs: seq<Reminder>)
    ensures multiset(Shown(rs, AnyPriority, AllTasks, [])) == multiset(rs)
    ensures Shown(Shown(rs, AnyPriority, AllTasks, []), AnyPriority, AllTasks, []) == Shown(rs, AnyPriority, AllTasks, [])
  {
    var sorted := Shown(rs, AnyPriority, AllTasks, []);
    SelectorsOff(rs, AnyPriority, AllTasks, []);
    SelectorsOff(sorted, AnyPriority, AllTasks, []);
    Seqs.SortBySorted(sorted, DueKey);
  }

  // ----- the list operations -----

  /** The edited reminder takes the form's fields; id and completion stay. */
  function Edited(rs: seq<Reminder>, id: string, f: Form, due: int): (r: seq<Reminder>)
    ensures |r| == |rs|
    ensures forall i :: 0 <= i < |rs| && rs[i].id != id ==> r[i] == rs[i]
    ensures forall i :: 0 <= i < |rs| && rs[i].id == id ==>
      && r[i].id == id && r[i].completed == rs[i].completed
      && r[i].task == f.task && r[i].dueDate == due && r[i].priority == f.priority
      && r[i].category == Some(f.category) && r[i].notes == Some(f.notes)
  {
    seq(|rs|, i requires 0 <= i < |rs| =>
      if rs[i].id == id
      then rs[i].(task := f.task, dueDate := due, priority := f.priority,
                  category := Some(f.category), notes := Some(f.notes))
      else rs[i])
  }

  /** A new reminder from the form, not yet completed. */
  function NewReminder(id: string, f: Form, due: int): Reminder
  {
    Reminder(id, f.task, due, f.priority, false, Some(f.category), Some(f.notes))
  }

  /** Flips the completion of the reminders with `id`. */
  function Toggled(rs: seq<Reminder>, id: string): (r: seq<Reminder>)
    ensures |r| == |rs|
    ensures forall i :: 0 <= i < |rs| ==>
      if rs[i].id == id then r[i] == rs[i].(completed := !rs[i].completed) else r[i] == rs[i]
  {
    seq(|rs|, i requires 0 <= i < |rs| =>
      if rs[i].id == id then rs[i].(completed := !rs[i].completed) else rs[i])
  }

  /** Toggling twice gives the list back. */
  lemma ToggleTwice(rs: seq<Reminder>, id: string)
    ensures Toggled(Toggled(rs, id), id) == rs
  {
    var t := Toggled(Toggled(rs, id), id);
    assert forall i :: 0 <= i < |rs| ==> t[i] == rs[i];
  }

  /** Removes the reminders with `id`. */
  function Deleted(rs: seq<Reminder>, id: string): (r: seq<Reminder>)
    ensures forall x :: x in r <==> x in rs && x.id != id
  {
    Seqs.Filter(rs, (r: Reminder) => r.id != id)
  }

  /** Deleting keeps the other reminders in their order: it works piece by
      piece, and a reminder with another id is kept where it stood. */
  lemma DeletedKeepsOrder(a: seq<Reminder>, b: seq<Reminder>, x: Reminder, id: string)
    ensures Deleted(a + b, id) == Deleted(a, id) + Deleted(b, id)
    ensures x.id != id ==> Deleted([x], id) == [x]
    ensures x.id == id ==> Deleted([x], id) == []
  {
    Seqs.FilterConcat(a, b, (r: Reminder) => r.id != id);
    assert [x][1..] == [];
  }

  /** Overdue: not completed and due before now. */
  predicate IsOverdue(r: Reminder, now: int)
  {
    !r.completed && r.dueDate < now
  }

  /** The overdue reminders of the stored list, in its order. */
  function Overdue(rs: seq<Reminder>, now: int): (r: seq<Reminder>)
    ensures forall x :: x in r <==> x in rs && IsOverdue(x, now)
  {
    Seqs.Filter(rs, x => IsOverdue(x, now))
  }

  /** Open and due now or later: a candidate for the preview. */
  predicate DueAhead(x: Reminder, now: int)
  {
    !x.completed && x.dueDate >= now
  }

  /** The shown reminders that are candidates for the preview, in shown
      order and with every copy. */
  function Candidates(shown: seq<Reminder>, now: int): (q: seq<Reminder>)
    ensures forall x :: x in q <==> x in shown && DueAhead(x, now)
    ensures forall x :: multiset(q)[x] == if DueAhead(x, now) then multiset(shown)[x] else 0
  {
    var q := Seqs.Filter(shown, (x: Reminder) => DueAhead(x, now));
    assert forall x :: multiset(q)[x] == if DueAhead(x, now) then multiset(shown)[x] else 0 by {
      forall x
        ensures multiset(q)[x] == if DueAhead(x, now) then multiset(shown)[x] else 0
      {
        Seqs.FilterCount(shown, (x: Reminder) => DueAhead(x, now), x);
      }
    }
    q
  }

  /** The preview: the first five candidates in shown order, or all of them
      when there are fewer. */
  function Upcoming(shown: seq<Reminder>, now: int): (r: seq<Reminder>)
    ensures |r| <= 5
    ensures forall x :: x in r ==> x in shown && !x.completed && x.dueDate >= now
    ensures |r| == if |Candidates(shown, now)| < 5 then |Candidates(shown, now)| else 5
    ensures r == Candidates(shown, now)[..|r|]
    ensures |Candidates(shown, now)| <= 5 ==> forall x :: x in shown && DueAhead(x, now) ==> x in r
  {
    var pending := Candidates(shown, now);
    var r := Seqs.Take(pending, 5);
    assert forall x :: x in r ==> x in pending by {
      forall x | x in r
        ensures x in pending
      {
        var i :| 0 <= i < |r| && r[i] == x;
        assert pending[i] == x;
      }
    }
    r
  }

  /** No reminder is both overdue and upcoming. */
  lemma OverdueNotUpcoming(rs: seq<Reminder>, shown: seq<Reminder>, now: int, x: Reminder)
    requires x in Upcoming(shown, now)
    ensures x !in Overdue(rs, now)
  {
  }

  /** Applies the selectors one at a time, each only when it is set, and
      sorts what is left. */
  method Filtered(rs: seq<Reminder>, pf: PriorityFilter, sf: StatusFilter, query: string)
    returns (filtered: seq<Reminder>)
    ensures filtered == Shown(rs, pf, sf, query)
  {
    filtered := rs;
    SelectorsOff(filtered, pf, AllTasks, []);
    if pf != AnyPriority {
      filtered := ByPriority(filtered, pf);
    }
    ghost var byPriority := filtered;
    SelectorsOff(filtered, AnyPriority, sf, []);
    if sf == Active {
      filtered := ByStatus(filtered, Active);
    } else if sf == Completed {
      filtered := ByStatus(filtered, Completed);
    }
    ghost var byStatus := filtered;
    SelectorsOff(filtered, AnyPriority, AllTasks, query);
    if query != [] {
      filtered := ByQuery(filtered, query);
    }
    assert filtered == ByQuery(ByStatus(ByPriority(rs, pf), sf), query);
    filtered := Seqs.SortBy(filtered, DueKey);
  }

  /** The whole board at once. */
  datatype Board = Board(
    reminders: seq<Reminder>,
    shown: seq<Reminder>,
    query: string,
    priorityFilter: PriorityFilter,
    statusFilter: StatusFilter,
    showForm: bool,
    editing: Option<Reminder>,
    form: Form)

  /** The shown list is what the selectors make of the stored list. */
  predicate InStep(b: Board)
  {
    b.shown == Shown(b.reminders, b.priorityFilter, b.statusFilter, b.query)
  }

  /** The board after the filter effect. With no selector set the filtered
      list is the stored list itself, so sorting it in place sorts the
      stored list too. */
  function Refiltered(b: Board): Board
  {
    var s := Shown(b.reminders, b.priorityFilter, b.statusFilter, b.query);
    b.(reminders := if NoFilter(b.priorityFilter, b.statusFilter, b.query) then s else b.reminders,
       shown := s)
  }

  /** The effect keeps the same stored reminders, leaves the shown list in
      step with them, and running it again changes nothing. */
  lemma RefilteredInStep(b: Board)
    ensures multiset(Refiltered(b).reminders) == multiset(b.reminders)
    ensures InStep(Refiltered(b))
    ensures Refiltered(Refiltered(b)) == Refiltered(b)
  {
    if NoFilter(b.priorityFilter, b.statusFilter, b.query) {
      UnfilteredShowsAll(b.reminders);
    }
  }

  class ReminderBoard {
    var reminders: seq<Reminder>
    var shown: seq<Reminder>
    var query: string
    var priorityFilter: PriorityFilter
    var statusFilter: StatusFilter
    var showForm: bool
    var editing: Option<Reminder>
    var form: Form

    function State(): Board
      reads this
    {
      Board(reminders, shown, query, priorityFilter, statusFilter, showForm, editing, form)
    }

    constructor()
      ensures State() == Board([], [], [], AnyPriority, AllTasks, false, None, EmptyForm)
      ensures InStep(State())
    {
      reminders := [];
      shown := [];
      query := [];
      priorityFilter := AnyPriority;
      statusFilter := AllTasks;
      showForm := false;
      editing := None;
      form := EmptyForm;
    }

    /** The filter effect, run after the stored list or a selector changed. */
    method ApplyFilters()
      modifies this
      ensures State() == Refiltered(old(State()))
    {
      var filtered := Filtered(reminders, priorityFilter, statusFilter, query);
      if NoFilter(priorityFilter, statusFilter, query) {
        reminders := filtered;
      }
      shown := filtered;
    }

    /** Typing in the search box; the filter effect runs afterwards. */
    method SetQuery(text: string)
      modifies this
      ensures State() == old(State()).(query := text)
    {
      query := text;
    }

    /** Choosing in the priority select. */
    method SetPriorityFilter(pf: PriorityFilter)
      modifies this
      ensures State() == old(State()).(priorityFilter := pf)
    {
      priorityFilter := pf;
    }

    /** Choosing in the status select. */
    method SetStatusFilter(sf: StatusFilter)
      modifies this
      ensures State() == old(State()).(statusFilter := sf)
    {
      statusFilter := sf;
    }

    /** Saving the form: an empty task or due date changes nothing; otherwise
        the reminder being edited takes the form's fields, or a new reminder
        with `id` is appended, and the form is reset. `due` is the form's
        date text read as milliseconds. */
    method Submit(id: string, due: int)
      modifies this
      ensures old(form.task) == [] || old(form.dueDate) == [] ==> State() == old(State())
      ensures old(form.task) != [] && old(form.dueDate) != [] ==>
        State() == old(State()).(
          reminders := if old(editing).Some?
                       then Edited(old(reminders), old(editing).value.id, old(form), due)
                       else old(reminders) + [NewReminder(id, old(form), due)],
          showForm := false, editing := None, form := EmptyForm)
    {
      if form.task == [] || form.dueDate == [] {
        return;
      }
      if editing.Some? {
        reminders := Edited(reminders, editing.value.id, form, due);
      } else {
        reminders := reminders + [NewReminder(id, form, due)];
      }
      ResetForm();
    }

    /** Closes the form and forgets the reminder being edited. */
    method ResetForm()
      modifies this
      ensures State() == old(State()).(showForm := false, editing := None, form := EmptyForm)
    {
      form := EmptyForm;
      editing := None;
      showForm := false;
    }

    /** Opens the form on `r`; absent category and notes show as empty.
        `dateInput` writes a date the way the date-time input shows it. */
    method Edit(r: Reminder, dateInput: int -> string)
      modifies this
      ensures State() == old(State()).(
        editing := Some(r), showForm := true,
        form := Form(r.task, dateInput(r.dueDate), r.priority,
                     if r.category.Some? then r.category.value else [],
                     if r.notes.Some? then r.notes.value else []))
    {
      editing := Some(r);
      form := Form(r.task, dateInput(r.dueDate), r.priority,
                   if r.category.Some? then r.category.value else [],
                   if r.notes.Some? then r.notes.value else []);
      showForm := true;
    }

    /** Deletes the reminders with `id` once the user confirms. */
    method Delete(id: string, confirmed: bool)
      modifies this
      ensures State() == old(State()).(reminders := if confirmed then Deleted(old(reminders), id) else old(reminders))
    {
      if confirmed {
        reminders := Deleted(reminders, id);
      }
    }

    /** Flips the completion of the reminders with `id`. */
    method ToggleComplete(id: string)
      modifies this
      ensures State() == old(State()).(reminders := Toggled(old(reminders), id))
    {
      reminders := Toggled(reminders, id);
    }
  }
}
