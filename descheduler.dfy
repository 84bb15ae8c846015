/** The meeting scheduler: a list of meetings with a status each, the
    status and search filter, the comma-separated participant field, and
    the handlers that add, edit, cancel, reschedule and delete meetings by
    id. Times are milliseconds. */
module Descheduler {
  import opened Types
  import Text
  import Seqs

  /** A meeting's life: scheduled when made, cancelled by the user, and
      rescheduled once a cancelled meeting is edited. */
  datatype Status = Scheduled | Rescheduled | Cancelled

  datatype Meeting = Meeting(
    id: string,
    title: string,
    participants: seq<string>,
    startTime: int,
    endTime: int,
    location: Option<string>,
    description: Option<string>,
    status: Status,
    priority: Priority)

  /** The status selector: every status, or exactly one. */
  datatype StatusFilter = AnyStatus | OnlyStatus(status: Status)

  /** The form's fields; the participants and both times are the raw input text. */
  datatype Form = Form(
    title: string,
    participants: string,
    startTime: string,
    endTime: string,
    location: string,
    description: string,
    priority: Priority)

  const EmptyForm := Form("", "", "", "", "", "", Medium)

  // ----- participants -----

  /** The participant field: split on commas, each name trimmed, empty names dropped. */
  function ParseParticipants(text: string): (r: seq<string>)
    ensures forall x :: x in r ==> x != [] && Text.IsTrimmed(x) && ',' !in x
  {
    Text.Pieces(text, ',')
  }

  /** The names before a comma come first, then the names after it. */
  lemma ParticipantsConcat(a: string, b: string)
    ensures ParseParticipants(a + [','] + b) == ParseParticipants(a) + ParseParticipants(b)
  {
    Text.PiecesConcat(a, ',', b);
  }

  /** Text without a comma is one name, trimmed, or no name when it is blank. */
  lemma ParticipantsSingle(a: string)
    requires ',' !in a
    ensures ParseParticipants(a) == if Text.Trim(a) == [] then [] else [Text.Trim(a)]
  {
    Text.PiecesSingle(a, ',');
  }

  /** How the form shows a participant list. */
  function ParticipantsText(names: seq<string>): string
  {
    Text.Join(names, ", ")
  }

  /** Splitting a `", "`-joined list on commas gives the first name as is
      and every later name behind one space. */
  lemma {:induction false} SplitJoinedNames(names: seq<string>)
    requires names != []
    requires forall i :: 0 <= i < |names| ==> ',' !in names[i]
    ensures var p := Text.Split(ParticipantsText(names), ',');
      && |p| == |names| && p[0] == names[0]
      && forall i :: 1 <= i < |names| ==> p[i] == [' '] + names[i]
  {
    if |names| == 1 {
      Text.SplitNoSeparator(names[0], ',');
    } else {
      var rest := names[1..];
      var tail := ParticipantsText(rest);
      SplitJoinedNames(rest);
      var q := Text.Split(tail, ',');
      assert ParticipantsText(names) == names[0] + [','] + ([' '] + tail);
      Text.SplitAfterPiece(names[0], ',', [' '] + tail);
      assert ([' '] + tail)[1..] == tail;
      var p := Text.Split(ParticipantsText(names), ',');
      assert p == [names[0]] + Text.Split([' '] + tail, ',');
      assert Text.Split([' '] + tail, ',') == [[' '] + q[0]] + q[1..];
      forall i | 1 <= i < |names|
        ensures p[i] == [' '] + names[i]
      {
        if i > 1 {
          assert p[i] == q[i - 1] == [' '] + rest[i - 1];
        }
      }
    }
  }

  /** Editing a meeting shows its participants joined by `", "`; saving that
      text unchanged gives back the same participants, provided each name
      is non-empty, trimmed and free of commas. */
  lemma ParticipantsRoundTrip(names: seq<string>)
    requires forall i :: 0 <= i < |names| ==> names[i] != [] && Text.IsTrimmed(names[i]) && ',' !in names[i]
    ensures ParseParticipants(ParticipantsText(names)) == names
  {
    if names == [] {
      assert Text.Split("", ',') == [""];
      assert Text.TrimAll([""]) == [""];
    } else {
      SplitJoinedNames(names);
      var pieces := Text.Split(ParticipantsText(names), ',');
      var trimmed := Text.TrimAll(pieces);
      forall i | 0 <= i < |names|
        ensures trimmed[i] == names[i]
      {
        if i == 0 {
          Text.TrimTrimmed(names[0]);
        } else {
          Text.TrimAfterSpace(names[i]);
        }
      }
      assert trimmed == names;
      Seqs.FilterKeepsAll(names, Text.NonEmpty);
    }
  }

  // ----- the filter effect -----

  predicate StatusOk(sf: StatusFilter, m: Meeting)
  {
    sf.OnlyStatus? ==> m.status == sf.status
  }

  /** The search: the title, some participant or the location contains the
      query, ignoring case. */
  predicate MatchesQuery(m: Meeting, query: string)
  {
    || Text.ContainsIgnoringCase(m.title, query)
    || (exists i :: 0 <= i < |m.participants| && Text.ContainsIgnoringCase(m.participants[i], query))
    || (m.location.Some? && Text.ContainsIgnoringCase(m.location.value, query))
  }

  /** An empty query keeps everything. */
  predicate QueryOk(query: string, m: Meeting)
  {
    query == [] || MatchesQuery(m, query)
  }

  function ByStatus(ms: seq<Meeting>, sf: StatusFilter): seq<Meeting>
  {
    Seqs.Filter(ms, m => StatusOk(sf, m))
  }

  function ByQuery(ms: seq<Meeting>, query: string): seq<Meeting>
  {
    Seqs.Filter(ms, m => QueryOk(query, m))
  }

  /** The list the scheduler shows: the status filter, then the search. */
  function Shown(ms: seq<Meeting>, sf: StatusFilter, query: string): seq<Meeting>
  {
    ByQuery(ByStatus(ms, sf), query)
  }

  /** Switched-off selectors keep every meeting. */
  lemma SelectorsOff(ms: seq<Meeting>, sf: StatusFilter, query: string)
    ensures sf == AnyStatus ==> ByStatus(ms, sf) == ms
    ensures query == [] ==> ByQuery(ms, query) == ms
  {
    if sf == AnyStatus {
      Seqs.FilterKeepsAll(ms, m => StatusOk(sf, m));
    }
    if query == [] {
      Seqs.FilterKeepsAll(ms, m => QueryOk(query, m));
    }
  }

  /** The shown meetings are exactly the stored ones that have the chosen
      status and match the search, in their stored order. */
  lemma ShownMembers(ms: seq<Meeting>, sf: StatusFilter, query: string)
    ensures forall m :: m in Shown(ms, sf, query) <==>
      m in ms && (sf.OnlyStatus? ==> m.status == sf.status) && (query != [] ==> MatchesQuery(m, query))
    ensures forall m ::
      multiset(Shown(ms, sf, query))[m] == if StatusOk(sf, m) && QueryOk(query, m) then multiset(ms)[m] else 0
  {
    forall y
      ensures multiset(Shown(ms, sf, query))[y] ==
        if StatusOk(sf, y) && QueryOk(query, y) then multiset(ms)[y] else 0
    {
      Seqs.FilterCount(ms, m => StatusOk(sf, m), y);
      Seqs.FilterCount(ByStatus(ms, sf), m => QueryOk(query, m), y);
    }
  }

  /** Applies the status filter and then the search, each only when it is set. */
  method Filtered(ms: seq<Meeting>, sf: StatusFilter, query: string) returns (filtered: seq<Meeting>)
    ensures filtered == Shown(ms, sf, query)
  {
    filtered := ms;
    SelectorsOff(filtered, sf, []);
    if sf != AnyStatus {
      filtered := ByStatus(filtered, sf);
    }
    SelectorsOff(filtered, AnyStatus, query);
    if query != [] {
      filtered := ByQuery(filtered, query);
    }
  }

  // ----- the status machine and the list operations -----

  /** The status moves a meeting can make: stay, be cancelled, or go from
      cancelled to rescheduled. */
  predicate MayBecome(from: Status, to: Status)
  {
    to == from || to == Cancelled || (from == Cancelled && to == Rescheduled)
  }

  /** Once a meeting has left `Scheduled` it never returns there. */
  lemma NeverBackToScheduled(from: Status, to: Status)
    requires MayBecome(from, to) && to == Scheduled
    ensures from == Scheduled
  {
  }

  /** The edited meeting takes the form's fields; a cancelled meeting
      becomes rescheduled and any other keeps its status. */
  function Edited(ms: seq<Meeting>, id: string, f: Form, start: int, end: int): (r: seq<Meeting>)
    ensures |r| == |ms|
    ensures forall i :: 0 <= i < |ms| && ms[i].id != id ==> r[i] == ms[i]
    ensures forall i :: 0 <= i < |ms| && ms[i].id == id ==>
      && r[i].id == id && r[i].title == f.title
      && r[i].participants == ParseParticipants(f.participants)
      && r[i].startTime == start && r[i].endTime == end
      && r[i].location == Some(f.location) && r[i].description == Some(f.description)
      && r[i].priority == f.priority
      && r[i].status == (if ms[i].status == Cancelled then Rescheduled else ms[i].status)
    ensures forall i :: 0 <= i < |ms| ==> MayBecome(ms[i].status, r[i].status)
  {
    var names := ParseParticipants(f.participants);
    seq(|ms|, i requires 0 <= i < |ms| =>
      if ms[i].id == id
      then ms[i].(title := f.title, participants := names, startTime := start, endTime := end,
                  location := Some(f.location), description := Some(f.description), priority := f.priority,
                  status := if ms[i].status == Cancelled then Rescheduled else ms[i].status)
      else ms[i])
  }

  /** A new meeting from the form, scheduled. */
  function NewMeeting(id: string, f: Form, start: int, end: int): Meeting
  {
    Meeting(id, f.title, ParseParticipants(f.participants), start, end,
      Some(f.location), Some(f.description), Scheduled, f.priority)
  }

  /** Cancels the meetings with `id`. */
  function CancelledAt(ms: seq<Meeting>, id: string): (r: seq<Meeting>)
    ensures |r| == |ms|
    ensures forall i :: 0 <= i < |ms| ==>
      if ms[i].id == id then r[i] == ms[i].(status := Cancelled) else r[i] == ms[i]
    ensures forall i :: 0 <= i < |ms| ==> MayBecome(ms[i].status, r[i].status)
  {
    seq(|ms|, i requires 0 <= i < |ms| => if ms[i].id == id then ms[i].(status := Cancelled) else ms[i])
  }

  /** Cancelling twice is cancelling once. */
  lemma CancelIdempotent(ms: seq<Meeting>, id: string)
    ensures CancelledAt(CancelledAt(ms, id), id) == CancelledAt(ms, id)
  {
    var once := CancelledAt(ms, id);
    var twice := CancelledAt(once, id);
    assert forall i :: 0 <= i < |ms| ==> twice[i] == once[i];
  }

  /** Removes the meetings with `id`. */
  function Deleted(ms: seq<Meeting>, id: string): (r: seq<Meeting>)
    ensures forall x :: x in r <==> x in ms && x.id != id
  {
    Seqs.Filter(ms, (m: Meeting) => m.id != id)
  }

  /** Deleting keeps the other meetings in their order: it works piece by
      piece, and a meeting with another id is kept where it stood. */
  lemma DeletedKeepsOrder(a: seq<Meeting>, b: seq<Meeting>, x: Meeting, id: string)
    ensures Deleted(a + b, id) == Deleted(a, id) + Deleted(b, id)
    ensures x.id != id ==> Deleted([x], id) == [x]
    ensures x.id == id ==> Deleted([x], id) == []
  {
    Seqs.FilterConcat(a, b, (m: Meeting) => m.id != id);
    assert [x][1..] == [];
  }

  /** The first meeting with `id`, if any. */
  function FindById(ms: seq<Meeting>, id: string): (r: Option<Meeting>)
    ensures r.None? <==> forall i :: 0 <= i < |ms| ==> ms[i].id != id
    ensures r.Some? ==>
      exists i :: 0 <= i < |ms| && ms[i] == r.value && r.value.id == id && forall j :: 0 <= j < i ==> ms[j].id != id
  {
    if ms == [] then None
    else if ms[0].id == id then Some(ms[0])
    else
      var r := FindById(ms[1..], id);
      if r.Some? then
        var i :| 0 <= i < |ms[1..]| && ms[1..][i] == r.value && r.value.id == id
                 && forall j :: 0 <= j < i ==> ms[1..][j].id != id;
        assert ms[i + 1] == r.value;
        r
      else r
  }

  /** Earliest start first. */
  function StartKey(m: Meeting): Seqs.Key
  {
    Seqs.Key(m.startTime, 0)
  }

  /** The meetings that are still on and start after `now`, in shown order. */
  function Pending(shown: seq<Meeting>, now: int): (r: seq<Meeting>)
    ensures forall m :: m in r <==> m in shown && m.status != Cancelled && m.startTime > now
  {
    Seqs.Filter(shown, (m: Meeting) => m.status != Cancelled && m.startTime > now)
  }

  /** The preview: the pending meetings sorted by start, at most three,
      and these are the earliest: every pending meeting left out starts no
      earlier than any meeting shown. */
  function Upcoming(shown: seq<Meeting>, now: int): (r: seq<Meeting>)
    ensures |r| <= 3
    ensures Seqs.SortedBy(r, StartKey)
    ensures multiset(r) <= multiset(Pending(shown, now))
    ensures |Pending(shown, now)| <= 3 ==> multiset(r) == multiset(Pending(shown, now))
    ensures |Pending(shown, now)| > 3 ==> |r| == 3
    ensures forall m :: m in r ==> m in shown && m.status != Cancelled && m.startTime > now
    ensures forall m, x :: m in Pending(shown, now) && m !in r && x in r ==> x.startTime <= m.startTime
  {
    var pending := Pending(shown, now);
    var sorted := Seqs.SortBy(pending, StartKey);
    var r := Seqs.Take(sorted, 3);
    Seqs.TakeSubMultiset(sorted, 3);
    forall m | m in r
      ensures m in pending
    {
      assert m in multiset(r);
    }
    Seqs.TakeSmallest(sorted, 3, StartKey);
    forall m, x | m in pending && m !in r && x in r
      ensures x.startTime <= m.startTime
    {
      assert m in multiset(sorted);
      assert Seqs.KeyLe(StartKey(x), StartKey(m));
    }
    r
  }

  /** The whole scheduler at once. */
  datatype Schedule = Schedule(
    meetings: seq<Meeting>,
    shown: seq<Meeting>,
    query: string,
    statusFilter: StatusFilter,
    showForm: bool,
    editing: Option<Meeting>,
    form: Form)

  /** The form opened on `m`; absent location and description show as empty. */
  function FormFor(m: Meeting, dateInput: int -> string): Form
  {
    Form(m.title, ParticipantsText(m.participants), dateInput(m.startTime), dateInput(m.endTime),
      if m.location.Some? then m.location.value else [],
      if m.description.Some? then m.description.value else [],
      m.priority)
  }

  class MeetingBoard {
    var meetings: seq<Meeting>
    var shown: seq<Meeting>
    var query: string
    var statusFilter: StatusFilter
    var showForm: bool
    var editing: Option<Meeting>
    var form: Form

    function State(): Schedule
      reads this
    {
      Schedule(meetings, shown, query, statusFilter, showForm, editing, form)
    }

    constructor()
      ensures State() == Schedule([], [], [], AnyStatus, false, None, EmptyForm)
    {
      meetings := [];
      shown := [];
      query := [];
      statusFilter := AnyStatus;
      showForm := false;
      editing := None;
      form := EmptyForm;
    }

    /** The filter effect, run after the meetings or a selector changed. */
    method ApplyFilters()
      modifies this
      ensures State() == old(State()).(shown := Shown(old(meetings), statusFilter, query))
    {
      shown := Filtered(meetings, statusFilter, query);
    }

    /** Typing in the search box; the filter effect runs afterwards. */
    method SetQuery(text: string)
      modifies this
      ensures State() == old(State()).(query := text)
    {
      query := text;
    }

    /** Clicking one of the status buttons. */
    method SetStatusFilter(sf: StatusFilter)
      modifies this
      ensures State() == old(State()).(statusFilter := sf)
    {
      statusFilter := sf;
    }

    /** Saving the form: an empty title, start or end changes nothing;
        otherwise the meeting being edited takes the form's fields, or a new
        scheduled meeting with `id` is appended, and the form is reset.
        `start` and `end` are the form's times read as milliseconds. */
    method Submit(id: string, start: int, end: int)
      modifies this
      ensures old(form.title) == [] || old(form.startTime) == [] || old(form.endTime) == [] ==>
        State() == old(State())
      ensures old(form.title) != [] && old(form.startTime) != [] && old(form.endTime) != [] ==>
        State() == old(State()).(
          meetings := if old(editing).Some?
                      then Edited(old(meetings), old(editing).value.id, old(form), start, end)
                      else old(meetings) + [NewMeeting(id, old(form), start, end)],
          showForm := false, editing := None, form := EmptyForm)
    {
      if form.title == [] || form.startTime == [] || form.endTime == [] {
        return;
      }
      if editing.Some? {
        meetings := Edited(meetings, editing.value.id, form, start, end);
      } else {
        meetings := meetings + [NewMeeting(id, form, start, end)];
      }
      ResetForm();
    }

    /** Closes the form and forgets the meeting being edited. */
    method ResetForm()
      modifies this
      ensures State() == old(State()).(showForm := false, editing := None, form := EmptyForm)
    {
      form := EmptyForm;
      editing := None;
      showForm := false;
    }

    /** Opens the form on `m`. `dateInput` writes a time the way the
        date-time input shows it. */
    method Edit(m: Meeting, dateInput: int -> string)
      modifies this
      ensures State() == old(State()).(editing := Some(m), showForm := true, form := FormFor(m, dateInput))
    {
      editing := Some(m);
      form := FormFor(m, dateInput);
      showForm := true;
    }

    /** Opens the form on the first meeting with `id`; nothing happens when there is none. */
    method Reschedule(id: string, dateInput: int -> string)
      modifies this
      ensures var found := FindById(old(meetings), id);
        State() == if found.Some?
                   then old(State()).(editing := found, showForm := true, form := FormFor(found.value, dateInput))
                   else old(State())
    {
      var found := FindById(meetings, id);
      if found.Some? {
        Edit(found.value, dateInput);
      }
    }

    /** Deletes the meetings with `id` once the user confirms. */
    method Delete(id: string, confirmed: bool)
      modifies this
      ensures State() == old(State()).(meetings := if confirmed then Deleted(old(meetings), id) else old(meetings))
    {
      if confirmed {
        meetings := Deleted(meetings, id);
      }
    }

    /** Cancels the meetings with `id`. */
    method Cancel(id: string)
      modifies this
      ensures State() == old(State()).(meetings := CancelledAt(old(meetings), id))
    {
      meetings := CancelledAt(meetings, id);
    }
  }
}
