/** The appointment form (components/calendar/AppointmentFormModal.tsx): the attendee text
    and its parse, the all-day normalisation of the start and end, the record a submit
    produces, and the task choices offered for a project. Date texts are kept as the form
    holds them; their conversion to ISO instants is not part of this model. */
module AppointmentForm {
  import opened Wrappers
  import opened Domain
  import opened Collections
  import Text

  // ---------------------------------------------------------------- attendees

  /** `pieces.map(a => a.trim()).filter(a => a)`. */
  function Tidy(pieces: seq<string>): seq<string> {
    if pieces == [] then [] else TidyPiece(pieces[0]) + Tidy(pieces[1..])
  }

  /** One piece trimmed, or nothing when it trims to nothing. */
  function TidyPiece(x: string): seq<string> {
    var t := Text.Trim(x);
    if t != "" then [t] else []
  }

  /** Every attendee is trimmed and not empty. */
  predicate AllTidy(r: seq<string>) {
    forall i :: 0 <= i < |r| ==> Text.IsTrimmed(r[i]) && r[i] != ""
  }

  /** Tidying keeps only trimmed, non-empty attendees. */
  lemma {:induction false} TidyIsTidy(pieces: seq<string>)
    ensures AllTidy(Tidy(pieces))
  {
    if pieces != [] {
      TidyIsTidy(pieces[1..]);
      TidyPieceIsTidy(pieces[0]);
      AllTidyConcat(TidyPiece(pieces[0]), Tidy(pieces[1..]));
    }
  }

  lemma {:induction false} TidyPieceIsTidy(x: string)
    ensures AllTidy(TidyPiece(x))
  {
    Text.TrimIsTrimmed(x);
  }

  lemma {:induction false} AllTidyConcat(a: seq<string>, b: seq<string>)
    requires AllTidy(a) && AllTidy(b)
    ensures AllTidy(a + b)
  {
    forall i | 0 <= i < |a + b| ensures Text.IsTrimmed((a + b)[i]) && (a + b)[i] != "" {
      if i < |a| {
        assert (a + b)[i] == a[i];
      } else {
        assert (a + b)[i] == b[i - |a|];
      }
    }
  }

  /** No piece holds a comma. */
  predicate CommaFree(pieces: seq<string>) {
    forall i :: 0 <= i < |pieces| ==> ',' !in pieces[i]
  }

  /** Tidying pieces without commas gives attendees without commas. */
  lemma {:induction false} TidyCommaFree(pieces: seq<string>)
    requires CommaFree(pieces)
    ensures CommaFree(Tidy(pieces))
  {
    if pieces != [] {
      assert CommaFree(pieces[1..]) by {
        forall i | 0 <= i < |pieces[1..]| ensures ',' !in pieces[1..][i] {
          assert pieces[1..][i] == pieces[i + 1];
        }
      }
      TidyCommaFree(pieces[1..]);
      Text.TrimAddsNothing(pieces[0], ',');
      CommaFreeConcat(TidyPiece(pieces[0]), Tidy(pieces[1..]));
    }
  }

  lemma {:induction false} CommaFreeConcat(a: seq<string>, b: seq<string>)
    requires CommaFree(a) && CommaFree(b)
    ensures CommaFree(a + b)
  {
    forall i | 0 <= i < |a + b| ensures ',' !in (a + b)[i] {
      if i < |a| {
        assert (a + b)[i] == a[i];
      } else {
        assert (a + b)[i] == b[i - |a|];
      }
    }
  }

  /** The attendee list of a submit: the comma-separated pieces of the text, trimmed, with
      the empty ones dropped. */
  function ParseAttendees(text: string): (r: seq<string>)
    ensures forall i :: 0 <= i < |r| ==> Text.IsTrimmed(r[i]) && r[i] != "" && ',' !in r[i]
  {
    TidyIsTidy(Text.Split(text, ','));
    TidyCommaFree(Text.Split(text, ','));
    Tidy(Text.Split(text, ','))
  }

  /** Trimming strips every kind of whitespace `trim` knows, not only spaces: a vertical tab,
      a form feed and a no-break space around a name are dropped. */
  lemma {:induction false} ParseAttendeesStripsAllWhitespace()
    ensures ParseAttendees("\U{000B}ana\U{00A0}, \U{000C}bia") == ["ana", "bia"]
  {
    var first, second := "\U{000B}ana\U{00A0}", " \U{000C}bia";
    SplitExample(first, second);
    TrimExamples(first, second);
    assert Tidy([first, second]) == TidyPiece(first) + Tidy([second]);
    assert Tidy([second]) == TidyPiece(second) + Tidy([]);
  }

  lemma {:induction false} SplitExample(first: string, second: string)
    requires first == "\U{000B}ana\U{00A0}" && second == " \U{000C}bia"
    ensures Text.Split("\U{000B}ana\U{00A0}, \U{000C}bia", ',') == [first, second]
  {
    assert first + [','] + second == "\U{000B}ana\U{00A0}, \U{000C}bia";
    Text.SplitAfterPiece(first, ',', second);
    Text.SplitWithoutSeparator(second, ',');
  }

  lemma {:induction false} TrimExamples(first: string, second: string)
    requires first == "\U{000B}ana\U{00A0}" && second == " \U{000C}bia"
    ensures Text.Trim(first) == "ana" && Text.Trim(second) == "bia"
  {
    assert Text.TrimStart(first) == first[1..];
    assert Text.TrimEnd(first[1..]) == "ana";
    assert Text.TrimStart(second[1..]) == "bia";
  }

  /** The attendee text the form shows for an existing appointment. */
  function AttendeesText(attendees: seq<string>): string {
    Text.Join(attendees, ", ")
  }

  /** An attendee the text can carry: trimmed, non-empty, without a comma. */
  predicate IsPlainAttendee(a: string) {
    Text.IsTrimmed(a) && a != "" && ',' !in a
  }

  /** A trimmed, non-empty text after leading spaces trims back to itself. */
  lemma {:induction false} TrimAfterSpaces(lead: string, x: string)
    requires forall i :: 0 <= i < |lead| ==> Text.IsSpace(lead[i])
    requires Text.IsTrimmed(x) && x != ""
    ensures Text.Trim(lead + x) == x
    decreases |lead|
  {
    if lead == [] {
      assert lead + x == x;
      Text.TrimOfTrimmed(x);
    } else {
      assert (lead + x)[1..] == lead[1..] + x;
      TrimAfterSpaces(lead[1..], x);
    }
  }

  /** The pieces of the text a list joins to, the first one possibly led by spaces, tidy
      back into the list. */
  lemma {:induction false} TidyJoined(lead: string, xs: seq<string>)
    requires forall i :: 0 <= i < |lead| ==> Text.IsSpace(lead[i]) && lead[i] != ','
    requires forall i :: 0 <= i < |xs| ==> IsPlainAttendee(xs[i])
    ensures Tidy(Text.Split(lead + Text.Join(xs, ", "), ',')) == xs
    decreases |xs|
  {
    if |xs| <= 1 {
      TidyJoinedShort(lead, xs);
    } else {
      var rest := Text.Join(xs[1..], ", ");
      TidyJoined(" ", xs[1..]);
      TidyJoinedStep(lead, xs);
    }
  }

  lemma {:induction false} TidyJoinedShort(lead: string, xs: seq<string>)
    requires forall i :: 0 <= i < |lead| ==> Text.IsSpace(lead[i]) && lead[i] != ','
    requires |xs| <= 1 && forall i :: 0 <= i < |xs| ==> IsPlainAttendee(xs[i])
    ensures Tidy(Text.Split(lead + Text.Join(xs, ", "), ',')) == xs
  {
    if xs == [] {
      assert lead + Text.Join(xs, ", ") == lead;
      Text.SplitWithoutSeparator(lead, ',');
      TrimAllSpaces(lead);
      TidyCons(lead, []);
    } else {
      assert lead + Text.Join(xs, ", ") == lead + xs[0];
      Text.SplitWithoutSeparator(lead + xs[0], ',');
      TrimAfterSpaces(lead, xs[0]);
      TidyCons(lead + xs[0], []);
    }
  }

  /** The first element splits off, trims back to itself, and the rest follows. */
  lemma {:induction false} TidyJoinedStep(lead: string, xs: seq<string>)
    requires forall i :: 0 <= i < |lead| ==> Text.IsSpace(lead[i]) && lead[i] != ','
    requires |xs| >= 2 && IsPlainAttendee(xs[0])
    requires Tidy(Text.Split(" " + Text.Join(xs[1..], ", "), ',')) == xs[1..]
    ensures Tidy(Text.Split(lead + Text.Join(xs, ", "), ',')) == xs
  {
    var first := lead + xs[0];
    var tail := " " + Text.Join(xs[1..], ", ");
    var pieces := Text.Split(tail, ',');
    JoinStep(lead, xs);
    Text.SplitAfterPiece(first, ',', tail);
    assert Text.Split(lead + Text.Join(xs, ", "), ',') == [first] + pieces;
    TrimAfterSpaces(lead, xs[0]);
    assert Text.Trim(first) == xs[0] != "";
    TidyCons(first, pieces);
    assert Tidy([first] + pieces) == [xs[0]] + xs[1..];
    assert xs == [xs[0]] + xs[1..];
  }

  /** Tidying a list with a first piece. */
  lemma {:induction false} TidyCons(x: string, rest: seq<string>)
    ensures Tidy([x] + rest) == TidyPiece(x) + Tidy(rest)
  {
    assert ([x] + rest)[0] == x && ([x] + rest)[1..] == rest;
  }

  /** A joined list of two or more, behind a lead: the lead and first element, a comma,
      then a space and the rest joined. */
  lemma {:induction false} JoinStep(lead: string, xs: seq<string>)
    requires |xs| >= 2
    ensures lead + Text.Join(xs, ", ") == (lead + xs[0]) + [','] + (" " + Text.Join(xs[1..], ", "))
  {
    assert Text.Join(xs, ", ") == xs[0] + ", " + Text.Join(xs[1..], ", ");
  }

  /** A text of nothing but spaces trims to nothing. */
  lemma {:induction false} TrimAllSpaces(s: string)
    requires forall i :: 0 <= i < |s| ==> Text.IsSpace(s[i])
    ensures Text.Trim(s) == ""
    decreases |s|
  {
    if s != [] {
      TrimAllSpaces(s[1..]);
    }
  }

  /** Round trip: the text shown for an attendee list parses back to that list when every
      attendee is trimmed, non-empty and comma-free. */
  lemma {:induction false} AttendeesRoundTrip(xs: seq<string>)
    requires forall i :: 0 <= i < |xs| ==> IsPlainAttendee(xs[i])
    ensures ParseAttendees(AttendeesText(xs)) == xs
  {
    assert "" + Text.Join(xs, ", ") == Text.Join(xs, ", ");
    TidyJoined("", xs);
  }

  /** Parsing is stable: writing a parsed list back as text and parsing it again gives the
      same list. */
  lemma {:induction false} ParseAttendeesIsStable(text: string)
    ensures ParseAttendees(AttendeesText(ParseAttendees(text))) == ParseAttendees(text)
  {
    AttendeesRoundTrip(ParseAttendees(text));
  }

  // ---------------------------------------------------------------- all-day events

  /** The start and end texts a submit uses: an all-day event runs from midnight to
      23:59:59 on the date part of the start (the text before its first `T`); otherwise
      the texts are kept. */
  function AllDayTimes(dateTime: string, endDateTime: string, isAllDay: bool): (string, string) {
    if isAllDay then
      var startDate := Text.Split(dateTime, 'T')[0];
      (startDate + "T00:00:00", startDate + "T23:59:59")
    else (dateTime, endDateTime)
  }

  /** An all-day event on the day `date` starts at its midnight and ends at 23:59:59 of the
      same day, whatever time the start had; the end comes after the start. */
  lemma {:induction false} AllDaySpansTheDay(date: string, time: string, endDateTime: string)
    requires 'T' !in date
    ensures var (start, end) := AllDayTimes(date + "T" + time, endDateTime, true);
      start == date + "T00:00:00" && end == date + "T23:59:59" &&
      Text.LexLeq(start, end) && start != end
  {
    Text.SplitAfterPiece(date, 'T', time);
    assert date + "T" + time == date + ['T'] + time;
    LexLeqAfterCommonPrefix(date, "T00:00:00", "T23:59:59");
    assert (date + "T00:00:00")[|date| + 1] != (date + "T23:59:59")[|date| + 1];
  }

  /** A common prefix does not change the order. */
  lemma {:induction false} LexLeqAfterCommonPrefix(p: string, a: string, b: string)
    requires Text.LexLeq(a, b)
    ensures Text.LexLeq(p + a, p + b)
    decreases |p|
  {
    if p == [] {
      assert p + a == a && p + b == b;
    } else {
      LexLeqAfterCommonPrefix(p[1..], a, b);
      assert (p + a)[0] == p[0] == (p + b)[0];
      assert (p + a)[1..] == p[1..] + a;
      assert (p + b)[1..] == p[1..] + b;
    }
  }

  // ---------------------------------------------------------------- submit

  /** The form's state at submit; the attendees are the text the user edits. */
  datatype Form = Form(
    title: string, dateTime: string, endDateTime: string, location: string, notes: string,
    attendees: string, kind: AppointmentType, selectedProjectId: Option<Id>,
    selectedTaskId: Option<Id>, isAllDay: bool)

  /** `handleSubmit`: the appointment the form saves. An edited appointment keeps its
      (non-empty) id; an empty end is no end; the project link is kept only for a project
      meeting and the task link only for a task deadline. */
  function Submit(editing: Option<Appointment>, form: Form, stamp: string): Appointment {
    var (start, end) := AllDayTimes(form.dateTime, form.endDateTime, form.isAllDay);
    Appointment(
      if editing.Some? && editing.value.id != "" then editing.value.id else "appt-" + stamp,
      if form.kind == ProjectMeeting then form.selectedProjectId else None,
      form.title, form.location, start,
      if end != "" then Some(end) else None,
      form.notes, ParseAttendees(form.attendees), form.kind,
      if form.kind == TaskDeadline then form.selectedTaskId else None,
      form.isAllDay)
  }

  /** What a submit guarantees: links only for their types, an edited id kept, and the
      attendees parsed from the text. */
  lemma {:induction false} SubmitSpec(editing: Option<Appointment>, form: Form, stamp: string)
    ensures var a := Submit(editing, form, stamp);
      (a.projectId.Some? ==> a.kind == ProjectMeeting) &&
      (a.kind == ProjectMeeting ==> a.projectId == form.selectedProjectId) &&
      (a.relatedId.Some? ==> a.kind == TaskDeadline) &&
      (a.kind == TaskDeadline ==> a.relatedId == form.selectedTaskId) &&
      (editing.Some? && editing.value.id != "" ==> a.id == editing.value.id) &&
      (editing.None? ==> a.id == "appt-" + stamp) &&
      a.attendees == ParseAttendees(form.attendees)
  {
  }

  /** An all-day submit on a start `date + "T" + time` saves the whole of that day. */
  lemma {:induction false} SubmitAllDay(editing: Option<Appointment>, form: Form, stamp: string, date: string, time: string)
    requires form.isAllDay && form.dateTime == date + "T" + time && 'T' !in date
    ensures var a := Submit(editing, form, stamp);
      a.dateTime == date + "T00:00:00" && a.endDateTime == Some(date + "T23:59:59") && a.isAllDay
  {
    AllDaySpansTheDay(date, time, form.endDateTime);
  }

  /** The form as the dialog fills it for an existing appointment, given the start and end
      texts its date inputs show. */
  function FormOf(a: Appointment, dateTime: string, endDateTime: string): Form {
    Form(a.title, dateTime, endDateTime, a.location, a.notes, AttendeesText(a.attendees), a.kind,
         a.projectId, if a.kind == TaskDeadline then a.relatedId else None, a.isAllDay)
  }

  /** An appointment of the shape the form produces survives opening and saving it
      unchanged: everything but the start and end comes back as it was. */
  lemma {:induction false} EditRoundTrip(a: Appointment, dateTime: string, endDateTime: string, stamp: string)
    requires a.id != ""
    requires forall i :: 0 <= i < |a.attendees| ==> IsPlainAttendee(a.attendees[i])
    requires a.projectId.Some? ==> a.kind == ProjectMeeting
    requires a.relatedId.Some? ==> a.kind == TaskDeadline
    ensures var r := Submit(Some(a), FormOf(a, dateTime, endDateTime), stamp);
      r == a.(dateTime := r.dateTime, endDateTime := r.endDateTime)
  {
    AttendeesRoundTrip(a.attendees);
  }

  // ---------------------------------------------------------------- task choices

  /** A task can be linked when it belongs to no project or to the selected one. */
  predicate LinkableTask(t: Task, selectedProjectId: Option<Id>) {
    !IsTruthy(t.projectId) || t.projectId == selectedProjectId
  }

  /** The task choices of the dialog, in task order. */
  function TaskOptions(tasks: seq<Task>, selectedProjectId: Option<Id>): seq<Task> {
    Filter(tasks, (t: Task) => LinkableTask(t, selectedProjectId))
  }

  /** The choices are exactly the tasks without a project and those of the selected
      project; with no project selected, only tasks without a project. */
  lemma {:induction false} TaskOptionsSpec(tasks: seq<Task>, selectedProjectId: Option<Id>)
    ensures forall t :: t in TaskOptions(tasks, selectedProjectId) <==>
      t in tasks && (!IsTruthy(t.projectId) || t.projectId == selectedProjectId)
    ensures selectedProjectId.None? ==>
      forall t :: t in TaskOptions(tasks, selectedProjectId) ==> !IsTruthy(t.projectId)
  {
  }
}
