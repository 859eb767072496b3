/** Projection of task rows into calendar events. */
module TaskFeed {
  import opened Common
  import opened Entities

  datatype CalendarEvent = CalendarEvent(
    id: string,
    title: string,
    start: Stamp,
    end: Stamp,
    status: string,
    className: string,
    userId: UserId,
    userName: string)

  /** A task row whose status is NULL: reading its name fails and the request fails with it. */
  datatype FeedError = TaskWithoutStatus(taskId: string)

  /** Every occurrence of `from` replaced by `to`, as `s.replace(from, to)` does for single characters. */
  function ReplaceChar(s: string, from: char, to: char): (r: string)
    ensures |r| == |s|
    ensures forall i :: 0 <= i < |s| ==> r[i] == (if s[i] == from then to else s[i])
  {
    if s == [] then [] else [if s[0] == from then to else s[0]] + ReplaceChar(s[1..], from, to)
  }

  /** An upper-case letter of the ASCII or the basic Cyrillic block (U+0400 to U+042F). */
  predicate IsUpper(c: char)
  {
    'A' <= c <= 'Z' || '\U{0400}' <= c <= '\U{042F}'
  }

  /** The lower-case counterpart of an ASCII or basic Cyrillic capital: `A`-`Z` and
      `А`-`Я` move up by 0x20, `Ѐ`-`Џ` (`Ё` among them) by 0x50. */
  function LowerChar(c: char): (l: char)
    ensures !IsUpper(l)
    ensures l == c <==> !IsUpper(c)
  {
    if 'A' <= c <= 'Z' || '\U{0410}' <= c <= '\U{042F}' then (c as int + 0x20) as char
    else if '\U{0400}' <= c <= '\U{040F}' then (c as int + 0x50) as char
    else c
  }

  /** `s.lower()`, on ASCII and basic Cyrillic letters. */
  function Lower(s: string): (r: string)
    ensures |r| == |s|
    ensures forall i :: 0 <= i < |s| ==> r[i] == LowerChar(s[i])
  {
    if s == [] then [] else [LowerChar(s[0])] + Lower(s[1..])
  }

  /** The CSS slug of a status name: spaces become hyphens, then the name is lower-cased. */
  function Slug(status: string): string
  {
    Lower(ReplaceChar(status, ' ', '-'))
  }

  /** A slug has no spaces and no upper-case ASCII or Cyrillic letters, keeps the length
      of the status name, and slugging it again changes nothing. Other characters,
      punctuation included, pass through, so the slug is not CSS-escaped. */
  lemma SlugShape(status: string)
    ensures |Slug(status)| == |status|
    ensures forall i :: 0 <= i < |status| ==> Slug(status)[i] != ' ' && !IsUpper(Slug(status)[i])
    ensures Slug(Slug(status)) == Slug(status)
  {
  }

  /** `"<first> <last>"`. */
  function UserName(row: TaskRow): string
  {
    row.firstName + " " + row.lastName
  }

  /** The event of one task row. */
  function TaskEvent(row: TaskRow): CalendarEvent
    requires row.status.Some?
  {
    CalendarEvent(
      row.id,
      row.title + " (" + UserName(row) + ")",
      row.deadline,
      row.deadline,
      row.status.value,
      "status-" + Slug(row.status.value),
      row.managedById,
      UserName(row))
  }

  /** The index of the first row whose status is NULL, or the number of rows when there is none. */
  function FirstWithoutStatus(rows: seq<TaskRow>): (k: nat)
    ensures k <= |rows|
    ensures forall i :: 0 <= i < k ==> rows[i].status.Some?
    ensures k < |rows| ==> rows[k].status.None?
  {
    if rows == [] then 0
    else if rows[0].status.None? then 0
    else 1 + FirstWithoutStatus(rows[1..])
  }

  /** The projection of the task rows, built up one row at a time. */
  function TaskEvents(rows: seq<TaskRow>): Result<seq<CalendarEvent>, FeedError>
  {
    if rows == [] then Success([])
    else
      var last := rows[|rows| - 1];
      match TaskEvents(rows[..|rows| - 1])
      case Failure(e) => Failure(e)
      case Success(events) =>
        if last.status.None? then Failure(TaskWithoutStatus(last.id))
        else Success(events + [TaskEvent(last)])
  }

  /** The projection gives one event per row, in row order, when every row has
      a status; otherwise it fails on the first row without one. */
  lemma {:induction false} TaskEventsSpec(rows: seq<TaskRow>)
    ensures TaskEvents(rows).Success? <==> FirstWithoutStatus(rows) == |rows|
    ensures TaskEvents(rows).Success? ==>
      |TaskEvents(rows).value| == |rows|
      && forall i :: 0 <= i < |rows| ==> rows[i].status.Some? && TaskEvents(rows).value[i] == TaskEvent(rows[i])
    ensures TaskEvents(rows).Failure? ==>
      TaskEvents(rows).error == TaskWithoutStatus(rows[FirstWithoutStatus(rows)].id)
  {
    if rows != [] {
      var init := rows[..|rows| - 1];
      TaskEventsSpec(init);
      FirstWithoutStatusOfPrefix(rows);
    }
  }

  /** The first status-less row of a non-empty list is the first one of all
      but its last row, or else the last row, or else there is none. */
  lemma {:induction false} FirstWithoutStatusOfPrefix(rows: seq<TaskRow>)
    requires rows != []
    ensures var init, k := rows[..|rows| - 1], FirstWithoutStatus(rows[..|rows| - 1]);
      FirstWithoutStatus(rows)
        == if k < |init| then k else if rows[|rows| - 1].status.None? then |init| else |rows|
  {
    var init := rows[..|rows| - 1];
    var k := FirstWithoutStatus(init);
    var r := FirstWithoutStatus(rows);
    assert forall i :: 0 <= i < |init| ==> init[i] == rows[i];
    if k < |init| {
      FirstWithoutStatusIsLeast(rows, k);
    } else if rows[|rows| - 1].status.None? {
      FirstWithoutStatusIsLeast(rows, |init|);
    }
    if r < |init| {
      FirstWithoutStatusIsLeast(init, r);
    }
  }

  /** Any status-less row sits at or after the first one. */
  lemma {:induction false} FirstWithoutStatusIsLeast(rows: seq<TaskRow>, j: nat)
    requires j < |rows| ==> rows[j].status.None?
    requires j <= |rows|
    ensures FirstWithoutStatus(rows) <= j
  {
    if rows != [] && rows[0].status.Some? && j > 0 {
      FirstWithoutStatusIsLeast(rows[1..], j - 1);
    }
  }

  /** Once a prefix of the rows fails, the whole projection fails the same way. */
  lemma {:induction false} TaskEventsOfFailedPrefix(rows: seq<TaskRow>, n: nat)
    requires n <= |rows| && TaskEvents(rows[..n]).Failure?
    ensures TaskEvents(rows) == TaskEvents(rows[..n])
    decreases |rows| - n
  {
    if n < |rows| {
      assert rows[..n + 1][..n] == rows[..n];
      TaskEventsOfFailedPrefix(rows, n + 1);
    } else {
      assert rows[..n] == rows;
    }
  }

  /** The loop over task rows: each row's event is appended as it is built. */
  method BuildTaskEvents(tasks: seq<TaskRow>) returns (r: Result<seq<CalendarEvent>, FeedError>)
    ensures r == TaskEvents(tasks)
    ensures r.Success? <==> forall i :: 0 <= i < |tasks| ==> tasks[i].status.Some?
    ensures r.Failure? ==> r.error == TaskWithoutStatus(tasks[FirstWithoutStatus(tasks)].id)
    ensures r.Success? ==> |r.value| == |tasks| && forall i :: 0 <= i < |tasks| ==>
      var e, t := r.value[i], tasks[i];
      && t.status.Some?
      && e.start == t.deadline && e.end == t.deadline
      && e.className == "status-" + Lower(ReplaceChar(t.status.value, ' ', '-'))
      && e.title == t.title + " (" + t.firstName + " " + t.lastName + ")"
      && e.id == t.id && e.userId == t.managedById
  {
    var events: seq<CalendarEvent> := [];
    for i := 0 to |tasks|
      invariant TaskEvents(tasks[..i]) == Success(events)
    {
      var task := tasks[i];
      assert tasks[..i + 1][..i] == tasks[..i];
      if task.status.None? {
        r := Failure(TaskWithoutStatus(task.id));
        TaskEventsOfFailedPrefix(tasks, i + 1);
        TaskEventsSpec(tasks);
        return;
      }
      var status := task.status.value;
      var cssSlug := Lower(ReplaceChar(status, ' ', '-'));
      var userName := task.firstName + " " + task.lastName;
      events := events + [CalendarEvent(
        task.id,
        task.title + " (" + userName + ")",
        task.deadline,
        task.deadline,
        status,
        "status-" + cssSlug,
        task.managedById,
        userName)];
    }
    assert tasks[..|tasks|] == tasks;
    TaskEventsSpec(tasks);
    return Success(events);
  }
}
