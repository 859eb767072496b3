# Calendar feed and task tags of the manager app, in Dafny

This project models the core of a Django task and calendar manager. The main part is the
per-user calendar feed (`get_tasks`). For each selected user the feed either reuses the
events stored in that user's cache file or rebuilds them. A rebuild turns the user's task
rows into calendar events. It also emits background events: busy hours outside work, personal
hours, and vacations. It then overwrites the cache file. The answer lists every user's task
events followed by their background events, user after user.
The project also models three pieces of `models.py`: the tag encoder and decoder
(`Tag.to_tag` / `Tag.to_description`), the profile clean-up (`CustomUser.clean`) and the
default task deadline.

Modules, one per component:

- `Common` (common.dfy): `Option`, `Result`, and time. Dates are integer day numbers.
  Times of day are whole seconds in `[0, 86399]`, where 23:59:59 is 86399. A `Stamp` is a bare
  date (`DateOnly`, how a calendar date prints) or a date at a second (`DateTime`).
- `Entities` (entities.dfy): the store's answers for one user. These are the task rows of the
  requested range, the latest `updated_at` over all the user's tasks, the schedule if there is
  one, and all vacations under it.
- `TaskFeed` (events.dfy): task rows become calendar events, in a loop (`BuildTaskEvents`).
- `Availability` (availability.dfy): the day loop (`BuildDailyEvents`), the vacation filter
  and the vacation loop (`AppendVacationEvents`).
- `Feed` (feed.dfy): the cache rule, the per-user step and `Serve`, the fold over the selected
  users. The class `FeedCache` holds the cache directory as a `map` from user id to file
  content. Its methods `ServeUser` and `GetTasks` update it in place and are proved equal to
  `Step` and `Serve`.
- `Tags` (tags.dfy): `split`/`join`, the class `Tag` with `ToTag` and `ToDescription`, round trips.
- `Profiles` (profiles.dfy): the class `CustomUser` with `Clean`. `strip_tags` is a function parameter.
- `Deadlines` (deadline.dfy): the default deadline. Today's date is a parameter.

Quirks of the code that the model keeps:

- Within a day, the events come in the order busy-before, busy-after, personal
  (project/manager/views.py:133-161).
- The personal hours are non-null schedule fields, and their event is emitted every day
  without any check.
- The cache rule is the coarse one. Any schedule or any vacation makes a cache file with a
  non-empty `last_updated` stale.
- A file written with an empty `last_updated`, because no task rows were read, is reused on
  every later request (`Feed.EmptyFingerprintNeverExpires`).
- The stored mark is the latest update over the rows of the range. The check compares it
  with the latest update over all the user's tasks, so a more recently updated task outside the
  range forces a rebuild every time (`Feed.WrittenEntryReuse`).
- Cache files are keyed by user only, never by range.
- A task whose status is NULL makes `status.replace` raise. The request then fails. Files
  already written for earlier users stay written.
- In `clean` the `@` check runs inside the loop over fields. The Telegram name therefore gets
  its `@` first, and `strip_tags` then runs on the prefixed name.
- `to_description` assigns `category` before it fails on a tag with fewer than three pieces.
  With two pieces it also assigns `subcategory` before failing.

## Model

| member | source | states |
|---|---|---|
| `Feed.SelectedUsers` | project/manager/views.py:33-40 | an empty request gives exactly `[current]`; otherwise the requested users in their order, with the current user added once at the end only when missing (length, prefix, last element, multiplicity of the current user) |
| `Feed.Fingerprint` | project/manager/views.py:195 | empty exactly when no task row was read; otherwise a value that is some row's `updated_at` and at least every row's |
| `Feed.DecideCache` | project/manager/views.py:54-91 | the step-by-step flag computation equals the cache rule: the file exists, parsed, and has both event lists, and either its `last_updated` is empty or (there is no task or the latest task update equals it) and there is no schedule and no vacation; a missing or unparsable file is always a miss |
| `Feed.UserStepContract` | project/manager/views.py:88-201 | a hit returns the stored lists unchanged and writes nothing; a miss fails exactly when some row has no status, and then on the first such row and without writing; a successful miss yields one event per row in row order and the background events (none at all without a schedule, vacations included), and writes exactly those with the latest `updated_at` of the rows |
| `Feed.EmptyFingerprintNeverExpires` | project/manager/views.py:78-91 | a file written when no task row was read is reused on every later request, whatever the store holds and whatever range is asked |
| `Feed.WrittenEntryReuse` | project/manager/views.py:65-91 | a freshly written file is reused by the next identical request exactly when no row was read, or when the latest update over all tasks equals the latest over the rows read and there is neither schedule nor vacation |
| `Feed.UserStepSettles` | project/manager/views.py:54-201 | serving a user again from the file the first serving left gives the same share and writes nothing different |
| `Feed.ServeSnoc` | project/manager/views.py:51-204 | serving one more user extends the answer with that user's task events, then background events, or ends in that user's failure |
| `Feed.ServeFailureSticks` | project/manager/views.py:51-204 | once a user's rebuild fails, the later users are not served and nothing more is written |
| `Feed.ChainExtend` | project/manager/views.py:203-204 | composing two parts of a request and then one more user is the same as composing the first part with the second extended by that user |
| `Feed.ServeAppend` | project/manager/views.py:51-204 | the answer for a list of users is the first part's answer followed by the second part's, served from the files the first part left |
| `Feed.ServeTouchesOnlyServed` | project/manager/views.py:52-201 | the file of a user who is not served is left as it was |
| `Feed.StepKeepsOthers` | project/manager/views.py:52-201 | serving one user writes no other user's file |
| `Feed.StepOfSettled` | project/manager/views.py:88-201 | serving a settled user leaves the directory unchanged |
| `Feed.StepReplays` | project/manager/views.py:54-201 | from files that hold what a previous serving of the user left, serving gives the same share and writes nothing new |
| `Feed.ServeSettles` | project/manager/views.py:51-204 | after a successful request no served user's file would change if served again |
| `Feed.ServeReplays` | project/manager/views.py:51-204 | serving from any files that agree on the served users with those a first request left gives that request's answer and changes no file |
| `Feed.ServeIdempotent` | project/manager/views.py:32-206 | two identical requests with no store change in between give the same answer and leave the same files |
| `Feed.FeedCache.ServeUser` | project/manager/views.py:52-204 | one pass of the loop changes the directory and answers exactly as `Step` says |
| `Feed.FeedCache.GetTasks` | project/manager/views.py:32-206 | the request's answer and the new directory are those of `Serve` over the selected users, starting from the old directory |
| `TaskFeed.ReplaceChar` | project/manager/views.py:106 | same length, every `from` character replaced by `to` and every other kept |
| `TaskFeed.Lower` | project/manager/views.py:106 | same length; each ASCII or basic Cyrillic capital (U+0400 to U+042F) is replaced by its lower-case letter, so none is left, and every other character is kept |
| `TaskFeed.SlugShape` | project/manager/views.py:105-106 | a slug has the status name's length, no spaces and no ASCII or basic Cyrillic capitals, and slugging it again changes nothing |
| `TaskFeed.FirstWithoutStatus` | project/manager/views.py:104-106 | the index of the first row without status (every earlier row has one), or the number of rows |
| `TaskFeed.TaskEventsSpec` | project/manager/views.py:104-119 | the projection succeeds exactly when every row has a status, and then gives one event per row in row order; otherwise it fails on the first row without status |
| `TaskFeed.TaskEventsOfFailedPrefix` | project/manager/views.py:104-106 | a failure in the first rows is the failure of the whole loop |
| `TaskFeed.BuildTaskEvents` | project/manager/views.py:104-119 | each event has start and end equal to the deadline, class `status-` plus the status with spaces made hyphens and lower-cased, title `<title> (<first> <last>)`, the row's id and user id; one per row, in order; the first row without status fails the loop |
| `Availability.DayEventsShape` | project/manager/views.py:130-161 | one to three events per day in the order busy-before, busy-after, personal; busy-before exactly when work starts after 00:00, busy-after exactly when it ends before 23:59:59, personal always and unchecked; all on that day |
| `Availability.DailyEventsCount` | project/manager/views.py:128-163 | no events when the last date is before the first; otherwise between one and three per day of the range |
| `Availability.DailyEventsInDayOrder` | project/manager/views.py:128-163 | every event lies on one day of the range, and the days never go back |
| `Availability.DailyEventsCoverEveryDay` | project/manager/views.py:128-163 | every day of the range gets its personal-hours event |
| `Availability.BuildDailyEvents` | project/manager/views.py:125-163 | the `while day <= end_date` loop produces exactly the daily events of the range |
| `Availability.OverlappingKeepsOverlaps` | project/manager/views.py:165-169 | a vacation is kept exactly when it ends on or after the first date and starts on or before the last date of the range |
| `Availability.VacationEventsPaired` | project/manager/views.py:171-189 | two events per kept vacation, in vacation order: the dates with the end moved to the next day, then 00:00 of the first date to 23:59:59 of the last |
| `Availability.VacationColours` | project/manager/views.py:176-187 | every vacation event has the vacation colour |
| `Availability.DailyColours` | project/manager/views.py:139-159 | every daily event has the busy or the personal colour |
| `Availability.AppendVacationEvents` | project/manager/views.py:171-189 | the vacation loop appends exactly the vacation events to the events so far |
| `Availability.BackgroundLayout` | project/manager/views.py:128-189 | with a schedule, all daily events come first and then two vacation events per kept vacation; only the latter have the vacation colour |
| `Availability.BuildBackground` | project/manager/views.py:122-192 | no background at all without a schedule, vacations included; otherwise the daily events followed by the vacation events |
| `Tags.Split` | project/manager/models.py:119 | at least one piece, and no piece contains the separator |
| `Tags.JoinSplit` | project/manager/models.py:116-119 | joining the pieces of a split gives the string back |
| `Tags.SplitPiece` | project/manager/models.py:119 | a string without separators splits into itself |
| `Tags.SplitCons` | project/manager/models.py:116-119 | a separator-free piece followed by the separator comes out as the first piece |
| `Tags.SplitJoin` | project/manager/models.py:116-119 | joining separator-free pieces and splitting again gives the pieces back |
| `Tags.TagText` | project/manager/models.py:108-116 | the tag is `#` + category + `-` + subcategory + `-` + for_what, each label written as `_` when empty or missing |
| `Tags.Tag.ToTag` | project/manager/models.py:108-116 | the loop-built tag text equals that text |
| `Tags.Tag.ToDescription` | project/manager/models.py:118-125 | the first character is dropped and the rest is split; parts are assigned in order, `_` becomes None and other parts are kept; extra parts are ignored; with fewer than three parts it fails at the first missing index, after the earlier labels were assigned |
| `Tags.RoundTrip` | project/manager/models.py:108-125 | when no label contains `-` or is `_`, reading back a written tag gives exactly three labels, the originals except that empty labels come back as None |
| `Tags.TextRoundTrip` | project/manager/models.py:108-125 | a `#` tag with exactly three non-empty pieces is written back as it was read |
| `Tags.SeparatorSplitsLabel` | project/manager/models.py:108-125 | a label holding `-` does not survive: `a-b` comes back as two labels and four pieces in all |
| `Profiles.CustomUser.Clean` | project/manager/models.py:29-37 | the loop over the three fields leaves the profile equal to the cleaned profile |
| `Profiles.CleanedFieldwise` | project/manager/models.py:29-37 | a non-empty patronymic or job title is stripped, and empty or NULL ones are kept; a non-empty Telegram name becomes `@`-prefixed, then stripped, then `@`-prefixed again |
| `Profiles.CleanedTelegramPrefixed` | project/manager/models.py:36-37 | after clean the Telegram name is empty or starts with `@` |
| `Profiles.CleanKeepsEmptyFields` | project/manager/models.py:33 | each empty or NULL field, taken on its own, comes out of `clean` unchanged whatever the other fields hold |
| `Profiles.CleanKeepsPrefixedName` | project/manager/models.py:36-37 | a name that already starts with `@`, and that stripping leaves alone, is unchanged |
| `Profiles.CleanIdempotent` | project/manager/models.py:29-37 | when `strip_tags` is idempotent and commutes with a leading `@`, cleaning twice equals cleaning once |
| `Deadlines.DefaultDeadline` | project/manager/models.py:9-14 | the deadline is the given day plus three, at 00:00:00 |
| `Deadlines.DefaultDeadlineLeavesThreeDays` | project/manager/models.py:9-14 | an instant comes before the default deadline exactly when its day is earlier than the third day after today (so every instant of today, of the two following days and of any earlier day) |

## Left out

- The database queries are not modelled as queries. Their answers are inputs, per user: the
  task rows of the range, in the order given; the latest `updated_at`; the schedule; and the
  vacations. Only the vacation overlap condition is written out, as a filter.
- Reading and writing files and JSON are left out. A cache file is a map entry that holds
  the written values exactly. JSON that parses but is not an object, and non-list values
  under the two keys, are not modelled.
- Atomic writes and concurrent requests are left out. The code has neither, and the model is
  sequential.
- ISO formatting and parsing are left out, as are time zones and sub-second times.
  `updated_at` values are integers, and comparing their ISO strings is modelled as comparing
  those integers.
- A request without `start` or `end` is not modelled. On a cache hit such a request succeeds, because the cache path never reads the two values (project/manager/views.py:46-91). On a miss, the row query gets a `None` bound, and for a user with a schedule `datetime.fromisoformat` raises (project/manager/views.py:125-126). `Range` always holds both dates.
  `Range` holds the two date parts.
- The `str()` conversions of ids are left out. Ids are strings throughout.
- `TaskFeed.Lower`: lower-cases ASCII letters and the basic Cyrillic capitals (U+0400 to
  U+042F) only. The rest of Python's Unicode case mapping (Greek, Latin accented letters,
  special cases such as `İ`) has no counterpart here.
- `Availability.BuildDailyEvents`: day numbers are unbounded. Python dates end at 9999-12-31,
  where `day += timedelta(days=1)` (project/manager/views.py:163) raises `OverflowError`
  after that day's events. The request then fails and the user's file is not written. The
  model produces the events and succeeds.
- `Availability.AppendVacationEvents`: the same bound applies. A kept vacation that ends on
  9999-12-31 makes `date_end + timedelta(days=1)` (project/manager/views.py:174) raise. The
  model emits the end date plus one instead.
- `strip_tags` is a parameter of `Clean`. `timezone.now` and `make_aware` are replaced by the
  given day.
- The constant `rendering: 'background'` of every background event is not stored. Neither
  are fields the feed does not read, such as `Vacation.tag`.
- `JsonResponse`, the other views (index, profile, password, vacation, task create, edit and
  delete), the admin, the forms and the URL table are left out. They are Django plumbing.
