/** The per-user calendar feed and its cache file. For every selected user
    the feed either reuses the events stored in the user's cache file or
    builds them from the store and overwrites the file; the answer is the
    users' task events and background events, user after user. */
module Feed {
  import opened Common
  import opened Entities
  import opened TaskFeed
  import opened Availability

  /** The content of a user's cache file once read: unparsable, or an object
      whose `last_updated` may be empty and whose `tasks` and
      `background_events` keys may be missing. */
  datatype StoredEntry =
    | Malformed
    | Entry(lastUpdated: Option<Timestamp>, tasks: Option<seq<CalendarEvent>>, background: Option<seq<BackgroundEvent>>)

  /** One user's share of the answer. */
  datatype UserFeed = UserFeed(tasks: seq<CalendarEvent>, background: seq<BackgroundEvent>)

  /** One element of the answer. */
  datatype Event = TaskItem(task: CalendarEvent) | BackgroundItem(background: BackgroundEvent)

  /** The cache directory: one file per user id; a missing key is a missing file. */
  type Files = map<UserId, StoredEntry>

  /** The users to serve: the requested ones in the order given, and the
      current user added once at the end when not among them. */
  function SelectedUsers(requested: seq<UserId>, current: UserId): (selected: seq<UserId>)
    ensures requested == [] ==> selected == [current]
    ensures |selected| == |requested| + (if current in requested then 0 else 1)
    ensures selected[..|requested|] == requested
    ensures current in requested || selected[|requested|] == current
    ensures multiset(selected)[current] == if current in requested then multiset(requested)[current] else 1
  {
    if requested == [] then [current]
    else if current in requested then requested
    else requested + [current]
  }

  /** The freshness mark written into a new cache file: the latest
      `updated_at` of the task rows just read, or empty when there are none. */
  function Fingerprint(tasks: seq<TaskRow>): (fp: Option<Timestamp>)
    ensures fp.None? <==> tasks == []
    ensures fp.Some? ==> exists i :: 0 <= i < |tasks| && tasks[i].updatedAt == fp.value
    ensures fp.Some? ==> forall i :: 0 <= i < |tasks| ==> tasks[i].updatedAt <= fp.value
  {
    if tasks == [] then None
    else
      var rest := Fingerprint(tasks[1..]);
      assert forall i :: 1 <= i < |tasks| ==> tasks[i] == tasks[1..][i - 1];
      match rest
      case None => Some(tasks[0].updatedAt)
      case Some(m) => if m < tasks[0].updatedAt then Some(tasks[0].updatedAt) else Some(m)
  }

  /** When the stored events may be reused: the file exists and parsed with
      both event lists present, and either its `last_updated` is empty, or
      the user's most recent task update equals it (or the user has no task)
      and the user has neither a schedule nor any vacation. */
  predicate CacheHit(entry: Option<StoredEntry>, data: UserData)
  {
    && entry.Some? && entry.value.Entry?
    && entry.value.tasks.Some? && entry.value.background.Some?
    && (|| entry.value.lastUpdated.None?
        || (&& (data.latestUpdate.None? || data.latestUpdate == entry.value.lastUpdated)
            && data.schedule.None?
            && |data.vacations| == 0))
  }

  /** The cache check as the feed runs it, one flag at a time. An unparsable
      file reads as an empty object. */
  method DecideCache(entry: Option<StoredEntry>, data: UserData) returns (useCache: bool)
    ensures useCache == CacheHit(entry, data)
  {
    useCache := false;
    if entry.Some? {
      var stored := if entry.value.Malformed? then Entry(None, None, None) else entry.value;
      var cacheValid := true;
      if stored.lastUpdated.Some? {
        if data.latestUpdate.Some? && data.latestUpdate.value != stored.lastUpdated.value {
          cacheValid := false;
        } else if data.schedule.Some? {
          cacheValid := false;
        } else if |data.vacations| > 0 {
          cacheValid := false;
        }
      }
      if cacheValid && stored.tasks.Some? && stored.background.Some? {
        useCache := true;
      }
    }
  }

  /** A user's events built from the store. */
  function BuildFeed(data: UserData, u: UserId, range: Range): Result<UserFeed, FeedError>
  {
    match TaskEvents(data.tasks)
    case Failure(e) => Failure(e)
    case Success(events) => Success(UserFeed(events, Background(data.schedule, data.vacations, u, range)))
  }

  /** The file written after a rebuild. */
  function Written(data: UserData, feed: UserFeed): StoredEntry
  {
    Entry(Fingerprint(data.tasks), Some(feed.tasks), Some(feed.background))
  }

  /** What serving one user does: the file it writes, if any, and its share of the answer. */
  datatype Outcome = Outcome(write: Option<StoredEntry>, result: Result<UserFeed, FeedError>)

  function UserStep(entry: Option<StoredEntry>, data: UserData, u: UserId, range: Range): Outcome
  {
    if CacheHit(entry, data) then
      Outcome(None, Success(UserFeed(entry.value.tasks.value, entry.value.background.value)))
    else
      match BuildFeed(data, u, range)
      case Failure(e) => Outcome(None, Failure(e))
      case Success(feed) => Outcome(Some(Written(data, feed)), Success(feed))
  }

  /** A hit returns the stored lists unchanged and writes nothing. A miss
      builds one event per task row, in row order, and the background events
      (none at all without a schedule), and writes exactly those together
      with the latest `updated_at` of the rows; a row without status makes
      the miss fail without writing. */
  lemma UserStepContract(entry: Option<StoredEntry>, data: UserData, u: UserId, range: Range)
    ensures var o := UserStep(entry, data, u, range);
      && (CacheHit(entry, data) ==>
            o.write.None? && o.result == Success(UserFeed(entry.value.tasks.value, entry.value.background.value)))
      && (!CacheHit(entry, data) ==>
            (o.result.Success? <==> forall i :: 0 <= i < |data.tasks| ==> data.tasks[i].status.Some?))
      && (!CacheHit(entry, data) && o.result.Failure? ==>
            o.write.None? && o.result.error == TaskWithoutStatus(data.tasks[FirstWithoutStatus(data.tasks)].id))
      && (!CacheHit(entry, data) && o.result.Success? ==>
            && |o.result.value.tasks| == |data.tasks|
            && (forall i :: 0 <= i < |data.tasks| ==> data.tasks[i].status.Some? && o.result.value.tasks[i] == TaskEvent(data.tasks[i]))
            && o.result.value.background == Background(data.schedule, data.vacations, u, range)
            && (data.schedule.None? ==> o.result.value.background == [])
            && o.write == Some(Entry(Fingerprint(data.tasks), Some(o.result.value.tasks), Some(o.result.value.background))))
  {
    TaskEventsSpec(data.tasks);
  }

  /** A file written with an empty `last_updated` (no task rows at the time)
      is reused on every later request, whatever the store then holds and
      whatever range is asked for. */
  lemma EmptyFingerprintNeverExpires(data: UserData, u: UserId, range: Range, feed: UserFeed,
                                     later: UserData, laterRange: Range)
    requires data.tasks == []
    ensures UserStep(Some(Written(data, feed)), later, u, laterRange) == Outcome(None, Success(feed))
  {
  }

  /** Whether a freshly written file is reused by the next identical request:
      always when no task row was read, and otherwise only when the latest
      update over all the user's tasks is the latest over the rows read
      (a more recently updated task outside the range forces a rebuild every
      time) and the user has neither schedule nor vacation. */
  lemma WrittenEntryReuse(data: UserData, feed: UserFeed)
    ensures CacheHit(Some(Written(data, feed)), data)
        <==> (|| data.tasks == []
              || (&& (data.latestUpdate.None? || data.latestUpdate == Fingerprint(data.tasks))
                  && data.schedule.None?
                  && |data.vacations| == 0))
  {
  }

  /** Serving a user a second time, from the file the first time left,
      gives the same share and leaves that file as it is. */
  lemma UserStepSettles(entry: Option<StoredEntry>, data: UserData, u: UserId, range: Range)
    ensures var o := UserStep(entry, data, u, range);
      var after := if o.write.Some? then o.write else entry;
      && UserStep(after, data, u, range).result == o.result
      && (UserStep(after, data, u, range).write.None? || UserStep(after, data, u, range).write == after)
  {
  }

  function Get(files: Files, u: UserId): Option<StoredEntry>
  {
    if u in files then Some(files[u]) else None
  }

  /** Serving one user against the cache directory. */
  function Step(files: Files, db: Store, u: UserId, range: Range): (Files, Result<UserFeed, FeedError>)
  {
    var o := UserStep(Get(files, u), DataOf(db, u), u, range);
    (if o.write.Some? then files[u := o.write.value] else files, o.result)
  }

  /** A user's share of the answer: the task events, then the background events. */
  function Items(feed: UserFeed): seq<Event>
  {
    seq(|feed.tasks|, i requires 0 <= i < |feed.tasks| => TaskItem(feed.tasks[i]))
    + seq(|feed.background|, i requires 0 <= i < |feed.background| => BackgroundItem(feed.background[i]))
  }

  /** Adding one user's step to the request so far: nothing once it has
      failed, else that user's files and share, or that user's failure. */
  function Extend(prev: (Files, Result<seq<Event>, FeedError>), step: (Files, Result<UserFeed, FeedError>))
    : (Files, Result<seq<Event>, FeedError>)
  {
    if prev.1.Failure? then prev
    else match step.1
      case Failure(e) => (step.0, Failure(e))
      case Success(feed) => (step.0, Success(prev.1.value + Items(feed)))
  }

  /** Serving the users in order; the first failure ends the request, with
      the files written for the users before it kept. */
  function Serve(files: Files, db: Store, users: seq<UserId>, range: Range): (Files, Result<seq<Event>, FeedError>)
    decreases |users|
  {
    if users == [] then (files, Success([]))
    else
      var prev := Serve(files, db, users[..|users| - 1], range);
      Extend(prev, Step(prev.0, db, users[|users| - 1], range))
  }

  /** Serving one more user. */
  lemma ServeSnoc(files: Files, db: Store, users: seq<UserId>, u: UserId, range: Range)
    ensures var prev := Serve(files, db, users, range);
      Serve(files, db, users + [u], range) == Extend(prev, Step(prev.0, db, u, range))
  {
    assert (users + [u])[..|users|] == users;
  }

  /** Once the users so far have failed, later users change nothing. */
  lemma {:induction false} ServeFailureSticks(files: Files, db: Store, users: seq<UserId>, n: nat, range: Range)
    requires n <= |users| && Serve(files, db, users[..n], range).1.Failure?
    ensures Serve(files, db, users, range) == Serve(files, db, users[..n], range)
    decreases |users| - n
  {
    if n < |users| {
      assert users[..n + 1][..n] == users[..n];
      ServeFailureSticks(files, db, users, n + 1, range);
    } else {
      assert users[..n] == users;
    }
  }

  /** Two parts of a request one after the other: the second part's files
      and, when both succeed, the first part's answer followed by the second's. */
  function Chain(p1: (Files, Result<seq<Event>, FeedError>), p2: (Files, Result<seq<Event>, FeedError>))
    : (Files, Result<seq<Event>, FeedError>)
  {
    if p1.1.Failure? then p1
    else if p2.1.Failure? then p2
    else (p2.0, Success(p1.1.value + p2.1.value))
  }

  lemma ChainExtend(p1: (Files, Result<seq<Event>, FeedError>), q: (Files, Result<seq<Event>, FeedError>),
                    step: (Files, Result<UserFeed, FeedError>))
    ensures Extend(Chain(p1, q), step) == Chain(p1, Extend(q, step))
  {
    if p1.1.Success? && q.1.Success? && step.1.Success? {
      assert p1.1.value + q.1.value + Items(step.1.value) == p1.1.value + (q.1.value + Items(step.1.value));
    }
  }

  /** Serving a list of users in two parts: the second part starts from the
      files the first left, and the answers are concatenated. */
  lemma {:induction false} ServeAppend(files: Files, db: Store, first: seq<UserId>, second: seq<UserId>, range: Range)
    ensures Serve(files, db, first + second, range)
         == Chain(Serve(files, db, first, range), Serve(Serve(files, db, first, range).0, db, second, range))
    decreases |second|
  {
    var p1 := Serve(files, db, first, range);
    if second == [] {
      assert first + second == first;
      if p1.1.Success? {
        assert p1.1.value + [] == p1.1.value;
        assert p1.1 == Success(p1.1.value);
      }
    } else {
      var init, u := second[..|second| - 1], second[|second| - 1];
      ServeAppend(files, db, first, init, range);
      var q := Serve(p1.0, db, init, range);
      assert first + second == (first + init) + [u];
      assert second == init + [u];
      ServeSnoc(files, db, first + init, u, range);
      ServeSnoc(p1.0, db, init, u, range);
      var a := Serve(files, db, first + init, range);
      assert a == Chain(p1, q);
      assert p1.1.Success? ==> a.0 == q.0;
      ChainExtend(p1, q, Step(q.0, db, u, range));
    }
  }

  /** Files of users that are not served are left as they were. */
  lemma {:induction false} ServeTouchesOnlyServed(files: Files, db: Store, users: seq<UserId>, range: Range, other: UserId)
    requires other !in users
    ensures Get(Serve(files, db, users, range).0, other) == Get(files, other)
    decreases |users|
  {
    if users != [] {
      ServeTouchesOnlyServed(files, db, users[..|users| - 1], range, other);
      assert users[|users| - 1] in users;
    }
  }

  /** Serving the user again from these files would write nothing new. */
  predicate Settled(files: Files, db: Store, u: UserId, range: Range)
  {
    var o := UserStep(Get(files, u), DataOf(db, u), u, range);
    o.write.None? || o.write == Get(files, u)
  }

  /** Serving one user leaves every other user's file as it was. */
  lemma StepKeepsOthers(files: Files, db: Store, u: UserId, range: Range, v: UserId)
    requires v != u
    ensures Get(Step(files, db, u, range).0, v) == Get(files, v)
  {
  }

  /** Serving a settled user writes nothing new. */
  lemma StepOfSettled(files: Files, db: Store, u: UserId, range: Range)
    requires Settled(files, db, u, range)
    ensures Step(files, db, u, range).0 == files
  {
  }

  /** Serving a user from files that hold what a previous serving of that
      user left gives the same share and writes nothing new. */
  lemma StepReplays(files: Files, db: Store, u: UserId, range: Range, again: Files)
    requires Get(again, u) == Get(Step(files, db, u, range).0, u)
    ensures Step(again, db, u, range) == (again, Step(files, db, u, range).1)
    ensures Settled(Step(files, db, u, range).0, db, u, range)
  {
    var data := DataOf(db, u);
    UserStepSettles(Get(files, u), data, u, range);
    var o := UserStep(Get(again, u), data, u, range);
    if o.write.Some? {
      assert u in again && again[u] == o.write.value;
      assert again[u := o.write.value] == again;
    }
  }

  /** After a successful request every served user is settled. */
  lemma {:induction false} ServeSettles(files: Files, db: Store, users: seq<UserId>, range: Range)
    requires Serve(files, db, users, range).1.Success?
    ensures forall v :: v in users ==> Settled(Serve(files, db, users, range).0, db, v, range)
    decreases |users|
  {
    if users != [] {
      var init, u := users[..|users| - 1], users[|users| - 1];
      var prev := Serve(files, db, init, range);
      ServeSettles(files, db, init, range);
      var after := Step(prev.0, db, u, range).0;
      assert Serve(files, db, users, range).0 == after;
      StepReplays(prev.0, db, u, range, after);
      forall v | v in users ensures Settled(after, db, v, range) {
        if v != u {
          assert v in init;
          StepKeepsOthers(prev.0, db, u, range, v);
        }
      }
    }
  }

  /** Serving the users from any files that agree, on every served user, with
      the files a first request left, gives the first request's answer and
      writes nothing new. */
  lemma {:induction false} ServeReplays(files: Files, db: Store, users: seq<UserId>, range: Range, again: Files)
    requires forall v :: v in users ==> Get(again, v) == Get(Serve(files, db, users, range).0, v)
    ensures Serve(again, db, users, range) == (again, Serve(files, db, users, range).1)
    decreases |users|
  {
    if users != [] {
      var init, u := users[..|users| - 1], users[|users| - 1];
      var prev := Serve(files, db, init, range);
      if prev.1.Success? {
        var step := Step(prev.0, db, u, range);
        assert Serve(files, db, users, range).0 == step.0;
        ServeSettles(files, db, init, range);
        forall v | v in init ensures Get(again, v) == Get(prev.0, v) {
          assert v in users;
          if v == u {
            StepOfSettled(prev.0, db, u, range);
          } else {
            StepKeepsOthers(prev.0, db, u, range, v);
          }
        }
        ServeReplays(files, db, init, range, again);
        StepReplays(prev.0, db, u, range, again);
      } else {
        forall v | v in init ensures Get(again, v) == Get(prev.0, v) {
          assert v in users;
        }
        ServeReplays(files, db, init, range, again);
      }
    }
  }

  /** Two identical requests with no change to the store in between give the
      same answer, and the second leaves the cache files as the first did. */
  lemma ServeIdempotent(files: Files, db: Store, users: seq<UserId>, range: Range)
    ensures var first := Serve(files, db, users, range);
      Serve(first.0, db, users, range) == first
  {
    ServeReplays(files, db, users, range, Serve(files, db, users, range).0);
  }

  /** The cache directory the feed reads and overwrites. */
  class FeedCache {
    var files: Files

    constructor (files: Files)
      ensures this.files == files
    {
      this.files := files;
    }

    /** One pass of the request loop: read the user's file, decide whether to
        reuse it, and otherwise rebuild the events and overwrite the file. */
    method ServeUser(db: Store, userId: UserId, range: Range) returns (r: Result<UserFeed, FeedError>)
      modifies this
      ensures (files, r) == Step(old(files), db, userId, range)
    {
      var data := DataOf(db, userId);
      var useCache := false;
      var userEvents: seq<CalendarEvent> := [];
      var background: seq<BackgroundEvent> := [];
      if userId in files {
        var entry := files[userId];
        useCache := DecideCache(Some(entry), data);
        if useCache {
          userEvents := entry.tasks.value;
          background := entry.background.value;
        }
      }
      if !useCache {
        var built := BuildTaskEvents(data.tasks);
        if built.Failure? {
          return Failure(built.error);
        }
        userEvents := built.value;
        background := BuildBackground(data.schedule, data.vacations, userId, range);
        files := files[userId := Entry(Fingerprint(data.tasks), Some(userEvents), Some(background))];
      }
      r := Success(UserFeed(userEvents, background));
    }

    /** The feed request: serve every selected user in turn, reusing or
        rebuilding their events, and answer with all of them. */
    method GetTasks(db: Store, requested: seq<UserId>, current: UserId, range: Range)
      returns (r: Result<seq<Event>, FeedError>)
      modifies this
      ensures (files, r) == Serve(old(files), db, SelectedUsers(requested, current), range)
    {
      var selected := SelectedUsers(requested, current);
      var events: seq<Event> := [];
      for i := 0 to |selected|
        invariant Serve(old(files), db, selected[..i], range) == (files, Success(events))
      {
        var userId := selected[i];
        assert selected[..i + 1] == selected[..i] + [userId];
        ServeSnoc(old(files), db, selected[..i], userId, range);
        var feed := ServeUser(db, userId, range);
        if feed.Failure? {
          r := Failure(feed.error);
          ServeFailureSticks(old(files), db, selected, i + 1, range);
          return;
        }
        events := events + Items(feed.value);
      }
      assert selected[..|selected|] == selected;
      r := Success(events);
    }
  }
}
