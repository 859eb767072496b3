/** What the feed reads from the entity store for one user. The queries
    themselves are outside the model: their answers are given as values. */
module Entities {
  import opened Common

  /** One row of the task query (tasks the user manages with a deadline in the
      requested range), holding the columns the feed reads. The status name is
      NULL when the task has no status. */
  datatype TaskRow = TaskRow(
    id: string,
    title: string,
    deadline: Stamp,
    status: Option<string>,
    updatedAt: Timestamp,
    managedById: UserId,
    firstName: string,
    lastName: string)

  /** A user's daily work and personal hours. */
  datatype Schedule = Schedule(workStart: Second, workEnd: Second, personalStart: Second, personalEnd: Second)

  /** A vacation: both dates inclusive. */
  datatype Vacation = Vacation(dateStart: int, dateEnd: int)

  /** The store's answers for one user: the task rows of the requested range,
      the `updated_at` of the user's most recently updated task (over all of
      the user's tasks, whatever their deadline), the schedule if there is
      one, and every vacation recorded under that schedule. */
  datatype UserData = UserData(
    tasks: seq<TaskRow>,
    latestUpdate: Option<Timestamp>,
    schedule: Option<Schedule>,
    vacations: seq<Vacation>)

  /** The store as the feed sees it; a user it does not know has no data. */
  type Store = map<UserId, UserData>

  function DataOf(db: Store, u: UserId): UserData
  {
    if u in db then db[u] else UserData([], None, None, [])
  }

  /** The requested range: the date parts of the `start` and `end` parameters. */
  datatype Range = Range(startDay: int, endDay: int)
}
