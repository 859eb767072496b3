/** The default deadline of a new task. The current date is a parameter:
    the clock and the time-zone attachment are outside the model. */
module Deadlines {
  import opened Common

  /** Ordering of date-times: by day, then by second. */
  predicate Earlier(a: Stamp, b: Stamp)
    requires a.DateTime? && b.DateTime?
  {
    a.day < b.day || (a.day == b.day && a.second < b.second)
  }

  /** Midnight at the start of the third day after `today`. */
  function DefaultDeadline(today: int): (deadline: Stamp)
    ensures deadline.DateTime?
    ensures deadline.day == today + 3 && deadline.second == 0
  {
    DateTime(today + 3, 0)
  }

  /** Every instant of today and of the two days after it comes before the
      default deadline, and no instant of the day after that does. */
  lemma DefaultDeadlineLeavesThreeDays(today: int, at: Stamp)
    requires at.DateTime?
    ensures Earlier(at, DefaultDeadline(today)) <==> at.day < today + 3
  {
  }
}
