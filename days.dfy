/**
 * Days as whole numbers counted from 1 January 1970, the calendar arithmetic the
 * admin script's week navigation and the admin dashboard's 'this week' range share.
 */
module Days {
  /** The weekday of a day number, 0 for Sunday through 6 for Saturday, as JS `getDay` numbers them (day 0 was a Thursday). */
  function Weekday(day: int): (w: nat)
    ensures w < 7
    ensures day == 0 ==> w == 4
  {
    (day + 4) % 7
  }

  /** The weekday moves on by one with each day and wraps from Saturday to Sunday. */
  lemma WeekdayNext(day: int)
    ensures Weekday(day + 1) == (Weekday(day) + 1) % 7
  {
  }
}
