/** Points in time as whole seconds, and the trailing windows the reporting tools look back over. */
module Clock {

  const SecondsPerDay: int := 86400

  /** `datetime.now() - timedelta(days=days)` */
  function WindowStart(now: int, days: int): int
  {
    now - days * SecondsPerDay
  }
}
