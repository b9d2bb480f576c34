/**
 The apply window of controllers/helpers.go: a forward search over the fires of a cron schedule.
 Times and durations are nanoseconds.
 */
module ApplyWindow {
  import opened Wrappers

  const HOUR: int := 3_600_000_000_000

  /** The cron library's Next: the least fire strictly after a time. A schedule is known only through it. */
  type Cron = next: int -> int | GivesLeastLaterFire(next) witness (t: int) => t + 1

  ghost predicate GivesLeastLaterFire(next: int -> int) {
    && (forall t :: t < next(t))
    && (forall t, u :: t <= u < next(t) ==> next(u) == next(t))
  }

  ghost predicate IsFire(c: Cron, f: int) {
    c(f - 1) == f
  }

  /** `cron` is None when the expression does not parse, `window` when its text is empty or does not parse. */
  datatype ApplySchedule = ApplySchedule(cron: Option<Cron>, window: Option<int>)

  function WindowLength(s: ApplySchedule): (d: int)
    ensures d > 0
  {
    if s.window.Some? && s.window.value > 0 then s.window.value else HOUR
  }

  /** The definition the search has to meet: some fire opened a window that has not closed yet. */
  ghost predicate Open(c: Cron, length: int, now: int) {
    exists f :: IsFire(c, f) && f <= now < f + length
  }

  ghost predicate InWindow(s: ApplySchedule, now: int) {
    s.cron.Some? && Open(s.cron.value, WindowLength(s), now)
  }

  /** A window lasts as long as the spec says, and one hour where it says nothing or nothing positive. */
  lemma WindowIsAsConfigured(cron: Option<Cron>, window: Option<int>, now: int)
    ensures window.Some? && window.value > 0 ==>
              (InWindow(ApplySchedule(cron, window), now) <==>
               cron.Some? && exists f :: IsFire(cron.value, f) && f <= now < f + window.value)
    ensures window.None? || window.value <= 0 ==>
              (InWindow(ApplySchedule(cron, window), now) <==>
               cron.Some? && exists f :: IsFire(cron.value, f) && f <= now < f + 3_600_000_000_000)
  {
  }

  ghost predicate LeastFireAfter(c: Cron, now: int, n: int) {
    && IsFire(c, n)
    && now < n
    && forall f :: IsFire(c, f) && now < f ==> n <= f
  }

  lemma NextIsLeastFire(c: Cron, t: int)
    ensures LeastFireAfter(c, t, c(t))
  {
    assert c(c(t) - 1) == c(t);
    forall f | IsFire(c, f) && t < f
      ensures c(t) <= f
    {
      if f - 1 < c(t) {
        assert c(f - 1) == c(t);
      }
    }
  }

  /** What the search knows on each turn: `last` is the newest fire it has passed, `candidate` the one after it. */
  ghost predicate Scanning(c: Cron, start: int, last: Option<int>, candidate: int) {
    match last
    case None => LeastFireAfter(c, start, candidate)
    case Some(f) => IsFire(c, f) && LeastFireAfter(c, f, candidate)
  }

  /** The newest passed fire decides: the bounded look-back has skipped no fire whose window is still open. */
  lemma NewestFireDecides(c: Cron, length: int, now: int, start: int, last: Option<int>, candidate: int)
    requires 0 < length && start <= now - length
    requires Scanning(c, start, last, candidate) && now < candidate
    requires last.Some? ==> last.value <= now
    ensures LeastFireAfter(c, now, candidate)
    ensures Open(c, length, now) <==> last.Some? && now < last.value + length
  {
  }

  method IsWithinApplyWindow(spec: Option<ApplySchedule>, now: int) returns (inWindow: bool, next: Option<int>)
    ensures inWindow <==>
            && spec.Some? && spec.value.cron.Some?
            && var d := spec.value.window.GetOr(0);
            exists f :: IsFire(spec.value.cron.value, f) && f <= now < f + if d > 0 then d else 3_600_000_000_000
    ensures next.Some? <==> spec.Some? && spec.value.cron.Some?
    ensures next.Some? ==> LeastFireAfter(spec.value.cron.value, now, next.value)
  {
    if spec.None? {
      return false, None;
    }
    if spec.value.cron.None? {
      return false, None;
    }
    var sched := spec.value.cron.value;
    var windowDur := WindowLength(spec.value);

    var searchStart := now - (windowDur + 25 * HOUR);
    NextIsLeastFire(sched, searchStart);
    var candidate := sched(searchStart);
    var lastFire: Option<int> := None;
    while candidate <= now
      invariant Scanning(sched, searchStart, lastFire, candidate)
      invariant lastFire.Some? ==> lastFire.value <= now
      decreases now - candidate
    {
      lastFire := Some(candidate);
      NextIsLeastFire(sched, candidate);
      candidate := sched(candidate);
    }
    NewestFireDecides(sched, windowDur, now, searchStart, lastFire, candidate);
    inWindow := lastFire.Some? && now < lastFire.value + windowDur;
    next := Some(candidate);
  }

  /** Between a closed check and the start it names nothing opens, and from that start on the window is open. */
  lemma NoWindowMissed(c: Cron, length: int, now: int, n: int)
    requires 0 < length && !Open(c, length, now) && LeastFireAfter(c, now, n)
    ensures forall t :: now <= t < n ==> !Open(c, length, t)
    ensures forall t :: n <= t < n + length ==> Open(c, length, t)
  {
  }
}
