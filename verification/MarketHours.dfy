/**
 MarketHours (app/core/markets.py): the branching status() looked up by local date, against
 a specification that quantifies over the whole schedule, and the next_close_at scan.
 Instants are microseconds; a local date is a day number.
 */
module MarketHours {
  import opened Broker

  const MINUTE := 60_000_000
  const PRE_MARKET := 330 * MINUTE
  const POST_MARKET := 240 * MINUTE
  const WINDOW_DAYS := 21

  datatype Break = Break(start: int, end: int)

  datatype Session = Session(date: int, open: int, close: int, lunch: Option<Break>)

  /** `localDate` is the venue's local date of an instant; `extended` says the exchange is one
      of the US codes with pre- and post-market sessions. */
  datatype Calendar = Calendar(localDate: int -> int, schedule: seq<Session>, extended: bool)

  /** What exchange_calendars promises: sessions in date order, each trading within its own
      local date, US extended hours strictly inside that date, and a lunch inside the session. */
  ghost predicate WellFormed(c: Calendar) {
    && (forall t, u | t <= u :: c.localDate(t) <= c.localDate(u))
    && (forall i, j | 0 <= i < j < |c.schedule| :: c.schedule[i].date < c.schedule[j].date)
    && forall i | 0 <= i < |c.schedule| :: SessionOk(c, c.schedule[i])
  }

  ghost predicate SessionOk(c: Calendar, s: Session) {
    && s.open < s.close
    && c.localDate(s.open) == s.date == c.localDate(s.close)
    && (c.extended ==> c.localDate(s.open - PRE_MARKET) == s.date == c.localDate(s.close + POST_MARKET))
    && (s.lunch.Some? ==> s.open < s.lunch.value.start < s.lunch.value.end <= s.close)
  }

  datatype State = Open | Extended | Lunch | Closed | Holiday

  datatype Window = Pre | Post

  datatype Status = Status(state: State, window: Option<Window>, transition: Option<int>)

  // ---- the code -----------------------------------------------------------------------

  /** Index of the first session dated `date` or later. */
  function FirstFrom(schedule: seq<Session>, date: int): (i: nat)
    ensures i <= |schedule|
    ensures forall j | 0 <= j < i :: schedule[j].date < date
    ensures i < |schedule| ==> schedule[i].date >= date
  {
    if schedule == [] || schedule[0].date >= date then 0 else 1 + FirstFrom(schedule[1..], date)
  }

  function SessionOn(c: Calendar, date: int): Option<Session> {
    var i := FirstFrom(c.schedule, date);
    if i < |c.schedule| && c.schedule[i].date == date then Some(c.schedule[i]) else None
  }

  function NextSessionOpen(c: Calendar, date: int): Option<int> {
    var i := FirstFrom(c.schedule, date);
    var j := if i < |c.schedule| && c.schedule[i].date == date then i + 1 else i;
    if j < |c.schedule| then Some(c.schedule[j].open) else None
  }

  function PreviousSessionClose(c: Calendar, date: int): Option<int> {
    var i := FirstFrom(c.schedule, date);
    if i > 0 then Some(c.schedule[i - 1].close) else None
  }

  function StatusAt(c: Calendar, now: int): Status {
    var date := c.localDate(now);
    match SessionOn(c, date)
    case None => Status(Holiday, None, NextSessionOpen(c, date))
    case Some(s) =>
      if now < s.open || now >= s.close then
        var previous := PreviousSessionClose(c, date);
        if c.extended && s.open - PRE_MARKET <= now < s.open then Status(Extended, Some(Pre), Some(s.open))
        else if c.extended && s.close <= now < s.close + POST_MARKET then
          Status(Extended, Some(Post), Some(s.close + POST_MARKET))
        else if c.extended && now < s.open && previous.Some?
                && previous.value <= now < previous.value + POST_MARKET then
          Status(Extended, Some(Post), Some(previous.value + POST_MARKET))
        else if now < s.open then Status(Closed, None, Some(s.open))
        else Status(Closed, None, NextSessionOpen(c, date))
      else if s.lunch.Some? && s.lunch.value.start <= now < s.lunch.value.end then
        Status(Lunch, None, Some(s.lunch.value.end))
      else if s.lunch.Some? && now < s.lunch.value.start then
        Status(Open, None, Some(s.lunch.value.start))
      else Status(Open, None, Some(s.close))
  }

  // ---- the specification ---------------------------------------------------------------

  predicate AtLunch(s: Session, t: int) {
    s.lunch.Some? && s.lunch.value.start <= t < s.lunch.value.end
  }

  predicate Trading(s: Session, t: int) {
    s.open <= t < s.close && !AtLunch(s, t)
  }

  predicate InWindow(s: Session, t: int, w: Window) {
    match w
    case Pre => s.open - PRE_MARKET <= t < s.open
    case Post => s.close <= t < s.close + POST_MARKET
  }

  ghost predicate SomeTrading(c: Calendar, t: int) {
    exists i :: 0 <= i < |c.schedule| && Trading(c.schedule[i], t)
  }

  ghost predicate SomeLunch(c: Calendar, t: int) {
    exists i :: 0 <= i < |c.schedule| && AtLunch(c.schedule[i], t)
  }

  ghost predicate SomeWindow(c: Calendar, t: int, w: Window) {
    c.extended && exists i :: 0 <= i < |c.schedule| && InWindow(c.schedule[i], t, w)
  }

  ghost predicate HasSession(c: Calendar, date: int) {
    exists i :: 0 <= i < |c.schedule| && c.schedule[i].date == date
  }

  /** The state at t, by looking at every session of the schedule. */
  ghost predicate InState(c: Calendar, t: int, state: State) {
    match state
    case Open => SomeTrading(c, t)
    case Lunch => SomeLunch(c, t)
    case Extended => SomeWindow(c, t, Pre) || SomeWindow(c, t, Post)
    case Closed => HasSession(c, c.localDate(t)) && !SomeTrading(c, t) && !SomeLunch(c, t)
                   && !SomeWindow(c, t, Pre) && !SomeWindow(c, t, Post)
    case Holiday => !HasSession(c, c.localDate(t))
  }

  // ---- refinement ---------------------------------------------------------------------

  lemma {:induction false} FirstFromSorted(c: Calendar, date: int)
    requires WellFormed(c)
    ensures var i := FirstFrom(c.schedule, date);
      (forall j | i <= j < |c.schedule| :: c.schedule[j].date >= date)
      && (forall j | i < j < |c.schedule| :: c.schedule[j].date > date)
  {
    var i := FirstFrom(c.schedule, date);
    forall j | i < j < |c.schedule| ensures c.schedule[j].date > date {
      assert c.schedule[i].date < c.schedule[j].date;
    }
  }

  lemma SessionOnIsTodays(c: Calendar, date: int, i: nat)
    requires WellFormed(c) && i < |c.schedule| && c.schedule[i].date == date
    ensures SessionOn(c, date) == Some(c.schedule[i])
  {
    FirstFromSorted(c, date);
    var f := FirstFrom(c.schedule, date);
    assert f == i;
  }

  /** Only today's session can be trading, at lunch or in an extended window. */
  lemma OnlyTodaysSession(c: Calendar, t: int, i: nat)
    requires WellFormed(c) && i < |c.schedule|
    requires var s := c.schedule[i];
      s.open <= t < s.close || (c.extended && (InWindow(s, t, Pre) || InWindow(s, t, Post)))
    ensures SessionOn(c, c.localDate(t)) == Some(c.schedule[i])
  {
    var s := c.schedule[i];
    assert SessionOk(c, s);
    assert c.localDate(t) == s.date by {
      if s.open <= t < s.close {
        assert c.localDate(s.open) <= c.localDate(t) <= c.localDate(s.close);
      } else {
        assert c.localDate(s.open - PRE_MARKET) <= c.localDate(t) <= c.localDate(s.close + POST_MARKET);
      }
    }
    SessionOnIsTodays(c, s.date, i);
  }

  /** The after-hours check on the previous session can never fire. */
  lemma PreviousWindowUnreachable(c: Calendar, t: int)
    requires WellFormed(c) && c.extended
    ensures match PreviousSessionClose(c, c.localDate(t)) case None => true case Some(p) => t >= p + POST_MARKET
  {
    var i := FirstFrom(c.schedule, c.localDate(t));
    if i > 0 {
      var s := c.schedule[i - 1];
      assert SessionOk(c, s) && s.date < c.localDate(t);
      assert t < s.close + POST_MARKET ==> c.localDate(t) <= c.localDate(s.close + POST_MARKET);
    }
  }

  /** The quantifiers of the specification come down to today's session. */
  lemma TodayDecides(c: Calendar, t: int)
    requires WellFormed(c)
    ensures match SessionOn(c, c.localDate(t))
            case None => !SomeTrading(c, t) && !SomeLunch(c, t) && !SomeWindow(c, t, Pre) && !SomeWindow(c, t, Post)
                         && !HasSession(c, c.localDate(t))
            case Some(s) =>
              && (SomeTrading(c, t) <==> Trading(s, t))
              && (SomeLunch(c, t) <==> AtLunch(s, t))
              && (SomeWindow(c, t, Pre) <==> c.extended && InWindow(s, t, Pre))
              && (SomeWindow(c, t, Post) <==> c.extended && InWindow(s, t, Post))
              && HasSession(c, c.localDate(t)) && SessionOk(c, s)
  {
    var date := c.localDate(t);
    var f := FirstFrom(c.schedule, date);
    forall i | 0 <= i < |c.schedule|
      ensures Trading(c.schedule[i], t) || AtLunch(c.schedule[i], t) ==> SessionOn(c, date) == Some(c.schedule[i])
      ensures c.extended && (InWindow(c.schedule[i], t, Pre) || InWindow(c.schedule[i], t, Post)) ==>
        SessionOn(c, date) == Some(c.schedule[i])
      ensures c.schedule[i].date == date ==> SessionOn(c, date) == Some(c.schedule[i])
    {
      TodayDecidesOne(c, t, i);
    }
    if SessionOn(c, date).Some? {
      assert SessionOn(c, date) == Some(c.schedule[f]) && SessionOk(c, c.schedule[f]) && c.schedule[f].date == date;
    }
  }

  lemma TodayDecidesOne(c: Calendar, t: int, i: nat)
    requires WellFormed(c) && i < |c.schedule|
    ensures var today := SessionOn(c, c.localDate(t)); var s := c.schedule[i];
      (Trading(s, t) || AtLunch(s, t) ==> today == Some(s))
      && (c.extended && (InWindow(s, t, Pre) || InWindow(s, t, Post)) ==> today == Some(s))
      && (s.date == c.localDate(t) ==> today == Some(s))
  {
    var s := c.schedule[i];
    assert SessionOk(c, s);
    if s.date == c.localDate(t) {
      SessionOnIsTodays(c, c.localDate(t), i);
    } else if s.open <= t < s.close || (c.extended && (InWindow(s, t, Pre) || InWindow(s, t, Post))) {
      OnlyTodaysSession(c, t, i);
    }
  }

  /** status() is the specification, in both directions, for every calendar and instant. */
  lemma StatusRefinesSchedule(c: Calendar, t: int)
    requires WellFormed(c)
    ensures forall state :: InState(c, t, state) <==> StatusAt(c, t).state == state
    ensures StatusAt(c, t).state == Extended ==>
      StatusAt(c, t).window.Some? && SomeWindow(c, t, StatusAt(c, t).window.value)
  {
    TodayDecides(c, t);
    if SessionOn(c, c.localDate(t)).Some? {
      SessionDayStatus(c, t, SessionOn(c, c.localDate(t)).value);
    }
  }

  /** On a session day the status is read off that session alone. */
  lemma SessionDayStatus(c: Calendar, t: int, s: Session)
    requires WellFormed(c) && SessionOn(c, c.localDate(t)) == Some(s) && SessionOk(c, s)
    ensures var st := StatusAt(c, t);
      st.state == (if Trading(s, t) then Open
                   else if AtLunch(s, t) then Lunch
                   else if c.extended && (InWindow(s, t, Pre) || InWindow(s, t, Post)) then Extended
                   else Closed)
      && (st.state == Extended ==> st.window.Some? && InWindow(s, t, st.window.value))
  {
    if c.extended {
      PreviousWindowUnreachable(c, t);
    }
  }

  // ---- the advertised transition ------------------------------------------------------

  lemma SameDay(c: Calendar, s: Session, t: int)
    requires WellFormed(c) && SessionOk(c, s)
    requires s.open <= t <= s.close || (c.extended && s.open - PRE_MARKET <= t <= s.close + POST_MARKET)
    ensures c.localDate(t) == s.date
  {
    if s.open <= t <= s.close {
      assert c.localDate(s.open) <= c.localDate(t) <= c.localDate(s.close);
    } else {
      assert c.localDate(s.open - PRE_MARKET) <= c.localDate(t) <= c.localDate(s.close + POST_MARKET);
    }
  }

  predicate Active(st: Status) { st.state == Open || st.state == Lunch || st.state == Extended }

  /** The active status the day's own session gives an instant, if any. */
  function TodaysActivity(extended: bool, s: Session, t: int): Option<Status> {
    if AtLunch(s, t) then Some(Status(Lunch, None, Some(s.lunch.value.end)))
    else if Trading(s, t) then
      Some(Status(Open, None, Some(if s.lunch.Some? && t < s.lunch.value.start then s.lunch.value.start else s.close)))
    else if extended && InWindow(s, t, Pre) then Some(Status(Extended, Some(Pre), Some(s.open)))
    else if extended && InWindow(s, t, Post) then Some(Status(Extended, Some(Post), Some(s.close + POST_MARKET)))
    else None
  }

  lemma ActiveIsTodays(c: Calendar, t: int)
    requires WellFormed(c)
    ensures var st, today := StatusAt(c, t), SessionOn(c, c.localDate(t));
      && (Active(st) ==> today.Some?)
      && (today.Some? ==> SessionOk(c, today.value)
                          && TodaysActivity(c.extended, today.value, t) == if Active(st) then Some(st) else None)
  {
    var i := FirstFrom(c.schedule, c.localDate(t));
    if SessionOn(c, c.localDate(t)).Some? {
      assert SessionOk(c, c.schedule[i]);
      if c.extended {
        PreviousWindowUnreachable(c, t);
      }
      ActivityOnSessionDay(c, t, c.schedule[i]);
    }
  }

  predicate PreviousWindowOver(c: Calendar, t: int) {
    match PreviousSessionClose(c, c.localDate(t)) case None => true case Some(p) => t >= p + POST_MARKET
  }

  lemma ActivityOnSessionDay(c: Calendar, t: int, s: Session)
    requires SessionOn(c, c.localDate(t)) == Some(s) && s.open < s.close
    requires s.lunch.Some? ==> s.open < s.lunch.value.start < s.lunch.value.end <= s.close
    requires c.extended ==> PreviousWindowOver(c, t)
    ensures var st := StatusAt(c, t); TodaysActivity(c.extended, s, t) == if Active(st) then Some(st) else None
  {
  }

  lemma ActivityLasts(c: Calendar, s: Session, t: int, u: int)
    requires SessionOk(c, s) && TodaysActivity(c.extended, s, t).Some?
    ensures var st := TodaysActivity(c.extended, s, t).value;
      && st.transition.Some? && t < st.transition.value
      && (st.state == Extended ==>
            c.extended && s.open - PRE_MARKET <= t && st.transition.value <= s.close + POST_MARKET)
      && (st.state != Extended ==> s.open <= t && st.transition.value <= s.close)
      && (t <= u < st.transition.value ==> TodaysActivity(c.extended, s, u) == Some(st))
      && (var next := TodaysActivity(c.extended, s, st.transition.value); next.Some? ==> next.value.state != st.state)
  {
  }

  /** OPEN, LUNCH and EXTENDED last exactly until the advertised transition. */
  lemma ActiveStateLastsUntilTransition(c: Calendar, t: int, u: int)
    requires WellFormed(c) && Active(StatusAt(c, t))
    ensures var st := StatusAt(c, t);
      && st.transition.Some? && t < st.transition.value
      && (t <= u < st.transition.value ==> StatusAt(c, u) == st)
      && StatusAt(c, st.transition.value).state != st.state
  {
    ActiveIsTodays(c, t);
    var s := SessionOn(c, c.localDate(t)).value;
    ActivityLasts(c, s, t, u);
    var end := StatusAt(c, t).transition.value;
    SameDay(c, s, t);
    SameDay(c, s, end);
    ActiveIsTodays(c, end);
    if t <= u < end {
      SameDay(c, s, u);
      ActiveIsTodays(c, u);
    }
  }

  /** US venues are EXTENDED from five and a half hours before the open to four hours after the
      close, with the session between, and not a microsecond longer. */
  lemma ExtendedHours(c: Calendar, i: nat)
    requires WellFormed(c) && c.extended && i < |c.schedule|
    ensures var s := c.schedule[i]; var early, late := s.open - 330 * MINUTE, s.close + 240 * MINUTE;
      && StatusAt(c, early) == Status(Extended, Some(Pre), Some(s.open))
      && StatusAt(c, s.close) == Status(Extended, Some(Post), Some(late))
      && StatusAt(c, early - 1).state != Extended && StatusAt(c, late).state != Extended
  {
    var s := c.schedule[i];
    assert SessionOk(c, s);
    SessionOnIsTodays(c, s.date, i);
    ActiveIsTodays(c, s.open - 330 * MINUTE);
    ActiveIsTodays(c, s.close);
    NotExtendedOutside(c, i, s.open - 330 * MINUTE - 1);
    NotExtendedOutside(c, i, s.close + 240 * MINUTE);
  }

  predicate JustOutside(s: Session, t: int) { t == s.open - PRE_MARKET - 1 || t == s.close + POST_MARKET }

  lemma NotExtendedOutside(c: Calendar, i: nat, t: int)
    requires WellFormed(c) && c.extended && i < |c.schedule| && JustOutside(c.schedule[i], t)
    ensures StatusAt(c, t).state != Extended
  {
    StatusRefinesSchedule(c, t);
    forall j | 0 <= j < |c.schedule| ensures !InWindow(c.schedule[j], t, Pre) && !InWindow(c.schedule[j], t, Post) {
      OutsideEveryWindow(c, i, j, t);
    }
    assert !InState(c, t, Extended);
  }

  lemma OutsideEveryWindow(c: Calendar, i: nat, j: nat, t: int)
    requires WellFormed(c) && c.extended && i < |c.schedule| && j < |c.schedule| && JustOutside(c.schedule[i], t)
    ensures !InWindow(c.schedule[j], t, Pre) && !InWindow(c.schedule[j], t, Post)
  {
    assert SessionOk(c, c.schedule[i]) && SessionOk(c, c.schedule[j]);
    if i < j {
      WindowsApart(c, i, j);
    } else if j < i {
      WindowsApart(c, j, i);
    }
  }

  /** The extended hours of two sessions do not touch. */
  lemma WindowsApart(c: Calendar, i: nat, j: nat)
    requires WellFormed(c) && c.extended && i < j < |c.schedule|
    ensures c.schedule[i].close + POST_MARKET < c.schedule[j].open - PRE_MARKET
  {
    assert SessionOk(c, c.schedule[i]) && SessionOk(c, c.schedule[j]);
    assert c.localDate(c.schedule[i].close + POST_MARKET) < c.localDate(c.schedule[j].open - PRE_MARKET);
  }

  /** The sessions that open after t, when the venue is closed at t, start at this index. */
  function NextIndex(c: Calendar, t: int): nat {
    var f := FirstFrom(c.schedule, c.localDate(t));
    if f < |c.schedule| && c.schedule[f].date == c.localDate(t) && t >= c.schedule[f].open then f + 1 else f
  }

  lemma NextIndexSplits(c: Calendar, t: int, i: nat)
    requires WellFormed(c) && i < |c.schedule|
    ensures c.schedule[i].open > t <==> i >= NextIndex(c, t)
  {
    var s := c.schedule[i];
    FirstFromSorted(c, c.localDate(t));
    assert SessionOk(c, s);
    assert s.open <= t ==> s.date <= c.localDate(t);
    assert s.open > t ==> s.date >= c.localDate(t);
  }

  /** CLOSED and HOLIDAY advertise the earliest later session open, at which the venue is OPEN
      and before which it neither trades nor breaks for lunch; or nothing when no session follows. */
  lemma ClosedStateAdvertisesNextOpen(c: Calendar, t: int)
    requires WellFormed(c)
    requires StatusAt(c, t).state == Closed || StatusAt(c, t).state == Holiday
    ensures match StatusAt(c, t).transition
            case None => forall i | 0 <= i < |c.schedule| :: c.schedule[i].open <= t
            case Some(next) =>
              && t < next && StatusAt(c, next).state == Open
              && (exists i :: 0 <= i < |c.schedule| && c.schedule[i].open == next)
              && (forall i | 0 <= i < |c.schedule| && c.schedule[i].open > t :: c.schedule[i].open >= next)
              && (forall u | t <= u < next :: StatusAt(c, u).state != Open && StatusAt(c, u).state != Lunch)
  {
    var n := NextIndex(c, t);
    NextIndexIsEarliest(c, t);
    ClosedAdvertises(c, t);
    if n < |c.schedule| {
      var next := c.schedule[n].open;
      OpenAtOpen(c, n);
      forall u | t <= u < next ensures StatusAt(c, u).state != Open && StatusAt(c, u).state != Lunch {
        NoTradingBetween(c, t, u, next);
      }
    }
  }

  lemma NextIndexIsEarliest(c: Calendar, t: int)
    requires WellFormed(c)
    ensures var n := NextIndex(c, t);
      && (forall i | 0 <= i < |c.schedule| :: c.schedule[i].open > t <==> i >= n)
      && (n < |c.schedule| ==>
            forall i | 0 <= i < |c.schedule| && c.schedule[i].open > t :: c.schedule[i].open >= c.schedule[n].open)
  {
    var n := NextIndex(c, t);
    forall i | 0 <= i < |c.schedule| ensures c.schedule[i].open > t <==> i >= n {
      NextIndexSplits(c, t, i);
    }
    if n < |c.schedule| {
      forall i | 0 <= i < |c.schedule| && c.schedule[i].open > t ensures c.schedule[i].open >= c.schedule[n].open {
        LaterOpensLater(c, n, i);
      }
    }
  }

  lemma ClosedAdvertises(c: Calendar, t: int)
    requires WellFormed(c)
    requires StatusAt(c, t).state == Closed || StatusAt(c, t).state == Holiday
    ensures var n := NextIndex(c, t);
      StatusAt(c, t).transition == if n < |c.schedule| then Some(c.schedule[n].open) else None
  {
    if SessionOn(c, c.localDate(t)).Some? {
      ClosedOnSessionDay(c, t, SessionOn(c, c.localDate(t)).value);
    }
  }

  lemma OpenAtOpen(c: Calendar, n: nat)
    requires WellFormed(c) && n < |c.schedule|
    ensures StatusAt(c, c.schedule[n].open).state == Open
  {
    assert SessionOk(c, c.schedule[n]);
    SessionOnIsTodays(c, c.schedule[n].date, n);
  }

  lemma LaterOpensLater(c: Calendar, i: nat, j: nat)
    requires WellFormed(c) && i <= j < |c.schedule|
    ensures c.schedule[i].open <= c.schedule[j].open && c.schedule[i].close <= c.schedule[j].close
    ensures i < j ==> c.schedule[i].close < c.schedule[j].open
  {
    assert SessionOk(c, c.schedule[i]) && SessionOk(c, c.schedule[j]);
    if i < j {
      assert c.localDate(c.schedule[i].close) < c.localDate(c.schedule[j].open);
    }
  }

  lemma NoTradingBetween(c: Calendar, t: int, u: int, next: int)
    requires WellFormed(c) && t <= u < next
    requires StatusAt(c, t).state == Closed || StatusAt(c, t).state == Holiday
    requires forall i | 0 <= i < |c.schedule| && c.schedule[i].open > t :: c.schedule[i].open >= next
    ensures StatusAt(c, u).state != Open && StatusAt(c, u).state != Lunch
  {
    StatusRefinesSchedule(c, t);
    StatusRefinesSchedule(c, u);
    forall i | 0 <= i < |c.schedule| ensures !Trading(c.schedule[i], u) && !AtLunch(c.schedule[i], u) {
      var s := c.schedule[i];
      assert SessionOk(c, s);
      if s.open <= u < s.close {
        assert s.open <= t < s.close;
        assert InState(c, t, if AtLunch(s, t) then Lunch else Open);
      }
    }
    assert !InState(c, u, Open) && !InState(c, u, Lunch);
  }

  // ---- how exact the countdown is while closed ----------------------------------------

  /** Local dates do not skip a day. */
  ghost predicate Contiguous(c: Calendar) {
    forall t :: c.localDate(t + 1) <= c.localDate(t) + 1
  }

  ghost predicate StateHolds(c: Calendar, t: int, end: int) {
    forall u | t <= u < end :: StatusAt(c, u).state == StatusAt(c, t).state
  }

  /** Read off the schedule: before the open of a session day; after its close with the next
      session on the next date; on a day without a session when the next one opens at the first
      instant of its date. */
  predicate CountdownIsExact(c: Calendar, t: int)
    requires NextIndex(c, t) < |c.schedule|
  {
    var next := c.schedule[NextIndex(c, t)];
    match SessionOn(c, c.localDate(t))
    case Some(s) => !c.extended && (t < s.open || next.date == s.date + 1)
    case None => c.localDate(next.open - 1) < next.date
  }

  lemma {:induction false} SomeInstantOnDay(c: Calendar, t: int, end: int, day: int) returns (u: int)
    requires WellFormed(c) && Contiguous(c) && t <= end && c.localDate(t) < day <= c.localDate(end)
    ensures t < u <= end && c.localDate(u) == day
    decreases end - t
  {
    if c.localDate(t + 1) == day {
      u := t + 1;
    } else {
      u := SomeInstantOnDay(c, t + 1, end, day);
    }
  }

  lemma NoSessionBetween(c: Calendar, t: int, date: int)
    requires WellFormed(c) && c.localDate(t) <= date
    requires c.localDate(t) == date ==> SessionOn(c, date).None?
    requires NextIndex(c, t) < |c.schedule| ==> date < c.schedule[NextIndex(c, t)].date
    ensures SessionOn(c, date).None?
  {
    FirstFromSorted(c, c.localDate(t));
    FirstFromSorted(c, date);
  }

  /** The MarketStatus promise that the transition is when the state changes fails while the
      venue is closed; it holds exactly under CountdownIsExact. */
  lemma ClosedCountdown(c: Calendar, t: int)
    requires WellFormed(c) && Contiguous(c) && NextIndex(c, t) < |c.schedule|
    requires StatusAt(c, t).state == Closed || StatusAt(c, t).state == Holiday
    ensures StatusAt(c, t).transition.Some?
    ensures StateHolds(c, t, StatusAt(c, t).transition.value) <==> CountdownIsExact(c, t)
  {
    ClosedTransition(c, t);
    var n := NextIndex(c, t);
    assert SessionOk(c, c.schedule[n]);
    match SessionOn(c, c.localDate(t))
    case None => HolidayCountdown(c, t, n);
    case Some(s) =>
      if c.extended {
        ExtendedCountdown(c, t, n);
      } else if t < s.open {
        BeforeOpenCountdown(c, t);
      } else {
        AfterCloseCountdown(c, t, n);
      }
  }

  const DAY := 1440 * MINUTE

  /** A session from 09:30 to 16:00 of that day. */
  function Weekday(day: int): Session {
    Session(day, day * DAY + 570 * MINUTE, day * DAY + 960 * MINUTE, None)
  }

  /** A Friday and the Monday after it. */
  function Weekend(): Calendar { Calendar(t => t / DAY, [Weekday(4), Weekday(7)], false) }

  lemma DatesAdvance(t: int, u: int)
    requires t <= u
    ensures t / DAY <= u / DAY && (t + 1) / DAY <= t / DAY + 1
  {
  }

  lemma WeekendIsWellFormed()
    ensures WellFormed(Weekend()) && Contiguous(Weekend())
  {
    var c := Weekend();
    forall t: int, u: int | t <= u ensures c.localDate(t) <= c.localDate(u) {
      DatesAdvance(t, u);
    }
    forall t: int ensures c.localDate(t + 1) <= c.localDate(t) + 1 {
      DatesAdvance(t, t);
    }
    assert SessionOk(c, Weekday(4)) && SessionOk(c, Weekday(7));
  }

  /** The promise fails on a Friday evening: the state is CLOSED, and HOLIDAY the day after,
      before the open it counts down to. */
  lemma WeekendCountdown()
    ensures WellFormed(Weekend()) && Contiguous(Weekend())
    ensures var t := 4 * DAY + 1000 * MINUTE;
      && StatusAt(Weekend(), t) == Status(Closed, None, Some(Weekday(7).open))
      && StatusAt(Weekend(), t + DAY).state == Holiday && t + DAY < Weekday(7).open
      && !StateHolds(Weekend(), t, Weekday(7).open)
  {
    WeekendIsWellFormed();
    var t := 4 * DAY + 1000 * MINUTE;
    var c := Weekend();
    assert c.localDate(t) == 4 && c.localDate(t + DAY) == 5;
    assert c.schedule[0] == Weekday(4) && c.schedule[1] == Weekday(7);
    assert FirstFrom(c.schedule, 4) == 0 && FirstFrom(c.schedule, 5) == 1;
  }

  lemma ClosedTransition(c: Calendar, t: int)
    requires WellFormed(c)
    requires StatusAt(c, t).state == Closed || StatusAt(c, t).state == Holiday
    requires NextIndex(c, t) < |c.schedule|
    ensures var n := NextIndex(c, t);
      c.schedule[n].open > t && StatusAt(c, t).transition == Some(c.schedule[n].open)
    ensures match SessionOn(c, c.localDate(t))
            case None => true
            case Some(s) => StatusAt(c, t).state == Closed && s.date == c.localDate(t)
                            && (t >= s.close || (t < s.open && s == c.schedule[NextIndex(c, t)]))
  {
    NextIndexSplits(c, t, NextIndex(c, t));
    if SessionOn(c, c.localDate(t)).Some? {
      ClosedOnSessionDay(c, t, SessionOn(c, c.localDate(t)).value);
    }
  }

  lemma ClosedOnSessionDay(c: Calendar, t: int, s: Session)
    requires WellFormed(c) && SessionOn(c, c.localDate(t)) == Some(s)
    requires StatusAt(c, t).state == Closed || StatusAt(c, t).state == Holiday
    ensures StatusAt(c, t).state == Closed && s.date == c.localDate(t) && (t >= s.close || t < s.open)
    ensures t < s.open ==> StatusAt(c, t).transition == Some(s.open)
    ensures t >= s.close ==> StatusAt(c, t).transition == NextSessionOpen(c, s.date)
    ensures s.open < s.close
  {
    assert SessionOk(c, s);
    if c.extended {
      PreviousWindowUnreachable(c, t);
    }
  }

  lemma BeforeOpenCountdown(c: Calendar, t: int)
    requires WellFormed(c) && !c.extended
    requires var today := SessionOn(c, c.localDate(t)); today.Some? && t < today.value.open
    ensures StateHolds(c, t, SessionOn(c, c.localDate(t)).value.open)
  {
    var s := SessionOn(c, c.localDate(t)).value;
    TodayDecides(c, t);
    forall u | t <= u < s.open ensures StatusAt(c, u).state == Closed {
      assert c.localDate(t) <= c.localDate(u) <= c.localDate(s.open);
    }
  }

  lemma ExtendedCountdown(c: Calendar, t: int, n: nat)
    requires WellFormed(c) && n == NextIndex(c, t) < |c.schedule| && c.extended
    requires StatusAt(c, t).state == Closed && c.schedule[n].open > t
    ensures !StateHolds(c, t, c.schedule[n].open)
  {
    var s := c.schedule[n];
    assert SessionOk(c, s);
    SessionOnIsTodays(c, s.date, n);
    var u := s.open - PRE_MARKET;
    StatusRefinesSchedule(c, u);
    assert InWindow(s, u, Pre);
    assert StatusAt(c, u).state == Extended;
    StatusRefinesSchedule(c, t);
    assert u <= t ==> InWindow(s, t, Pre);
    assert t <= u < s.open;
  }

  lemma AfterCloseCountdown(c: Calendar, t: int, n: nat)
    requires WellFormed(c) && Contiguous(c) && n == NextIndex(c, t) < |c.schedule| && !c.extended
    requires var today := SessionOn(c, c.localDate(t)); today.Some? && t >= today.value.close
    requires c.schedule[n].open > t
    ensures StateHolds(c, t, c.schedule[n].open) <==> c.schedule[n].date == c.localDate(t) + 1
  {
    var d := c.localDate(t);
    var s := c.schedule[n];
    assert SessionOk(c, s);
    var f := FirstFrom(c.schedule, d);
    assert n == f + 1 && c.schedule[f].date == d < s.date;
    if s.date == d + 1 {
      ClosedOvernight(c, t, n);
    } else {
      var u := SomeInstantOnDay(c, t, s.open, d + 1);
      NoSessionBetween(c, t, d + 1);
      assert StatusAt(c, u).state == Holiday && t <= u < s.open;
    }
  }

  lemma ClosedOutside(c: Calendar, u: int, s: Session)
    requires !c.extended && SessionOn(c, c.localDate(u)) == Some(s) && (u < s.open || u >= s.close)
    ensures StatusAt(c, u).state == Closed
  {
  }

  lemma ClosedOvernight(c: Calendar, t: int, n: nat)
    requires WellFormed(c) && n < |c.schedule| && !c.extended && c.schedule[n].date == c.localDate(t) + 1
    requires var today := SessionOn(c, c.localDate(t)); today.Some? && t >= today.value.close
    ensures StateHolds(c, t, c.schedule[n].open)
  {
    var d := c.localDate(t);
    var s := c.schedule[n];
    assert SessionOk(c, s);
    SessionOnIsTodays(c, s.date, n);
    forall u | t <= u < s.open ensures StatusAt(c, u).state == Closed {
      assert d <= c.localDate(u) <= c.localDate(s.open);
      ClosedOutside(c, u, SessionOn(c, c.localDate(u)).value);
    }
  }

  lemma HolidayCountdown(c: Calendar, t: int, n: nat)
    requires WellFormed(c) && n == NextIndex(c, t) < |c.schedule|
    requires SessionOn(c, c.localDate(t)).None? && c.schedule[n].open > t
    ensures StateHolds(c, t, c.schedule[n].open)
       <==> c.localDate(c.schedule[n].open - 1) < c.localDate(c.schedule[n].open)
  {
    var s := c.schedule[n];
    assert SessionOk(c, s);
    SessionOnIsTodays(c, s.date, n);
    assert c.localDate(s.open - 1) <= c.localDate(s.open);
    if c.localDate(s.open - 1) < c.localDate(s.open) {
      forall u | t <= u < s.open ensures StatusAt(c, u).state == Holiday {
        assert c.localDate(t) <= c.localDate(u) <= c.localDate(s.open - 1);
        NoSessionBetween(c, t, c.localDate(u));
      }
    } else {
      assert t <= s.open - 1;
      assert StatusAt(c, s.open - 1).state != Holiday;
    }
  }

  // ---- next_close_at ------------------------------------------------------------------

  ghost predicate ClosesAt(c: Calendar, t: int) {
    exists i :: 0 <= i < |c.schedule| && c.schedule[i].close == t
  }

  ghost predicate ClosesInWindow(c: Calendar, now: int) {
    exists i :: 0 <= i < |c.schedule| && c.schedule[i].close > now
                && c.localDate(now) <= c.schedule[i].date <= c.localDate(now) + WINDOW_DAYS
  }

  /** The least close strictly after `now` over the whole schedule, found exactly when some
      close falls in the window of dates that is scanned. */
  method NextCloseAt(c: Calendar, now: int) returns (r: Option<int>)
    requires WellFormed(c)
    ensures r.Some? <==> ClosesInWindow(c, now)
    ensures r.Some? ==> r.value > now && ClosesAt(c, r.value)
    ensures r.Some? ==> forall i | 0 <= i < |c.schedule| && c.schedule[i].close > now :: c.schedule[i].close >= r.value
  {
    var date := c.localDate(now);
    var i := FirstFrom(c.schedule, date);
    EarlierSessionsAreOver(c, now, i);
    FirstFromSorted(c, date);
    while i < |c.schedule| && c.schedule[i].date <= date + WINDOW_DAYS
      invariant i <= |c.schedule|
      invariant forall j | 0 <= j < i :: c.schedule[j].close <= now
      invariant forall j | i <= j < |c.schedule| :: c.schedule[j].date >= date
    {
      if c.schedule[i].close > now {
        LaterCloses(c, now, i);
        return Some(c.schedule[i].close);
      }
      i := i + 1;
    }
    NoneInWindow(c, now, i);
    return None;
  }

  lemma EarlierSessionsAreOver(c: Calendar, now: int, i: nat)
    requires WellFormed(c) && i == FirstFrom(c.schedule, c.localDate(now))
    ensures forall j | 0 <= j < i :: c.schedule[j].close <= now
  {
    forall j | 0 <= j < i ensures c.schedule[j].close <= now {
      assert SessionOk(c, c.schedule[j]);
      assert c.localDate(c.schedule[j].close) < c.localDate(now);
    }
  }

  lemma LaterCloses(c: Calendar, now: int, i: nat)
    requires WellFormed(c) && i < |c.schedule| && forall j | 0 <= j < i :: c.schedule[j].close <= now
    ensures forall j | 0 <= j < |c.schedule| && c.schedule[j].close > now :: c.schedule[j].close >= c.schedule[i].close
  {
    forall j | 0 <= j < |c.schedule| && c.schedule[j].close > now ensures c.schedule[j].close >= c.schedule[i].close {
      LaterOpensLater(c, i, j);
    }
  }

  lemma NoneInWindow(c: Calendar, now: int, i: nat)
    requires WellFormed(c) && i <= |c.schedule| && forall j | 0 <= j < i :: c.schedule[j].close <= now
    requires i < |c.schedule| ==> c.schedule[i].date > c.localDate(now) + WINDOW_DAYS
    ensures !ClosesInWindow(c, now)
  {
    forall j | i <= j < |c.schedule| ensures c.schedule[j].date > c.localDate(now) + WINDOW_DAYS {
      assert i < j ==> c.schedule[i].date < c.schedule[j].date;
    }
  }
}
