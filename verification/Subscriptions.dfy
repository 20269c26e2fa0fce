// What the recurring settings of an audit are set to (audit/scheduling.py,
// audit/schedules.py, audit/improvement_jobs.py, application/subscriptions.py), and why
// repeating a request is safe.
module Subscriptions {
  import opened Wrappers
  import opened Batch

  // Python's `or` on optional text: an empty text counts as missing.
  function TextOr(a: Option<string>, b: Option<string>): Option<string> {
    if a.Some? && a.value != "" then a else b
  }

  // ------------------------------------------------------------------ clock times

  datatype TimeSource = AutoTime | UserTime
  datatype TimeSelection = TimeSelection(time: string, source: TimeSource)

  const AUTO := "auto"

  predicate IsDigit(c: char) {
    '0' <= c <= '9'
  }

  predicate AllDigits(s: string) {
    s != "" && forall c <- s :: IsDigit(c)
  }

  function NumberOf(s: string): nat
    requires forall c <- s :: IsDigit(c)
  {
    if s == "" then 0
    else
      assert IsDigit(s[|s| - 1]);
      10 * NumberOf(s[..|s| - 1]) + (s[|s| - 1] as int - '0' as int)
  }

  function Digit(n: nat): char
    requires n < 10
  {
    ('0' as int + n) as char
  }

  function TwoDigits(n: nat): (s: string)
    requires n < 100
  {
    [Digit(n / 10), Digit(n % 10)]
  }

  // Everything before and after the first colon, if there is one.
  function SplitAtColon(s: string): Option<(string, string)> {
    if s == "" then None
    else if s[0] == ':' then Some(("", s[1..]))
    else match SplitAtColon(s[1..])
      case None => None
      case Some(parts) => Some(([s[0]] + parts.0, parts.1))
  }

  // validate_schedule_time: HH:MM, zero-padded; None is the ValueError.
  function NormalTime(value: string): Option<string> {
    match SplitAtColon(value)
    case None => None
    case Some((hour, minute)) =>
      if !AllDigits(hour) || !AllDigits(minute) then None
      else if NumberOf(hour) > 23 || NumberOf(minute) > 59 then None
      else Some(TwoDigits(NumberOf(hour)) + ":" + TwoDigits(NumberOf(minute)))
  }

  lemma TwoDigitsRead(n: nat)
    requires n < 100
    ensures |TwoDigits(n)| == 2 && AllDigits(TwoDigits(n)) && NumberOf(TwoDigits(n)) == n
  {
    var s := TwoDigits(n);
    assert s[..1][..0] == "" && s[..1] == [s[0]];
    assert NumberOf(s[..1]) == n / 10;
  }

  lemma {:induction false} SplitJoins(left: string, right: string)
    requires ':' !in left
    ensures SplitAtColon(left + ":" + right) == Some((left, right))
  {
    var s := left + ":" + right;
    if left == "" {
      assert s[1..] == right;
    } else {
      assert s[1..] == left[1..] + ":" + right;
      SplitJoins(left[1..], right);
      assert left == [left[0]] + left[1..];
    }
  }

  // Normalising is idempotent, and a normalised time is never "auto".
  lemma NormalTimeIsFixed(value: string)
    requires NormalTime(value).Some?
    ensures NormalTime(NormalTime(value).value) == NormalTime(value)
    ensures |NormalTime(value).value| == 5 && NormalTime(value).value != AUTO
  {
    var parts := SplitAtColon(value).value;
    var hour, minute := NumberOf(parts.0), NumberOf(parts.1);
    TwoDigitsRead(hour);
    TwoDigitsRead(minute);
    SplitJoins(TwoDigits(hour), TwoDigits(minute));
    assert |AUTO| == 4;
  }

  // A time is an hour and a minute in digits, around a colon.
  lemma {:induction false} SplitIsExact(s: string)
    ensures SplitAtColon(s).Some? ==>
              s == SplitAtColon(s).value.0 + ":" + SplitAtColon(s).value.1 && ':' !in SplitAtColon(s).value.0
    ensures SplitAtColon(s).None? ==> ':' !in s
  {
    if s != "" && s[0] != ':' {
      SplitIsExact(s[1..]);
      assert s == [s[0]] + s[1..];
    }
  }

  lemma {:induction false} DigitsHaveNoColon(s: string)
    requires forall c <- s :: IsDigit(c)
    ensures ':' !in s
  {
  }

  // An hour and a minute in digits are accepted exactly up to 23 and 59, and written as two
  // digits each; nothing else is accepted.
  lemma NormalTimeIsExact(hour: string, minute: string)
    requires AllDigits(hour) && AllDigits(minute)
    ensures NormalTime(hour + ":" + minute).Some? <==> NumberOf(hour) <= 23 && NumberOf(minute) <= 59
    ensures NormalTime(hour + ":" + minute).Some? ==>
              var time := NormalTime(hour + ":" + minute).value;
              && |time| == 5 && time[2] == ':'
              && time[0] as int == '0' as int + NumberOf(hour) / 10
              && time[1] as int == '0' as int + NumberOf(hour) % 10
              && time[3] as int == '0' as int + NumberOf(minute) / 10
              && time[4] as int == '0' as int + NumberOf(minute) % 10
  {
    SplitJoins(hour, minute);
  }

  lemma OnlyTimesAreAccepted(value: string)
    requires NormalTime(value).Some?
    ensures exists hour, minute :: value == hour + ":" + minute && AllDigits(hour) && AllDigits(minute)
  {
    SplitIsExact(value);
    var parts := SplitAtColon(value).value;
    assert value == parts.0 + ":" + parts.1 && AllDigits(parts.0) && AllDigits(parts.1);
  }

  predicate TimeUpdateIsValid(value: Option<string>) {
    value.None? || value.value == AUTO || NormalTime(value.value).Some?
  }

  // select_schedule_time
  function SelectTime(requested: Option<string>, existingTime: Option<string>, existingSource: Option<TimeSource>,
                      autoDefault: string): TimeSelection
    requires TimeUpdateIsValid(requested)
  {
    if requested == Some(AUTO) then TimeSelection(autoDefault, AutoTime)
    else if requested.Some? then TimeSelection(NormalTime(requested.value).value, UserTime)
    else if existingSource == Some(UserTime) then TimeSelection(TextOr(existingTime, Some(autoDefault)).value, UserTime)
    else TimeSelection(autoDefault, AutoTime)
  }

  // select_preserved_auto_time
  function SelectPreservedTime(requested: Option<string>, existingTime: Option<string>,
                               existingSource: Option<TimeSource>,
                               autoDefault: string): TimeSelection
    requires TimeUpdateIsValid(requested)
  {
    if requested == Some(AUTO) then TimeSelection(TextOr(existingTime, Some(autoDefault)).value, AutoTime)
    else SelectTime(requested, existingTime, existingSource, autoDefault)
  }

  // Selecting again from what was selected changes nothing.
  lemma TimeSelectionIsStable(requested: Option<string>, time: Option<string>, source: Option<TimeSource>,
                              autoDefault: string)
    requires TimeUpdateIsValid(requested) && autoDefault != ""
    ensures var s := SelectTime(requested, time, source, autoDefault);
            s.time != "" && SelectTime(requested, Some(s.time), Some(s.source), autoDefault) == s
    ensures var s := SelectPreservedTime(requested, time, source, autoDefault);
            s.time != "" && SelectPreservedTime(requested, Some(s.time), Some(s.source), autoDefault) == s
  {
    if requested.Some? && requested.value != AUTO {
      NormalTimeIsFixed(requested.value);
    }
  }

  const CADENCES := {"daily", "workdays", "weekly-3x", "weekly-2x", "weekly", "monthly"}
  const WEEK_DAYS := {"mon", "tue", "wed", "thu", "fri", "sat", "sun"}
  const DEFAULT_WORKDAYS := ["mon", "tue", "wed", "thu", "fri"]

  predicate CadenceIsValid(value: Option<string>) {
    value.Some? ==> value.value in CADENCES
  }

  predicate Distinct(days: seq<string>) {
    forall i, j :: 0 <= i < j < |days| ==> days[i] != days[j]
  }

  predicate DaysAreValid(days: Option<seq<string>>) {
    days.Some? ==> days.value != [] && (forall d <- days.value :: d in WEEK_DAYS) && Distinct(days.value)
  }

  // -------------------------------------------------------------------- schedules

  datatype AuditSchedule = AuditSchedule(
    auditKey: string,
    enabled: bool,
    cadence: Option<string>,
    scheduleDay: Option<string>,
    dayOfMonth: Option<int>,
    time: Option<string>,
    source: Option<TimeSource>,
    timezone: Option<string>,
    windowDays: seq<string>,
    windowStart: Option<string>,
    windowEnd: Option<string>,
    windowMode: Option<string>)

  datatype ScheduleUpdate = ScheduleUpdate(
    enabled: Option<bool>,
    cadence: Option<string>,
    windowDays: Option<seq<string>>,
    time: Option<string>,
    timezone: Option<string>)

  // validate_schedule_update; an unknown timezone name is not part of this model.
  predicate ScheduleUpdateIsValid(u: ScheduleUpdate) {
    && !(u.enabled.None? && u.cadence.None? && u.windowDays.None? && u.time.None? && u.timezone.None?)
    && (u.windowDays.Some? ==> u.cadence.Some?) && DaysAreValid(u.windowDays)
    && CadenceIsValid(u.cadence) && TimeUpdateIsValid(u.time)
  }

  // plan_schedule_update
  function PlannedSchedule(existing: Option<AuditSchedule>, auditKey: string, u: ScheduleUpdate): Option<AuditSchedule>
    requires ScheduleUpdateIsValid(u)
  {
    if existing.None? && u.enabled != Some(true) then None
    else
      var e := if existing.Some? then existing.value
               else AuditSchedule("", false, None, None, Some(1), None, None, None, [], None, None, Some("anytime"));
      var selected := SelectTime(u.time, e.time, e.source, "00:00");
      Some(AuditSchedule(
        auditKey,
        if u.enabled.Some? then u.enabled.value else e.enabled,
        TextOr(u.cadence, TextOr(e.cadence, Some("workdays"))),
        e.scheduleDay,
        e.dayOfMonth,
        Some(selected.time),
        Some(selected.source),
        TextOr(u.timezone, TextOr(e.timezone, Some("UTC"))),
        if u.windowDays.Some? then u.windowDays.value else e.windowDays,
        e.windowStart,
        e.windowEnd,
        e.windowMode))
  }

  // auto_time
  function AutoTimed(existing: AuditSchedule): AuditSchedule {
    existing.(time := Some("00:00"), source := Some(AutoTime))
  }

  // The setting of one repository and audit.
  type SettingKey = (string, string)

  function ScheduleTarget(u: ScheduleUpdate): Planner<SettingKey, AuditSchedule>
    requires ScheduleUpdateIsValid(u)
  {
    (key: SettingKey, current: Option<AuditSchedule>) => PlannedSchedule(current, key.1, u)
  }

  function AutoTimeTarget(): Planner<SettingKey, AuditSchedule> {
    (key: SettingKey, current: Option<AuditSchedule>) => if current.None? then None else Some(AutoTimed(current.value))
  }

  // A planned schedule plans to itself, keeps what the request does not name, and is
  // withheld only when an unconfigured audit is not being enabled.
  lemma SchedulePlanIsIdempotent(existing: Option<AuditSchedule>, auditKey: string, u: ScheduleUpdate)
    requires ScheduleUpdateIsValid(u)
    ensures var planned := PlannedSchedule(existing, auditKey, u);
            && (planned.None? <==> existing.None? && u.enabled != Some(true))
            && (planned.Some? ==> PlannedSchedule(planned, auditKey, u) == planned)
            && (existing.Some? && u.enabled.None? ==> planned.value.enabled == existing.value.enabled)
            && (existing.Some? && u.windowDays.None? ==> planned.value.windowDays == existing.value.windowDays)
            && (existing.Some? && existing.value.source == Some(UserTime) && u.time.None?
                && TextOr(existing.value.time, None).Some? ==>
                  planned.value.time == existing.value.time)
  {
    var e := if existing.Some? then existing.value
             else AuditSchedule("", false, None, None, Some(1), None, None, None, [], None, None, Some("anytime"));
    TimeSelectionIsStable(u.time, e.time, e.source, "00:00");
  }

  predicate Named(text: Option<string>) {
    text.Some? && text.value != ""
  }

  // The requested time: one given as digits is the user's, "auto" asks for the service's.
  predicate TimeAsRequested(requested: Option<string>, time: Option<string>, source: Option<TimeSource>) {
    && (requested == Some("auto") ==> source == Some(AutoTime))
    && (requested.Some? && requested.value != "auto" ==>
          source == Some(UserTime) && time == NormalTime(requested.value))
  }

  // A schedule does what was asked, field by field: what the request names has the value
  // asked for, and what it does not name is as it was, or as new schedules begin.
  predicate ScheduleAsRequested(s: AuditSchedule, existing: Option<AuditSchedule>, auditKey: string,
                                u: ScheduleUpdate)
  {
    && s.auditKey == auditKey
    && (u.enabled.Some? ==> s.enabled == u.enabled.value)
    && (Named(u.cadence) ==> s.cadence == u.cadence)
    && (u.windowDays.Some? ==> s.windowDays == u.windowDays.value)
    && (Named(u.timezone) ==> s.timezone == u.timezone)
    && TimeAsRequested(u.time, s.time, s.source) && (u.time == Some("auto") ==> s.time == Some("00:00"))
    && match existing
       case Some(e) =>
         && (u.enabled.None? ==> s.enabled == e.enabled)
         && (!Named(u.cadence) ==> s.cadence == if Named(e.cadence) then e.cadence else Some("workdays"))
         && (u.windowDays.None? ==> s.windowDays == e.windowDays)
         && (!Named(u.timezone) ==> s.timezone == if Named(e.timezone) then e.timezone else Some("UTC"))
         && (u.time.None? && e.source == Some(UserTime) ==>
               s.source == e.source && s.time == if Named(e.time) then e.time else Some("00:00"))
         && (u.time.None? && e.source != Some(UserTime) ==> s.source == Some(AutoTime) && s.time == Some("00:00"))
         && s.scheduleDay == e.scheduleDay && s.dayOfMonth == e.dayOfMonth && s.windowMode == e.windowMode
         && s.windowStart == e.windowStart && s.windowEnd == e.windowEnd
       case None =>
         && u.enabled == Some(true)
         && (!Named(u.cadence) ==> s.cadence == Some("workdays")) && (u.windowDays.None? ==> s.windowDays == [])
         && (!Named(u.timezone) ==> s.timezone == Some("UTC"))
         && (u.time.None? ==> s.source == Some(AutoTime) && s.time == Some("00:00"))
         && s.scheduleDay.None? && s.dayOfMonth == Some(1) && s.windowMode == Some("anytime")
         && s.windowStart.None? && s.windowEnd.None?
  }

  lemma PlannedScheduleIsAsRequested(existing: Option<AuditSchedule>, auditKey: string, u: ScheduleUpdate)
    requires ScheduleUpdateIsValid(u)
    ensures var planned := PlannedSchedule(existing, auditKey, u);
            && (planned.None? <==> existing.None? && u.enabled != Some(true))
            && (planned.Some? ==> ScheduleAsRequested(planned.value, existing, auditKey, u))
  {
    hide NormalTime;
  }

  // Once a run of set_schedules completes, after any number of partial failures, every
  // setting named is as requested, judged by what it was before the first run; one that was
  // not configured is configured exactly when the request enables it, and no other changes.
  lemma SchedulesAreAsRequested(keys: seq<SettingKey>, store: map<SettingKey, AuditSchedule>, u: ScheduleUpdate,
                                cuts: seq<nat>, key: SettingKey)
    requires ScheduleUpdateIsValid(u)
    ensures var target := ScheduleTarget(u);
            var left := Interrupted(keys, store, target, cuts);
            var done := Settled(left, PlanOf(keys, left, target));
            && (key in done <==> key in store || (key in keys && u.enabled == Some(true)))
            && (key in keys && key in done ==>
                  ScheduleAsRequested(done[key], if key in store then Some(store[key]) else None, key.1, u))
            && (key !in keys && key in store ==> done[key] == store[key])
  {
    hide ScheduleUpdateIsValid, ScheduleAsRequested, PlannedSchedule, Interrupted, Settled, PlanOf;
    SchedulesConverge(keys, store, u, cuts);
    CompleteRun(keys, store, ScheduleTarget(u), key);
    PlannedScheduleIsAsRequested(Lookup(store, key), key.1, u);
  }

  lemma ScheduleTargetIsIdempotent(u: ScheduleUpdate)
    requires ScheduleUpdateIsValid(u)
    ensures Idempotent(ScheduleTarget(u)) && NeverUnconfigures(ScheduleTarget(u))
  {
    forall key: SettingKey, current: Option<AuditSchedule>
      ensures Stable(ScheduleTarget(u), key, current) && Configures(ScheduleTarget(u), key, current)
    {
      SchedulePlanIsIdempotent(current, key.1, u);
    }
  }

  // set_schedules over a store that reads back what was written: any number of partial
  // failures, with the failed write applied or not, then one completed run, leaves what
  // an uninterrupted run leaves, and the run after that has nothing to do.
  lemma SchedulesConverge(keys: seq<SettingKey>, store: map<SettingKey, AuditSchedule>, u: ScheduleUpdate,
                          cuts: seq<nat>)
    requires ScheduleUpdateIsValid(u)
    ensures var target := ScheduleTarget(u);
            var left := Interrupted(keys, store, target, cuts);
            var done := Settled(left, PlanOf(keys, left, target));
            && done == Settled(store, PlanOf(keys, store, target))
            && (forall d <- PlanOf(keys, done, target) :: d.Unchanged?)
  {
    hide ScheduleTarget, Interrupted, Settled, PlanOf;
    ScheduleTargetIsIdempotent(u);
    RetriesConverge(keys, store, ScheduleTarget(u), cuts);
    NothingLeftToChange(keys, store, ScheduleTarget(u));
  }

  // Setting every configured schedule to an automatic time converges the same way.
  lemma AutoTimesConverge(keys: seq<SettingKey>, store: map<SettingKey, AuditSchedule>, cuts: seq<nat>)
    ensures var target := AutoTimeTarget();
            var left := Interrupted(keys, store, target, cuts);
            var done := Settled(left, PlanOf(keys, left, target));
            && done == Settled(store, PlanOf(keys, store, target))
            && (forall d <- PlanOf(keys, done, target) :: d.Unchanged?)
  {
    AutoTimeIsIdempotent();
    hide AutoTimeTarget, Interrupted, Settled, PlanOf;
    RetriesConverge(keys, store, AutoTimeTarget(), cuts);
    NothingLeftToChange(keys, store, AutoTimeTarget());
  }

  // Once such a run completes, every configured schedule among the keys has the service's
  // time and is otherwise as it was, and none is configured that was not.
  lemma AutoTimesAreSet(keys: seq<SettingKey>, store: map<SettingKey, AuditSchedule>, cuts: seq<nat>, key: SettingKey)
    ensures var target := AutoTimeTarget();
            var left := Interrupted(keys, store, target, cuts);
            var done := Settled(left, PlanOf(keys, left, target));
            && (key in done <==> key in store)
            && (key in keys && key in store ==>
                  && done[key].time == Some("00:00") && done[key].source == Some(AutoTime)
                  && done[key] == store[key].(time := done[key].time, source := done[key].source))
            && (key !in keys && key in store ==> done[key] == store[key])
  {
    hide Interrupted, Settled, PlanOf;
    AutoTimesConverge(keys, store, cuts);
    CompleteRun(keys, store, AutoTimeTarget(), key);
  }

  lemma AutoTimeIsIdempotent()
    ensures Idempotent(AutoTimeTarget()) && NeverUnconfigures(AutoTimeTarget())
  {
    forall key: SettingKey, current: Option<AuditSchedule>
      ensures Stable(AutoTimeTarget(), key, current) && Configures(AutoTimeTarget(), key, current)
    {
    }
  }

  // --------------------------------------------------------------- improvement jobs

  // The effective configuration of a job (_effective): its action key and kind are names
  // of the same endpoint and are not compared.
  datatype ImprovementJob = ImprovementJob(
    enabled: Option<bool>,
    automaticExecution: Option<bool>,
    providerVariant: Option<string>,
    variant: string,
    frequency: Option<string>,
    days: seq<string>,
    time: Option<string>,
    source: Option<TimeSource>,
    timezone: Option<string>,
    pentestMode: Option<string>)

  datatype JobUpdate = JobUpdate(
    enabled: Option<bool>,
    automaticExecution: Option<bool>,
    frequency: Option<string>,
    days: Option<seq<string>>,
    time: Option<string>,
    timezone: Option<string>)

  predicate JobUpdateIsValid(u: JobUpdate) {
    && !(u.enabled.None? && u.automaticExecution.None? && u.frequency.None? && u.days.None? && u.time.None?
         && u.timezone.None?)
    && CadenceIsValid(u.frequency) && DaysAreValid(u.days) && TimeUpdateIsValid(u.time)
  }

  // desired_job; the outer None is the ValueError for a missing timezone.
  function DesiredJob(existing: Option<ImprovementJob>, variant: string, u: JobUpdate): Option<Option<ImprovementJob>>
    requires JobUpdateIsValid(u)
  {
    if existing.None? && u.enabled != Some(true) then Some(None)
    else
      var e := if existing.Some? then existing.value
               else ImprovementJob(Some(true), Some(true), None, "", None, [], None, None, None, None);
      var timezone := TextOr(u.timezone, e.timezone);
      if timezone.None? then None
      else
        var timing := SelectPreservedTime(u.time, e.time, e.source, "09:00");
        Some(Some(ImprovementJob(
          if u.enabled.Some? then u.enabled else e.enabled,
          if u.automaticExecution.Some? then u.automaticExecution else e.automaticExecution,
          TextOr(e.providerVariant, Some(variant)),
          variant,
          TextOr(u.frequency, TextOr(e.frequency, Some("workdays"))),
          if u.days.Some? then u.days.value else if e.days != [] then e.days else DEFAULT_WORKDAYS,
          Some(timing.time),
          Some(timing.source),
          timezone,
          TextOr(e.pentestMode, Some("off")))))
  }

  // A planned job plans to itself and keeps its timezone known.
  lemma JobPlanIsIdempotent(existing: Option<ImprovementJob>, variant: string, u: JobUpdate)
    requires JobUpdateIsValid(u) && DesiredJob(existing, variant, u).Some?
    ensures var planned := DesiredJob(existing, variant, u).value;
            && (planned.None? <==> existing.None? && u.enabled != Some(true))
            && (planned.Some? ==> planned.value.timezone.Some? && DesiredJob(planned, variant, u) == Some(planned))
            && (planned.Some? && u.days.None? && existing.Some? && existing.value.days != [] ==>
                  planned.value.days == existing.value.days)
            && (planned.Some? && existing.Some? && u.time == Some(AUTO) && TextOr(existing.value.time, None).Some? ==>
                  planned.value.time == existing.value.time)
  {
    var e := if existing.Some? then existing.value
             else ImprovementJob(Some(true), Some(true), None, "", None, [], None, None, None, None);
    TimeSelectionIsStable(u.time, e.time, e.source, "09:00");
  }

  // A job does what was asked, field by field.
  predicate JobAsRequested(j: ImprovementJob, existing: Option<ImprovementJob>, variant: string, u: JobUpdate) {
    && j.variant == variant
    && (u.enabled.Some? ==> j.enabled == u.enabled)
    && (u.automaticExecution.Some? ==> j.automaticExecution == u.automaticExecution)
    && (Named(u.frequency) ==> j.frequency == u.frequency)
    && (u.days.Some? ==> j.days == u.days.value)
    && (Named(u.timezone) ==> j.timezone == u.timezone)
    && TimeAsRequested(u.time, j.time, j.source)
    && match existing
       case Some(e) =>
         && (u.enabled.None? ==> j.enabled == e.enabled)
         && (u.automaticExecution.None? ==> j.automaticExecution == e.automaticExecution)
         && (!Named(u.frequency) ==> j.frequency == if Named(e.frequency) then e.frequency else Some("workdays"))
         && (u.days.None? ==> j.days == if e.days != [] then e.days else ["mon", "tue", "wed", "thu", "fri"])
         && (!Named(u.timezone) ==> j.timezone == e.timezone)
         && (u.time == Some("auto") ==> j.time == if Named(e.time) then e.time else Some("09:00"))
         && (u.time.None? && e.source == Some(UserTime) ==>
               j.source == e.source && j.time == if Named(e.time) then e.time else Some("09:00"))
         && (u.time.None? && e.source != Some(UserTime) ==> j.source == Some(AutoTime) && j.time == Some("09:00"))
         && j.providerVariant == (if Named(e.providerVariant) then e.providerVariant else Some(variant))
         && j.pentestMode == (if Named(e.pentestMode) then e.pentestMode else Some("off"))
       case None =>
         && u.enabled == Some(true) && Named(u.timezone)
         && (u.automaticExecution.None? ==> j.automaticExecution == Some(true))
         && (!Named(u.frequency) ==> j.frequency == Some("workdays"))
         && (u.days.None? ==> j.days == ["mon", "tue", "wed", "thu", "fri"])
         && (u.time.None? || u.time == Some("auto") ==> j.source == Some(AutoTime) && j.time == Some("09:00"))
         && j.providerVariant == Some(variant) && j.pentestMode == Some("off")
  }

  // A job is planned as requested; it cannot be planned exactly when it would be configured
  // and neither the request nor the job names a timezone, and it is withheld exactly when an
  // absent job is not being enabled.
  lemma DesiredJobIsAsRequested(existing: Option<ImprovementJob>, variant: string, u: JobUpdate)
    requires JobUpdateIsValid(u)
    ensures var desired := DesiredJob(existing, variant, u);
            var withheld := existing.None? && u.enabled != Some(true);
            && (desired.None? <==>
                  !withheld && !Named(u.timezone) && (existing.Some? ==> existing.value.timezone.None?))
            && (desired.Some? ==> (desired.value.None? <==> withheld))
            && (desired.Some? && desired.value.Some? ==> JobAsRequested(desired.value.value, existing, variant, u))
  {
    hide NormalTime;
  }

  // set_improvement_jobs raises while planning, before any write, when some job has no
  // timezone; otherwise each target is this.
  function JobTarget(variants: string -> string, u: JobUpdate): Planner<SettingKey, ImprovementJob>
    requires JobUpdateIsValid(u)
  {
    (key: SettingKey, current: Option<ImprovementJob>) =>
      var desired := DesiredJob(current, variants(key.1), u);
      if desired.None? then current else desired.value
  }

  // The whole batch can be planned.
  predicate JobsPlannable(keys: seq<SettingKey>, store: map<SettingKey, ImprovementJob>, variants: string -> string,
                          u: JobUpdate)
    requires JobUpdateIsValid(u)
  {
    forall key <- keys :: DesiredJob(Lookup(store, key), variants(key.1), u).Some?
  }

  lemma JobTargetIsIdempotent(variants: string -> string, u: JobUpdate)
    requires JobUpdateIsValid(u)
    ensures Idempotent(JobTarget(variants, u)) && NeverUnconfigures(JobTarget(variants, u))
  {
    var target := JobTarget(variants, u);
    forall key: SettingKey, current: Option<ImprovementJob>
      ensures Stable(target, key, current) && Configures(target, key, current)
    {
      if DesiredJob(current, variants(key.1), u).Some? {
        JobPlanIsIdempotent(current, variants(key.1), u);
      }
    }
  }

  // A batch that can be planned converges like the schedules, and every retry of it can be
  // planned too.
  lemma JobsConverge(keys: seq<SettingKey>, store: map<SettingKey, ImprovementJob>, variants: string -> string,
                     u: JobUpdate, cuts: seq<nat>)
    requires JobUpdateIsValid(u) && JobsPlannable(keys, store, variants, u)
    ensures var target := JobTarget(variants, u);
            var left := Interrupted(keys, store, target, cuts);
            var done := Settled(left, PlanOf(keys, left, target));
            && JobsPlannable(keys, left, variants, u) && JobsPlannable(keys, done, variants, u)
            && done == Settled(store, PlanOf(keys, store, target))
            && (forall d <- PlanOf(keys, done, target) :: d.Unchanged?)
  {
    var target := JobTarget(variants, u);
    var left := Interrupted(keys, store, target, cuts);
    JobTargetIsIdempotent(variants, u);
    forall key | key in keys
      ensures DesiredJob(Lookup(left, key), variants(key.1), u).Some?
      ensures DesiredJob(Ideal(keys, store, target, key), variants(key.1), u).Some?
    {
      InterruptedValues(keys, store, target, cuts, key);
      JobPlanIsIdempotent(Lookup(store, key), variants(key.1), u);
    }
    hide DesiredJob, JobTarget, Interrupted, Settled, PlanOf, Idempotent, NeverUnconfigures, Lookup, Ideal;
    RetriesConverge(keys, store, target, cuts);
    NothingLeftToChange(keys, store, target);
    forall key | key in keys
      ensures DesiredJob(Lookup(Settled(store, PlanOf(keys, store, target)), key), variants(key.1), u).Some?
    {
      CompleteRun(keys, store, target, key);
    }
  }

  // Once a run of set_improvement_jobs completes, after any number of partial failures, every
  // job named is as requested, judged by what it was before the first run.
  lemma JobsAreAsRequested(keys: seq<SettingKey>, store: map<SettingKey, ImprovementJob>, variants: string -> string,
                           u: JobUpdate, cuts: seq<nat>, key: SettingKey)
    requires JobUpdateIsValid(u) && JobsPlannable(keys, store, variants, u)
    ensures var target := JobTarget(variants, u);
            var left := Interrupted(keys, store, target, cuts);
            var done := Settled(left, PlanOf(keys, left, target));
            && (key in done <==> key in store || (key in keys && u.enabled == Some(true)))
            && (key in keys && key in done ==>
                  JobAsRequested(done[key], if key in store then Some(store[key]) else None, variants(key.1), u))
            && (key !in keys && key in store ==> done[key] == store[key])
  {
    hide JobUpdateIsValid, JobAsRequested, DesiredJob, Interrupted, Settled, PlanOf;
    JobsConverge(keys, store, variants, u, cuts);
    CompleteRun(keys, store, JobTarget(variants, u), key);
    DesiredJobIsAsRequested(Lookup(store, key), variants(key.1), u);
  }

  // ------------------------------------------------------------- completion emails

  datatype EmailPreference = EmailPreference(manual: Option<bool>, scheduled: Option<bool>)

  // _email_effective
  predicate EmailEffective(current: Option<bool>, requested: Option<bool>) {
    requested.None? || current == requested
  }

  // What the write leaves: only the named fields change.
  function MergedEmail(current: EmailPreference, u: EmailPreference): EmailPreference {
    EmailPreference(if u.manual.Some? then u.manual else current.manual,
                    if u.scheduled.Some? then u.scheduled else current.scheduled)
  }

  // The email writer skips a write exactly when it would change nothing.
  lemma EmailSkipsExactlyNoOps(current: EmailPreference, u: EmailPreference)
    ensures EmailEffective(current.manual, u.manual) && EmailEffective(current.scheduled, u.scheduled)
            <==> MergedEmail(current, u) == current
    ensures MergedEmail(MergedEmail(current, u), u) == MergedEmail(current, u)
  {
  }

  // A preference that was never set reads as all unset.
  function EmailTarget(u: EmailPreference): Planner<SettingKey, EmailPreference> {
    (key: SettingKey, current: Option<EmailPreference>) =>
      Some(MergedEmail(if current.Some? then current.value else EmailPreference(None, None), u))
  }

  lemma EmailTargetIsIdempotent(u: EmailPreference)
    ensures Idempotent(EmailTarget(u)) && NeverUnconfigures(EmailTarget(u))
  {
    forall key: SettingKey, current: Option<EmailPreference>
      ensures Stable(EmailTarget(u), key, current) && Configures(EmailTarget(u), key, current)
    {
    }
  }

  lemma EmailsConverge(keys: seq<SettingKey>, store: map<SettingKey, EmailPreference>, u: EmailPreference,
                       cuts: seq<nat>)
    ensures var target := EmailTarget(u);
            var left := Interrupted(keys, store, target, cuts);
            var done := Settled(left, PlanOf(keys, left, target));
            && done == Settled(store, PlanOf(keys, store, target))
            && (forall d <- PlanOf(keys, done, target) :: d.Unchanged?)
  {
    var target := EmailTarget(u);
    EmailTargetIsIdempotent(u);
    hide EmailTarget, Interrupted, Settled, PlanOf, Idempotent, NeverUnconfigures;
    RetriesConverge(keys, store, target, cuts);
    NothingLeftToChange(keys, store, target);
  }

  // Once a run of set_email_preferences completes, each preference of each setting is what
  // the request asked for, or, if it did not name it, what it was.
  lemma EmailsAreAsRequested(keys: seq<SettingKey>, store: map<SettingKey, EmailPreference>, u: EmailPreference,
                             cuts: seq<nat>, key: SettingKey)
    ensures var target := EmailTarget(u);
            var left := Interrupted(keys, store, target, cuts);
            var done := Settled(left, PlanOf(keys, left, target));
            var was := if key in store then store[key] else EmailPreference(None, None);
            && (key in done <==> key in store || key in keys)
            && (key in keys ==>
                  && (u.manual.Some? ==> done[key].manual == u.manual)
                  && (u.manual.None? ==> done[key].manual == was.manual)
                  && (u.scheduled.Some? ==> done[key].scheduled == u.scheduled)
                  && (u.scheduled.None? ==> done[key].scheduled == was.scheduled))
            && (key !in keys && key in store ==> done[key] == store[key])
  {
    hide Interrupted, Settled, PlanOf;
    EmailsConverge(keys, store, u, cuts);
    CompleteRun(keys, store, EmailTarget(u), key);
  }

  // ------------------------------------------------------------------ the commands

  // The ValueErrors raised before anything is read or written, and the one raised while
  // planning a job without a timezone, before anything is written.
  datatype RequestError = InvalidRequest | NoTimezone

  predicate DaysAreRefused(days: seq<string>) {
    || days == []
    || (exists d <- days :: d !in {"mon", "tue", "wed", "thu", "fri", "sat", "sun"})
    || (exists i, j :: 0 <= i < j < |days| && days[i] == days[j])
  }

  predicate CadenceIsRefused(cadence: Option<string>) {
    cadence.Some? && cadence.value !in {"daily", "workdays", "weekly-3x", "weekly-2x", "weekly", "monthly"}
  }

  lemma RefusalsAreExact(days: seq<string>, cadence: Option<string>)
    ensures DaysAreValid(Some(days)) <==> !DaysAreRefused(days)
    ensures CadenceIsValid(cadence) <==> !CadenceIsRefused(cadence)
  {
  }

  // set_schedules: an invalid request changes nothing; a completed run leaves every setting
  // named as requested, and one stopped by a failure leaves each as it was or as requested.
  method SetSchedules(store: SettingsStore<SettingKey, AuditSchedule>, keys: seq<SettingKey>, u: ScheduleUpdate,
                      faults: nat -> WriteFault)
    returns (r: Reply<BatchResult<SettingKey>, RequestError>)
    modifies store
    ensures r.Raised? <==>
            || u == ScheduleUpdate(None, None, None, None, None)
            || (u.windowDays.Some? && (u.cadence.None? || DaysAreRefused(u.windowDays.value)))
            || CadenceIsRefused(u.cadence)
            || (u.time.Some? && u.time.value != "auto" && NormalTime(u.time.value).None?)
    ensures r.Raised? ==> r.error == InvalidRequest && store.settings == old(store.settings)
    ensures r.Value? && r.value.failed == 0 ==>
              forall key <- keys ::
                && (key in store.settings <==> key in old(store.settings) || u.enabled == Some(true))
                && (key in store.settings ==>
                      ScheduleAsRequested(store.settings[key], Lookup(old(store.settings), key), key.1, u))
    ensures r.Value? ==>
              forall key :: Lookup(store.settings, key) != Lookup(old(store.settings), key) ==>
                && key in keys && key in store.settings
                && ScheduleAsRequested(store.settings[key], Lookup(old(store.settings), key), key.1, u)
  {
    hide Settled, PlanOf, Interrupted, ScheduleAsRequested, PlannedSchedule, NormalTime;
    RefusalsAreExact(if u.windowDays.Some? then u.windowDays.value else [], u.cadence);
    if !ScheduleUpdateIsValid(u) {
      return Raised(InvalidRequest);
    }
    ghost var before := store.settings;
    var result, written := store.SetAll(keys, ScheduleTarget(u), faults);
    PlanLength(keys, before, ScheduleTarget(u));
    forall key
      ensures Lookup(store.settings, key) == Ideal(keys[..written], before, ScheduleTarget(u), key)
      ensures PlannedSchedule(Lookup(before, key), key.1, u).Some? ==>
                ScheduleAsRequested(PlannedSchedule(Lookup(before, key), key.1, u).value, Lookup(before, key), key.1, u)
      ensures PlannedSchedule(Lookup(before, key), key.1, u).None? <==> key !in before && u.enabled != Some(true)
    {
      SettledAt(keys, before, ScheduleTarget(u), written, key);
      PlannedScheduleIsAsRequested(Lookup(before, key), key.1, u);
    }
    assert written == |keys| ==> keys[..written] == keys;
    return Value(result);
  }

  // schedule_auto_time, over the settings of one target.
  method ScheduleAutoTime(store: SettingsStore<SettingKey, AuditSchedule>, keys: seq<SettingKey>,
                          faults: nat -> WriteFault)
    returns (r: BatchResult<SettingKey>)
    modifies store
    ensures forall key :: key in store.settings <==> key in old(store.settings)
    ensures r.failed == 0 ==>
              forall key <- keys :: key in store.settings ==>
                store.settings[key] == old(store.settings)[key].(time := Some("00:00"), source := Some(AutoTime))
    ensures forall key <- store.settings ::
              store.settings[key] == old(store.settings)[key]
              || (key in keys
                  && store.settings[key] == old(store.settings)[key].(time := Some("00:00"), source := Some(AutoTime)))
  {
    hide Settled, PlanOf;
    ghost var before := store.settings;
    ghost var written;
    r, written := store.SetAll(keys, AutoTimeTarget(), faults);
    PlanLength(keys, before, AutoTimeTarget());
    forall key ensures Lookup(store.settings, key) == Ideal(keys[..written], before, AutoTimeTarget(), key) {
      SettledAt(keys, before, AutoTimeTarget(), written, key);
    }
    assert forall key :: key in store.settings <==> Lookup(store.settings, key).Some?;
    assert written == |keys| ==> keys[..written] == keys;
  }

  // set_improvement_jobs: an invalid request, or a job that would be configured with no
  // timezone named anywhere, changes nothing.
  method SetImprovementJobs(store: SettingsStore<SettingKey, ImprovementJob>, keys: seq<SettingKey>,
                            variants: string -> string, u: JobUpdate, faults: nat -> WriteFault)
    returns (r: Reply<BatchResult<SettingKey>, RequestError>)
    modifies store
    ensures r == Raised(InvalidRequest) <==>
            || u == JobUpdate(None, None, None, None, None, None)
            || (u.days.Some? && DaysAreRefused(u.days.value))
            || CadenceIsRefused(u.frequency)
            || (u.time.Some? && u.time.value != "auto" && NormalTime(u.time.value).None?)
    ensures r == Raised(NoTimezone) <==>
            && r != Raised(InvalidRequest) && !Named(u.timezone)
            && exists key <- keys ::
                 if key in old(store.settings) then old(store.settings)[key].timezone.None? else u.enabled == Some(true)
    ensures r.Raised? ==> store.settings == old(store.settings)
    ensures r.Value? && r.value.failed == 0 ==>
              forall key <- keys ::
                && (key in store.settings <==> key in old(store.settings) || u.enabled == Some(true))
                && (key in store.settings ==>
                      JobAsRequested(store.settings[key], Lookup(old(store.settings), key), variants(key.1), u))
    ensures r.Value? ==>
              forall key :: Lookup(store.settings, key) != Lookup(old(store.settings), key) ==>
                && key in keys && key in store.settings
                && JobAsRequested(store.settings[key], Lookup(old(store.settings), key), variants(key.1), u)
  {
    hide Settled, PlanOf, Interrupted, JobAsRequested, DesiredJob, NormalTime;
    RefusalsAreExact(if u.days.Some? then u.days.value else [], u.frequency);
    if !JobUpdateIsValid(u) {
      return Raised(InvalidRequest);
    }
    ghost var before := store.settings;
    forall key | key in keys
      ensures DesiredJob(Lookup(before, key), variants(key.1), u).None? <==>
              !Named(u.timezone)
              && if key in before then before[key].timezone.None? else u.enabled == Some(true)
    {
      DesiredJobIsAsRequested(Lookup(before, key), variants(key.1), u);
    }
    if !JobsPlannable(keys, store.settings, variants, u) {
      return Raised(NoTimezone);
    }
    var target := JobTarget(variants, u);
    var result, written := store.SetAll(keys, target, faults);
    PlanLength(keys, before, target);
    forall key
      ensures Lookup(store.settings, key) == Ideal(keys[..written], before, target, key)
      ensures var desired := DesiredJob(Lookup(before, key), variants(key.1), u);
              desired.Some? ==>
                && (desired.value.None? <==> key !in before && u.enabled != Some(true))
                && (desired.value.Some? ==>
                      JobAsRequested(desired.value.value, Lookup(before, key), variants(key.1), u))
    {
      SettledAt(keys, before, target, written, key);
      DesiredJobIsAsRequested(Lookup(before, key), variants(key.1), u);
    }
    assert written == |keys| ==> keys[..written] == keys;
    return Value(result);
  }

  // set_email_preferences
  method SetEmailPreferences(store: SettingsStore<SettingKey, EmailPreference>, keys: seq<SettingKey>,
                             u: EmailPreference, faults: nat -> WriteFault)
    returns (r: Reply<BatchResult<SettingKey>, RequestError>)
    modifies store
    ensures r.Raised? <==> u.manual.None? && u.scheduled.None?
    ensures r.Raised? ==> r.error == InvalidRequest && store.settings == old(store.settings)
    ensures r.Value? && r.value.failed == 0 ==>
              forall key <- keys ::
                && key in store.settings
                && (u.manual.Some? ==> store.settings[key].manual == u.manual)
                && (u.scheduled.Some? ==> store.settings[key].scheduled == u.scheduled)
                && (u.manual.None? ==>
                      store.settings[key].manual ==
                      if key in old(store.settings) then old(store.settings)[key].manual else None)
                && (u.scheduled.None? ==>
                      store.settings[key].scheduled ==
                      if key in old(store.settings) then old(store.settings)[key].scheduled else None)
    ensures forall key :: key !in keys ==> Lookup(store.settings, key) == Lookup(old(store.settings), key)
  {
    hide Settled, PlanOf;
    if u.manual.None? && u.scheduled.None? {
      return Raised(InvalidRequest);
    }
    ghost var before := store.settings;
    var result, written := store.SetAll(keys, EmailTarget(u), faults);
    PlanLength(keys, before, EmailTarget(u));
    forall key ensures Lookup(store.settings, key) == Ideal(keys[..written], before, EmailTarget(u), key) {
      SettledAt(keys, before, EmailTarget(u), written, key);
    }
    assert written == |keys| ==> keys[..written] == keys;
    if result.failed == 0 {
      forall key | key in keys
        ensures key in store.settings
        ensures store.settings[key] ==
                MergedEmail(if key in before then before[key] else EmailPreference(None, None), u)
      {
        assert Lookup(store.settings, key) == Ideal(keys, before, EmailTarget(u), key);
      }
    }
    assert forall key :: key in keys[..written] ==> key in keys;
    return Value(result);
  }
}
