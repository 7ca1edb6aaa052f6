/** The schedule registry of packages/core/src/schedule/index.ts. The schedules
    table is a map from row id to row; node-schedule jobs are objects that can
    be cancelled and that fire when the environment says so; the clock is a
    parameter (`now`, and today's day of the month). Starting a task is the task
    engine's execTask; the reference it returns is recorded with the schedule id
    argument it was given. */
module Schedule {
  import opened Common
  import Task

  /** The ScheduleType enum: core 0, other 1, startup 2, interval 3, manual 4. */
  datatype ScheduleType = Core | Other | Startup | Interval | Manual

  /** A Date as the registry looks at it: its time stamp and `getDate()`. */
  datatype Date = Date(time: int, monthDay: nat)

  /** A row of the schedules table; a null or undefined `type`, `trigger` or
      `lastRun` is None. */
  datatype Row = Row(taskId: nat, scheduleType: Option<ScheduleType>, trigger: Option<string>,
                     lastRun: Option<Date>, createdAt: int)

  /** One execTask call: the reference it returned and the value passed as its
      `scheduleId` argument. */
  datatype Launch = Launch(ref: Task.TaskRef, scheduleArg: Val)

  /** A `refs` entry: the running task's reference, the task id, the job. */
  datatype Entry = Entry(taskRef: Option<Task.TaskRef>, taskId: nat, job: Option<Job>)

  /** One line of listAllSchedules; `state` is `refs.get(id)?.taskRef?.state`. */
  datatype Listed = Listed(taskId: nat, scheduleType: Option<ScheduleType>, lastRun: Option<Date>,
                           createdAt: int, trigger: Option<string>, state: Option<Task.TaskState>)

  /** The function id of `taskSuccessCallback`. */
  const SuccessCallback: nat := 0

  /** getCrontab: midnight on the days of the month that a step of `day` in
      the day-of-month field matches, that is days 1, 1 + day, 1 + 2 * day, ...
      of every month; the count restarts at day 1 each month, so this is not
      every `day` days. */
  function GetCrontab(day: string): (c: string)
    ensures |c| == |day| + 10
  {
    "0 0 */" + day + " * *"
  }

  /** The space-separated fields of a crontab line. */
  function Fields(s: string): (f: seq<string>)
    ensures |f| >= 1
  {
    if s == [] then [""]
    else if s[0] == ' ' then [""] + Fields(s[1..])
    else var r := Fields(s[1..]); [[s[0]] + r[0]] + r[1..]
  }

  lemma {:induction false} FieldsOfWord(w: string)
    requires ' ' !in w
    ensures Fields(w) == [w]
  {
    if w != [] {
      assert ' ' !in w[1..] by { assert forall i :: 0 <= i < |w[1..]| ==> w[1..][i] == w[i + 1]; }
      FieldsOfWord(w[1..]);
      assert [w[0]] + w[1..] == w;
    }
  }

  lemma {:induction false} FieldsJoin(w: string, rest: string)
    requires ' ' !in w
    ensures Fields(w + " " + rest) == [w] + Fields(rest)
  {
    var s := w + " " + rest;
    if w == [] {
      assert s[0] == ' ' && s[1..] == rest;
    } else {
      assert ' ' !in w[1..] by { assert forall i :: 0 <= i < |w[1..]| ==> w[1..][i] == w[i + 1]; }
      FieldsJoin(w[1..], rest);
      assert s[0] == w[0] && s[1..] == w[1..] + " " + rest;
      assert [w[0]] + w[1..] == w;
    }
  }

  /** The crontab has five fields: minute 0, hour 0, a day-of-month step of `day`,
      every month, every weekday. */
  lemma CrontabFields(day: string)
    requires ' ' !in day
    ensures Fields(GetCrontab(day)) == ["0", "0", "*/" + day, "*", "*"]
  {
    var step := "*/" + day;
    assert ' ' !in step by { assert forall i :: 2 <= i < |step| ==> step[i] == day[i - 2]; }
    assert GetCrontab(day) == "0" + " " + ("0" + " " + (step + " " + ("*" + " " + "*")));
    FieldsJoin("0", "0" + " " + (step + " " + ("*" + " " + "*")));
    FieldsJoin("0", step + " " + ("*" + " " + "*"));
    FieldsJoin(step, "*" + " " + "*");
    FieldsJoin("*", "*");
    FieldsOfWord("*");
  }

  predicate IsDigit(c: char) { '0' <= c <= '9' }

  predicate AllDigits(s: string) { forall i :: 0 <= i < |s| ==> IsDigit(s[i]) }

  /** The longest prefix of ASCII digits, which is what a greedy `\d+` takes. */
  function LeadingDigits(s: string): (d: string)
    ensures d <= s && AllDigits(d)
    ensures |d| < |s| ==> !IsDigit(s[|d|])
  {
    if s != [] && IsDigit(s[0]) then [s[0]] + LeadingDigits(s[1..]) else []
  }

  /** `/^d(\d+)/.exec(trigger)?.[1]`: a `d`, then at least one digit, with no
      anchor at the end. A null trigger is coerced to "null" and does not match. */
  function MatchDay(trigger: Option<string>): (day: Option<string>)
    ensures day.Some? <==> trigger.Some? && |trigger.value| >= 2 && trigger.value[0] == 'd' && IsDigit(trigger.value[1])
    ensures day.Some? ==> day.value != [] && AllDigits(day.value) && "d" + day.value <= trigger.value
    ensures day.Some? && |day.value| + 1 < |trigger.value| ==> !IsDigit(trigger.value[|day.value| + 1])
  {
    if trigger.Some? && |trigger.value| >= 2 && trigger.value[0] == 'd' && IsDigit(trigger.value[1])
    then Some(LeadingDigits(trigger.value[1..]))
    else None
  }

  lemma {:induction false} LeadingDigitsOf(d: string, rest: string)
    requires AllDigits(d)
    requires rest == [] || !IsDigit(rest[0])
    ensures LeadingDigits(d + rest) == d
  {
    if d != [] {
      assert (d + rest)[1..] == d[1..] + rest;
      LeadingDigitsOf(d[1..], rest);
    } else {
      assert d + rest == rest;
    }
  }

  /** The trigger `d<N>` that the settings page builds, followed by anything
      that does not start with a digit, reads back as the period N. */
  lemma TriggerRoundTrip(n: nat, rest: string)
    requires rest == [] || !IsDigit(rest[0])
    ensures MatchDay(Some("d" + Decimal(n) + rest)) == Some(Decimal(n))
    ensures DigitsValue(Decimal(n)) == n
  {
    var t := "d" + Decimal(n) + rest;
    assert t[1..] == Decimal(n) + rest;
    LeadingDigitsOf(Decimal(n), rest);
    DigitsValueOfDecimal(n);
  }

  /** Trailing text after the digits is ignored. */
  lemma TrailingTextIgnored()
    ensures MatchDay(Some("d3x")) == Some("3")
    ensures MatchDay(Some("3d")) == None && MatchDay(Some("d")) == None && MatchDay(None) == None
  {
    LeadingDigitsOf("3", "x");
    assert "d3x"[1..] == "3" + "x";
  }

  /** The catch-up test: the last run's day of the month plus the period is
      today's day of the month. */
  predicate CatchesUp(lastRun: Date, day: string, today: nat)
    requires AllDigits(day)
  {
    lastRun.monthDay + DigitsValue(day) == today
  }

  /** Whether scheduleTask throws for this row: an interval schedule without a
      `d<N>` trigger or without a last run, or an execTask call once the task
      engine is closed. */
  predicate ScheduleThrows(row: Row, closed: bool, today: nat)
  {
    match row.scheduleType
    case Some(Startup) => closed
    case Some(Interval) =>
      var day := MatchDay(row.trigger);
      day.None? || row.lastRun.None? || (CatchesUp(row.lastRun.value, day.value, today) && closed)
    case _ => false
  }

  /** Whether scheduleTask leaves a `refs` entry for this row. */
  predicate LeavesEntry(row: Row, today: nat)
  {
    match row.scheduleType
    case Some(Manual) => true
    case Some(Startup) => true
    case Some(Interval) =>
      var day := MatchDay(row.trigger);
      day.Some? && row.lastRun.Some? && CatchesUp(row.lastRun.value, day.value, today)
    case _ => false
  }

  /** An interval schedule created with trigger `d<N>` has a last run (the
      creation rule sets it), so it throws only when it catches up at once
      after the task engine has closed. */
  lemma CreatedIntervalThrows(taskId: nat, n: nat, now: Date, closed: bool, today: nat)
    ensures ScheduleThrows(Row(taskId, Some(Interval), Some("d" + Decimal(n)), Some(now), now.time), closed, today)
            <==> closed && now.monthDay + n == today
  {
    TriggerRoundTrip(n, "");
    assert "d" + Decimal(n) + "" == "d" + Decimal(n);
  }

  /** A node-schedule job: the schedule and task it was made for, its rule and
      start date, and whether it was cancelled. */
  class Job {
    const scheduleId: nat
    const taskId: nat
    const rule: string
    const start: Date
    var cancelled: bool

    constructor (scheduleId: nat, taskId: nat, rule: string, start: Date)
      ensures this.scheduleId == scheduleId && this.taskId == taskId
      ensures this.rule == rule && this.start == start && !cancelled
    {
      this.scheduleId := scheduleId;
      this.taskId := taskId;
      this.rule := rule;
      this.start := start;
      cancelled := false;
    }

    method Cancel()
      modifies this`cancelled
      ensures cancelled
    {
      cancelled := true;
    }
  }

  /** Whether destroying `t` meets the task engine's precondition. */
  ghost predicate DestroyReady(t: Task.TaskRef)
    reads t, (if t.destroyCb.Some? then {t.destroyCb.value.meta} else {})
  {
    t.destroyCb.Some? ==> t.destroyCb.value.meta.RunningValid()
  }

  class ScheduleManager {
    const tasks: Task.TaskManager
    var refs: map<nat, Entry>
    /** The schedules table and the next id it assigns. */
    var rows: map<nat, Row>
    var nextId: nat
    /** Every job made so far. */
    var jobs: seq<Job>
    /** Every execTask call made so far. */
    var launches: seq<Launch>

    constructor (tasks: Task.TaskManager, rows: map<nat, Row>, nextId: nat)
      requires forall id :: id in rows ==> id < nextId
      ensures Valid()
      ensures this.tasks == tasks && this.rows == rows && this.nextId == nextId
      ensures refs == map[] && jobs == [] && launches == []
    {
      this.tasks := tasks;
      this.rows := rows;
      this.nextId := nextId;
      refs := map[];
      jobs := [];
      launches := [];
    }

    ghost predicate NoLiveJob(id: nat)
      reads this, jobs
    {
      forall j :: j in jobs && !j.cancelled ==> j.scheduleId != id
    }

    /** `id` may be scheduled: it is a table id with no entry and no live job. */
    ghost predicate Unscheduled(id: nat)
      reads this, jobs
    {
      id < nextId && id !in refs && NoLiveJob(id)
    }

    /** Ids stay below the next one; a schedule has at most one live job, and
        while it has an entry the live job is the entry's job, so cancelling
        the entry stops its timer. */
    ghost predicate Valid()
      reads this, jobs
    {
      && (forall id :: id in rows ==> id < nextId)
      && (forall id :: id in refs ==> id < nextId)
      && (forall j :: j in jobs ==> j.scheduleId < nextId)
      && (forall i, k :: 0 <= i < k < |jobs| && !jobs[i].cancelled && !jobs[k].cancelled ==>
            jobs[i].scheduleId != jobs[k].scheduleId)
      && (forall j :: j in jobs && !j.cancelled && j.scheduleId in refs ==> refs[j.scheduleId].job == Some(j))
      && (forall id :: id in refs && refs[id].job.Some? ==>
            refs[id].job.value in jobs && refs[id].job.value.scheduleId == id)
    }

    ghost function LaunchRefs(): set<Task.TaskRef>
      reads this
    {
      set l | l in launches :: l.ref
    }

    /** One more execTask call, for schedule `id`, whose fresh pending reference
        carries the success callback and is now the entry of `id`. */
    twostate predicate NewRun(base: map<nat, Entry>, baseLaunches: seq<Launch>, id: nat, taskId: nat, new job: Option<Job>)
      reads this, LaunchRefs()
    {
      && |launches| == |baseLaunches| + 1 && launches[..|baseLaunches|] == baseLaunches
      && launches[|baseLaunches|].scheduleArg == Num(id)
      && var t := launches[|baseLaunches|].ref;
      && fresh(t) && t.taskId == taskId && t.state == Task.Pending
      && t.successCb == Some(SuccessCallback) && t.destroyCb == None
      && refs == base[id := Entry(Some(t), taskId, job)]
    }

    /** What scheduleTask leaves behind for `row` under `id`, against the
        registry it started from. */
    twostate predicate Placed(base: map<nat, Entry>, baseJobs: seq<Job>, baseLaunches: seq<Launch>,
                              id: nat, row: Row, closed: bool, today: nat)
      reads this, jobs, LaunchRefs()
    {
      match row.scheduleType
      case Some(Manual) =>
        refs == base[id := Entry(None, row.taskId, None)] && jobs == baseJobs && launches == baseLaunches
      case Some(Startup) =>
        && jobs == baseJobs
        && (if closed then refs == base && launches == baseLaunches else NewRun(base, baseLaunches, id, row.taskId, None))
      case Some(Interval) =>
        var day := MatchDay(row.trigger);
        if day.None? || row.lastRun.None? then refs == base && jobs == baseJobs && launches == baseLaunches
        else
          && |jobs| == |baseJobs| + 1 && jobs[..|baseJobs|] == baseJobs
          && var j := jobs[|baseJobs|];
          && fresh(j) && !j.cancelled && j.scheduleId == id && j.taskId == row.taskId
          && j.rule == GetCrontab(day.value) && j.start == row.lastRun.value
          && if CatchesUp(row.lastRun.value, day.value, today) && !closed
             then NewRun(base, baseLaunches, id, row.taskId, Some(j))
             else refs == base && launches == baseLaunches
      case _ => refs == base && jobs == baseJobs && launches == baseLaunches
    }

    /** The execTask call of a startup or catch-up run, with the schedule id as
        its `scheduleId` and the success callback installed. */
    method StartRun(id: nat, taskId: nat, job: Option<Job>) returns (r: Result<(), string>)
      modifies this`refs, this`launches
      ensures r.Err? <==> tasks.closed
      ensures r.Err? ==> refs == old(refs) && launches == old(launches)
      ensures r.Ok? ==> NewRun(old(refs), old(launches), id, taskId, job)
    {
      var t := tasks.ExecTask(taskId);
      if t.Err? {
        return Err(t.error);
      }
      var ref := t.value.OnSuccess(SuccessCallback);
      launches := launches + [Launch(ref, Num(id))];
      refs := refs[id := Entry(Some(ref), taskId, job)];
      r := Ok(());
    }

    /** The execTask call as written: `taskSuccessCallback` goes in as the
        `scheduleId` argument and onSuccess is never called, so the run carries
        a function where its schedule id belongs and its success updates no
        last run. */
    method StartRunAsWritten(id: nat, taskId: nat) returns (r: Result<(), string>)
      modifies this`refs, this`launches
      ensures r.Err? <==> tasks.closed
      ensures r.Err? ==> refs == old(refs) && launches == old(launches)
      ensures r.Ok? ==>
        && |launches| == |old(launches)| + 1 && launches[..|old(launches)|] == old(launches)
        && var l := launches[|old(launches)|];
        && l.scheduleArg == Fn(SuccessCallback) && l.scheduleArg != Num(id)
        && fresh(l.ref) && l.ref.successCb == None
        && refs == old(refs)[id := Entry(Some(l.ref), taskId, None)]
    {
      var t := tasks.ExecTask(taskId);
      if t.Err? {
        return Err(t.error);
      }
      launches := launches + [Launch(t.value, Fn(SuccessCallback))];
      refs := refs[id := Entry(Some(t.value), taskId, None)];
      r := Ok(());
    }

    /** The catch-up run of an interval schedule as written: its entry has no
        job, so the live job of the schedule is no longer reachable from `refs`
        and a later cancelSchedule leaves its timer running. */
    method CatchUpAsWritten(id: nat, taskId: nat, job: Job) returns (r: Result<(), string>)
      requires Valid() && job in jobs && !job.cancelled && job.scheduleId == id
      modifies this`refs, this`launches
      ensures r.Err? <==> tasks.closed
      ensures r.Ok? ==> !Valid() && id in refs && refs[id].job == None && !job.cancelled
    {
      r := StartRun(id, taskId, None);
    }

    /** The catch-up run with the job kept in the entry. */
    method CatchUp(id: nat, taskId: nat, job: Job) returns (r: Result<(), string>)
      requires Valid() && job in jobs && !job.cancelled && job.scheduleId == id
      modifies this`refs, this`launches
      ensures Valid()
      ensures r.Err? <==> tasks.closed
      ensures r.Err? ==> refs == old(refs) && launches == old(launches)
      ensures r.Ok? ==> NewRun(old(refs), old(launches), id, taskId, Some(job))
    {
      r := StartRun(id, taskId, Some(job));
    }

    /** The interval branch of scheduleTask: the trigger's period and the last
        run are required; a job starts at the last run with the period's
        crontab, and the run starts at once when it catches up. */
    method ScheduleInterval(row: Row, id: nat, today: nat) returns (r: Result<(), string>)
      requires Valid() && Unscheduled(id) && row.scheduleType == Some(Interval)
      modifies this`refs, this`jobs, this`launches
      ensures Valid()
      ensures r.Err? <==> ScheduleThrows(row, tasks.closed, today)
      ensures Placed(old(refs), old(jobs), old(launches), id, row, tasks.closed, today)
      ensures r.Ok? ==> (id in refs <==> LeavesEntry(row, today))
      ensures forall k :: k != id ==> (k in refs <==> k in old(refs)) && (k in refs ==> refs[k] == old(refs)[k])
      ensures forall j :: j in jobs && j.scheduleId != id ==> j in old(jobs)
    {
      var day := MatchDay(row.trigger);
      if day.None? {
        return Err("");
      }
      if row.lastRun.None? {
        return Err("");
      }
      var job := new Job(id, row.taskId, GetCrontab(day.value), row.lastRun.value);
      jobs := jobs + [job];
      if CatchesUp(row.lastRun.value, day.value, today) {
        r := CatchUp(id, row.taskId, job);
      } else {
        r := Ok(());
      }
    }

    /** scheduleTask: a manual schedule gets an entry with only its task id, a
        startup schedule runs at once, an interval schedule goes through
        ScheduleInterval, and any other type is ignored. */
    method ScheduleTask(row: Row, id: nat, today: nat) returns (r: Result<(), string>)
      requires Valid() && Unscheduled(id)
      modifies this`refs, this`jobs, this`launches
      ensures Valid()
      ensures r.Err? <==> ScheduleThrows(row, tasks.closed, today)
      ensures Placed(old(refs), old(jobs), old(launches), id, row, tasks.closed, today)
      ensures r.Ok? ==> (id in refs <==> LeavesEntry(row, today))
      ensures r.Ok? && row.scheduleType == Some(Manual) ==> refs[id] == Entry(None, row.taskId, None)
      ensures forall k :: k != id ==> (k in refs <==> k in old(refs)) && (k in refs ==> refs[k] == old(refs)[k])
      ensures forall j :: j in jobs && j.scheduleId != id ==> j in old(jobs)
    {
      match row.scheduleType {
        case Some(Manual) =>
          refs := refs[id := Entry(None, row.taskId, None)];
          r := Ok(());
        case Some(Startup) =>
          r := StartRun(id, row.taskId, None);
        case Some(Interval) =>
          r := ScheduleInterval(row, id, today);
        case _ =>
          r := Ok(());
      }
    }

    /** A job fires: a cancelled job does nothing; otherwise the task runs and
        the entry of its schedule holds the new reference and the job. */
    method JobFires(job: Job) returns (r: Result<(), string>)
      requires Valid() && job in jobs
      modifies this`refs, this`launches
      ensures Valid()
      ensures r.Err? <==> !job.cancelled && tasks.closed
      ensures job.cancelled || r.Err? ==> refs == old(refs) && launches == old(launches)
      ensures !job.cancelled && r.Ok? ==> NewRun(old(refs), old(launches), job.scheduleId, job.taskId, Some(job))
    {
      if job.cancelled {
        return Ok(());
      }
      r := StartRun(job.scheduleId, job.taskId, Some(job));
    }

    /** cancelSchedule: throws for an id without an entry; otherwise cancels the
        entry's job and destroys its task reference, and keeps the entry. */
    method CancelSchedule(id: nat) returns (r: Result<(), string>)
      requires Valid()
      requires id in refs && refs[id].taskRef.Some? ==> DestroyReady(refs[id].taskRef.value)
      modifies if id in refs && refs[id].job.Some? then {refs[id].job.value} else {}
      modifies if id in refs && refs[id].taskRef.Some? then refs[id].taskRef.value.Footprint() else {}
      ensures Valid() && unchanged(this)
      ensures id !in refs ==> r.Err?
      ensures id in refs ==> NoLiveJob(id)
      ensures id in refs && refs[id].job.Some? ==> refs[id].job.value.cancelled
      ensures id in refs && refs[id].taskRef.None? ==> r.Ok?
      ensures id in refs && refs[id].taskRef.Some? ==>
        var t := refs[id].taskRef.value;
        && (old(t.destroyCb).None? ==> r.Ok?)
        && (old(t.destroyCb).Some? ==> old(t.destroyCb).value.Ended() && (r.Ok? <==> old(t.destroyCb.value.Attached())))
    {
      if id !in refs {
        return Err("");
      }
      var entry := refs[id];
      if entry.job.Some? {
        entry.job.value.Cancel();
      }
      r := Ok(());
      if entry.taskRef.Some? {
        OutsideFootprint(entry.taskRef.value);
        r := entry.taskRef.value.Destroy();
      }
    }

    /** A task reference's footprint holds task objects only: neither the
        manager nor any of its jobs. */
    lemma OutsideFootprint(t: Task.TaskRef)
      ensures this !in t.Footprint()
      ensures forall j :: j in jobs ==> j !in t.Footprint()
    {
    }

    /** deleteSchedule: the cancellation is not awaited, so an unknown id does
        not make it throw; the entry and the row are removed. */
    method DeleteSchedule(id: nat)
      requires Valid()
      requires id in refs && refs[id].taskRef.Some? ==> DestroyReady(refs[id].taskRef.value)
      modifies this`refs, this`rows
      modifies if id in refs && refs[id].job.Some? then {refs[id].job.value} else {}
      modifies if id in refs && refs[id].taskRef.Some? then refs[id].taskRef.value.Footprint() else {}
      ensures Valid()
      ensures refs == old(refs) - {id} && rows == old(rows) - {id}
      ensures id in old(refs) ==> NoLiveJob(id)
    {
      var _ := CancelSchedule(id);
      refs := refs - {id};
      rows := rows - {id};
    }

    /** The first part of changeSchedule: the schedule is cancelled and its
        entry removed, which leaves it free to be scheduled again. */
    method Unschedule(id: nat)
      requires Valid() && id in refs
      requires refs[id].taskRef.Some? ==> DestroyReady(refs[id].taskRef.value)
      modifies this`refs
      modifies if refs[id].job.Some? then {refs[id].job.value} else {}
      modifies if refs[id].taskRef.Some? then refs[id].taskRef.value.Footprint() else {}
      ensures Valid() && Unscheduled(id)
      ensures refs == old(refs) - {id} && rows == old(rows) && jobs == old(jobs) && launches == old(launches)
      ensures old(refs[id].job).Some? ==> old(refs[id].job).value.cancelled
    {
      var _ := CancelSchedule(id);
      refs := refs - {id};
    }

    /** changeSchedule: throws without an entry or without a row; otherwise
        cancels and removes the entry, overwrites the row's type and trigger
        (with None where the caller gave none), keeps its last run and task,
        and schedules it anew; the row is stored only when that succeeds. */
    method ChangeSchedule(id: nat, newType: Option<ScheduleType>, newTrigger: Option<string>, today: nat)
      returns (r: Result<(), string>)
      requires Valid()
      requires id in refs && refs[id].taskRef.Some? ==> DestroyReady(refs[id].taskRef.value)
      modifies this`refs, this`rows, this`jobs, this`launches
      modifies if id in refs && refs[id].job.Some? then {refs[id].job.value} else {}
      modifies if id in refs && refs[id].taskRef.Some? then refs[id].taskRef.value.Footprint() else {}
      ensures Valid()
      ensures old(id !in refs || id !in rows) ==>
        r.Err? && refs == old(refs) && rows == old(rows) && jobs == old(jobs) && launches == old(launches)
      ensures old(id in refs && id in rows) ==>
        var row := old(rows[id]).(scheduleType := newType, trigger := newTrigger);
        && (old(refs[id].job).Some? ==> old(refs[id].job).value.cancelled)
        && (r.Err? <==> ScheduleThrows(row, tasks.closed, today))
        && rows == (if r.Ok? then old(rows)[id := row] else old(rows))
        && Placed(old(refs) - {id}, old(jobs), old(launches), id, row, tasks.closed, today)
    {
      if id !in refs || id !in rows {
        return Err("");
      }
      var row := rows[id].(scheduleType := newType, trigger := newTrigger);
      Unschedule(id);
      r := ScheduleTask(row, id, today);
      if r.Ok? {
        rows := rows[id := row];
      }
    }

    /** The row createSchedule stores: the last run is now exactly for an
        interval schedule. */
    static function NewRow(taskId: nat, t: ScheduleType, trigger: Option<string>, now: Date): (row: Row)
      ensures row.lastRun.Some? <==> t == Interval
      ensures row.lastRun.Some? ==> row.lastRun.value == now
      ensures row.taskId == taskId && row.scheduleType == Some(t) && row.trigger == trigger
    {
      Row(taskId, Some(t), trigger, if t == Interval then Some(now) else None, now.time)
    }

    /** createSchedule: a new row under the next id, then scheduleTask; a throw
        from scheduleTask leaves the row in the table. */
    method CreateSchedule(taskId: nat, t: ScheduleType, trigger: Option<string>, now: Date, today: nat)
      returns (r: Result<nat, string>)
      requires Valid()
      modifies this`rows, this`nextId, this`refs, this`jobs, this`launches
      ensures Valid()
      ensures nextId == old(nextId) + 1 && rows == old(rows)[old(nextId) := NewRow(taskId, t, trigger, now)]
      ensures r.Err? <==> ScheduleThrows(NewRow(taskId, t, trigger, now), tasks.closed, today)
      ensures r.Ok? ==> r.value == old(nextId)
      ensures Placed(old(refs), old(jobs), old(launches), old(nextId), NewRow(taskId, t, trigger, now), tasks.closed, today)
    {
      var id := nextId;
      var row := NewRow(taskId, t, trigger, now);
      rows := rows[id := row];
      nextId := nextId + 1;
      var s := ScheduleTask(row, id, today);
      if s.Err? {
        return Err(s.error);
      }
      r := Ok(id);
    }

    /** updateLastRunTime, as the success callback calls it: with the task id
        it is given, which names a schedule row only when the two ids agree. */
    method OnTaskSuccess(taskId: nat, now: Date)
      modifies this`rows
      ensures taskId in old(rows) ==> rows == old(rows)[taskId := old(rows)[taskId].(lastRun := Some(now))]
      ensures taskId !in old(rows) ==> rows == old(rows)
    {
      if taskId in rows {
        rows := rows[taskId := rows[taskId].(lastRun := Some(now))];
      }
    }

    /** active: scheduleTask for each row of the table, in the order `ids`
        lists them, stopping at the first throw. */
    method Active(ids: seq<nat>, today: nat) returns (r: Result<(), string>)
      requires Valid()
      requires forall i, k :: 0 <= i < k < |ids| ==> ids[i] != ids[k]
      requires forall i :: 0 <= i < |ids| ==> ids[i] in rows && Unscheduled(ids[i])
      modifies this`refs, this`jobs, this`launches
      ensures Valid()
      ensures r.Ok? <==> forall i :: 0 <= i < |ids| ==> !ScheduleThrows(rows[ids[i]], tasks.closed, today)
      ensures r.Ok? ==> forall i :: 0 <= i < |ids| ==> (ids[i] in refs <==> LeavesEntry(rows[ids[i]], today))
      ensures r.Ok? ==> forall i :: 0 <= i < |ids| && rows[ids[i]].scheduleType == Some(Manual) ==>
        ids[i] in refs && refs[ids[i]] == Entry(None, rows[ids[i]].taskId, None)
    {
      var n := 0;
      while n < |ids|
        invariant 0 <= n <= |ids|
        invariant Valid()
        invariant forall i :: n <= i < |ids| ==> Unscheduled(ids[i])
        invariant forall i :: 0 <= i < n ==> !ScheduleThrows(rows[ids[i]], tasks.closed, today)
        invariant forall i :: 0 <= i < n ==> ActiveDone(ids[i], today)
      {
        r := ScheduleTask(rows[ids[n]], ids[n], today);
        if r.Err? {
          return;
        }
        n := n + 1;
      }
      r := Ok(());
    }

    /** After scheduling `id` at start-up: an entry exactly when the row leaves
        one, and a manual row's entry holds only its task id. */
    ghost predicate ActiveDone(id: nat, today: nat)
      reads this
      requires id in rows
    {
      && (id in refs <==> LeavesEntry(rows[id], today))
      && (rows[id].scheduleType == Some(Manual) ==> refs[id] == Entry(None, rows[id].taskId, None))
    }

    /** listAllSchedules: the rows that have an entry, with the state of the
        entry's task reference. */
    function ListAll(): (r: map<nat, Listed>)
      reads this, set id | id in refs && refs[id].taskRef.Some? :: refs[id].taskRef.value
      ensures forall id :: id in r <==> id in rows && id in refs
      ensures forall id :: id in r ==>
        && r[id].taskId == rows[id].taskId && r[id].scheduleType == rows[id].scheduleType
        && r[id].lastRun == rows[id].lastRun && r[id].trigger == rows[id].trigger
        && r[id].createdAt == rows[id].createdAt
        && (r[id].state.Some? <==> refs[id].taskRef.Some?)
        && (r[id].state.Some? ==> r[id].state.value == refs[id].taskRef.value.state)
    {
      map id | id in rows && id in refs ::
        Listed(rows[id].taskId, rows[id].scheduleType, rows[id].lastRun, rows[id].createdAt, rows[id].trigger,
               if refs[id].taskRef.Some? then Some(refs[id].taskRef.value.state) else None)
    }
  }

  /** An interval schedule that catches up at once and is then deleted leaves
      no live timer behind, because its entry holds the job. */
  method DeletedScheduleStopsItsTimer() returns (timerStopped: bool)
    ensures timerStopped
  {
    var tm := new Task.TaskManager(map[], 0);
    var m := new ScheduleManager(tm, map[], 0);
    TriggerRoundTrip(1, "");
    assert "d" + Decimal(1) + "" == "d1";
    var r := m.CreateSchedule(7, Interval, Some("d1"), Date(100, 5), 6);
    assert r == Ok(0) && |m.jobs| == 1 && 0 in m.refs && m.refs[0].job == Some(m.jobs[0]);
    m.DeleteSchedule(0);
    assert m.NoLiveJob(0);
    timerStopped := m.jobs[0].cancelled;
  }
}
