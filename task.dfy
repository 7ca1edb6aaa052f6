/** The task engine of packages/core/src/task/index.ts: the registries of task
    constructors, the per-run `TaskWrap` state machine with its page lease and
    rate-limited io queues, and the task references handed to callers. The
    message bus, the page pool and the tasks table are outside this module: the
    progress messages a run sends, the pages it gives back and the table's rows
    are recorded in fields. Every asynchronous step is a method of its own. */
module Task {
  import opened Common
  import Driver

  datatype TaskState = Pending | Running | Finished | Error

  /** How the task's own `run` promise settled: normally, through `exit()`, or by
      throwing anything else. */
  datatype Outcome = Succeeded | Exited | Threw

  /** A message sent through a run's progress handle. */
  datatype ProgressEvent = StateChange(scheduleId: nat, state: TaskState) | Report(scheduleId: nat, options: Val)

  /** A row of the tasks table. */
  datatype TaskRow = TaskRow(plugin: string, task: string, name: Val, settings: Val)

  /** isStandardTask: `setup` is a function. Reading `setup` of null or undefined
      throws. */
  function IsStandardTask(task: Val): (r: Result<bool, string>)
    ensures r.Err? <==> Nullish(task)
    ensures r.Ok? ==> (r.value <==> OptGet(task, "setup").Fn?)
  {
    match Get(task, "setup")
    case Err(e) => Err(e)
    case Ok(setup) => Ok(TypeOf(setup) == "function")
  }

  /** The plugin argument of `register`: a plugin object, or a bare name string,
      whose `name` property is undefined. */
  datatype PluginArg = PluginObject(name: string) | BareName(text: string)

  /** `plugin.name`: the owner recorded for a registration. */
  function OwnerOf(p: PluginArg): (o: Option<string>)
    ensures o.Some? <==> p.PluginObject?
    ensures p.PluginObject? ==> o.value == p.name
  {
    match p
    case PluginObject(name) => Some(name)
    case BareName(_) => None
  }

  /** An owner as a template literal renders it. */
  function KeyPart(o: Option<string>): string
  {
    match o
    case Some(name) => name
    case None => "undefined"
  }

  /** The registry key `${plugin.name}@${taskName}`. */
  function StdKey(owner: Option<string>, taskName: string): string
  {
    KeyPart(owner) + "@" + taskName
  }

  /** Keys of plugins whose names contain no '@' determine plugin and task. */
  lemma StdKeyInjective(a: string, t1: string, b: string, t2: string)
    requires '@' !in a && '@' !in b
    requires StdKey(Some(a), t1) == StdKey(Some(b), t2)
    ensures a == b && t1 == t2
  {
    var k := StdKey(Some(a), t1);
    assert k == a + "@" + t1 && k == b + "@" + t2;
    assert FindIndex(k, '@') == |a| by {
      assert k[|a|] == '@' && forall j :: 0 <= j < |a| ==> k[j] == a[j];
    }
    assert FindIndex(k, '@') == |b| by {
      assert k[|b|] == '@' && forall j :: 0 <= j < |b| ==> k[j] == b[j];
    }
    assert a == k[..|a|] == b;
    assert t1 == k[|a| + 1..] == t2;
  }

  /** A plugin literally named "undefined" shares its keys with every bare-name
      registration. */
  lemma UndefinedOwnerCollides(t: string)
    ensures StdKey(Some("undefined"), t) == StdKey(OwnerOf(BareName("any")), t)
  {
  }

  /** The position of the first occurrence of `x`, or -1 (`findIndex`). */
  function FindIndex<T(==)>(s: seq<T>, x: T): (r: int)
    ensures -1 <= r < |s|
    ensures r == -1 <==> x !in s
    ensures r >= 0 ==> s[r] == x && forall j :: 0 <= j < r ==> s[j] != x
  {
    if s == [] then -1
    else if s[0] == x then 0
    else var p := FindIndex(s[1..], x); if p == -1 then -1 else p + 1
  }

  /** `splice(i, 1)`: removes the element at `i`; -1 counts from the end. */
  function Splice1<T>(s: seq<T>, i: int): (r: seq<T>)
    requires -1 <= i < |s|
    ensures i >= 0 ==> |r| == |s| - 1 && r == s[..i] + s[i + 1..]
    ensures i == -1 && s != [] ==> r == s[..|s| - 1]
    ensures i == -1 && s == [] ==> r == []
  {
    if i >= 0 then s[..i] + s[i + 1..]
    else if s == [] then []
    else s[..|s| - 1]
  }

  /** The wait before a rate-limited job starts: the least non-negative delay
      after which `interval` has passed since `timestamp`. */
  function Delay(interval: int, timestamp: int, now: int): (d: int)
    ensures d >= 0
    ensures now + d >= timestamp + interval
    ensures d == 0 || now + d == timestamp + interval
  {
    if now - timestamp < interval then interval - (now - timestamp) else 0
  }

  /** A job starts without waiting exactly when `interval` has already passed. */
  lemma DelayZeroIff(interval: int, timestamp: int, now: int)
    ensures Delay(interval, timestamp, now) == 0 <==> now - timestamp >= interval
  {
  }

  /** A rate-limited queue created by `ioQueue(n)`: concurrency one, and the time
      its last job finished. A NaN interval never makes a job wait. */
  class Throttle {
    const interval: Option<int>
    var timestamp: int

    constructor (interval: Option<int>, now: int)
      ensures this.interval == interval && timestamp == now
    {
      this.interval := interval;
      timestamp := now;
    }

    /** The wait before the job taken at `now` starts. */
    method StartJob(now: int) returns (wait: int)
      ensures interval.None? ==> wait == 0
      ensures interval.Some? ==> wait == Delay(interval.value, timestamp, now)
    {
      wait := 0;
      if interval.Some? && now - timestamp < interval.value {
        wait := interval.value - (now - timestamp);
      }
    }

    /** The job settled at `now`, whether it succeeded or failed. */
    method JobSettled(now: int)
      modifies this`timestamp
      ensures timestamp == now
    {
      timestamp := now;
    }
  }

  /** The reference `execTask` hands out: the task's id and state, and the two
      callbacks the wrap installs and clears. Success callbacks are opaque ids;
      their invocations are recorded. */
  class TaskRef {
    const taskId: nat
    var state: TaskState
    var successCb: Option<nat>
    var destroyCb: Option<TaskWrap>
    var successCalls: seq<nat>

    constructor (taskId: nat)
      ensures this.taskId == taskId && state == Pending
      ensures successCb == None && destroyCb == None && successCalls == []
    {
      this.taskId := taskId;
      state := Pending;
      successCb := None;
      destroyCb := None;
      successCalls := [];
    }

    /** onSuccess: installs the callback and returns the reference itself. */
    method OnSuccess(cb: nat) returns (self: TaskRef)
      modifies this`successCb
      ensures self == this && successCb == Some(cb)
    {
      successCb := Some(cb);
      self := this;
    }

    /** The objects `destroy` may change. */
    ghost function Footprint(): set<object>
      reads this
    {
      {this} + (if destroyCb.Some? then destroyCb.value.Footprint() else {})
    }

    /** destroy: runs the installed destroy callback, if any. */
    method Destroy() returns (r: Result<(), string>)
      requires destroyCb.Some? ==> destroyCb.value.meta.RunningValid()
      modifies Footprint()
      ensures old(destroyCb).None? ==> r == Ok(()) && unchanged(this)
      ensures old(destroyCb).Some? ==>
        var w := old(destroyCb).value;
        && (r.Ok? <==> old(w.Attached()))
        && w.Ended() && w.meta.RunningValid()
    {
      r := Ok(());
      if destroyCb.Some? {
        r := destroyCb.value.Destroy();
      }
    }
  }

  /** A registered standard task: its owner, name and constructor, and the wraps
      currently running it. */
  class TaskMeta {
    const owner: Option<string>
    const taskName: string
    const taskConstructor: Val
    var tasksInRunning: seq<TaskWrap>

    constructor (owner: Option<string>, taskName: string, taskConstructor: Val)
      ensures this.owner == owner && this.taskName == taskName
      ensures this.taskConstructor == taskConstructor && tasksInRunning == []
    {
      this.owner := owner;
      this.taskName := taskName;
      this.taskConstructor := taskConstructor;
      tasksInRunning := [];
    }

    /** Each running wrap appears once and points back here. */
    ghost predicate RunningValid()
      reads this
    {
      && (forall i, j :: 0 <= i < j < |tasksInRunning| ==> tasksInRunning[i] != tasksInRunning[j])
      && (forall w :: w in tasksInRunning ==> w.meta == this)
    }
  }

  /** A non-standard registration. */
  class NonStdMeta {
    const owner: Option<string>
    const taskName: string
    const taskConstructor: Val

    constructor (owner: Option<string>, taskName: string, taskConstructor: Val)
      ensures this.owner == owner && this.taskName == taskName && this.taskConstructor == taskConstructor
    {
      this.owner := owner;
      this.taskName := taskName;
      this.taskConstructor := taskConstructor;
    }
  }

  /** One run of a task. `killedQueues` are the rate-limited queues paused and
      drained by destroy. */
  class TaskWrap {
    var state: TaskState
    const ref: TaskRef
    const taskId: nat
    const scheduleId: nat
    const meta: TaskMeta
    const settings: Val
    var taskCreated: bool
    var progressOpen: bool
    var progress: seq<ProgressEvent>
    var pageRef: Option<Driver.Page>
    var pageReleases: seq<Driver.Page>
    var throttleQueue: seq<Throttle>
    var killedQueues: seq<Throttle>

    /** The objects destroy may change. */
    ghost function Footprint(): set<object>
    {
      {this, ref, meta}
    }

    /** `taskRef` is still set. Destroy nulls it in the same step that splices the
        wrap out of its meta's running list, and nothing else does either, so the
        wrap holds its reference exactly while it is in that list. */
    predicate Attached()
      reads meta
    {
      this in meta.tasksInRunning
    }

    /** Destroyed: detached from its reference, in a final state. */
    ghost predicate Ended()
      reads this, meta
    {
      !Attached() && Settled()
    }

    /** In a final state. */
    predicate Settled()
      reads this`state
    {
      state == Finished || state == Error
    }

    /** A new wrap reports `pending`, joins its meta's running list and installs its
        destroy callback on the reference. */
    constructor (ref: TaskRef, taskId: nat, scheduleId: nat, meta: TaskMeta, settings: Val)
      modifies meta`tasksInRunning, ref`destroyCb
      ensures this.ref == ref && this.taskId == taskId && this.scheduleId == scheduleId
      ensures this.meta == meta && this.settings == settings
      ensures state == Pending && Attached() && !taskCreated && progressOpen
      ensures progress == [StateChange(scheduleId, Pending)]
      ensures pageRef == None && pageReleases == [] && throttleQueue == [] && killedQueues == []
      ensures meta.tasksInRunning == old(meta.tasksInRunning) + [this]
      ensures ref.destroyCb == Some(this)
      ensures old(meta.RunningValid()) ==> meta.RunningValid()
    {
      state := Pending;
      this.ref := ref;
      this.taskId := taskId;
      this.scheduleId := scheduleId;
      this.meta := meta;
      this.settings := settings;
      taskCreated := false;
      progressOpen := true;
      progress := [StateChange(scheduleId, Pending)];
      pageRef := None;
      pageReleases := [];
      throttleQueue := [];
      killedQueues := [];
      new;
      meta.tasksInRunning := meta.tasksInRunning + [this];
      ref.destroyCb := Some(this);
    }

    /** The state setter: records the state here and on the reference and reports
        it. With the reference gone the second write throws after the first. */
    method SetState(v: TaskState) returns (r: Result<(), string>)
      modifies this`state, ref`state, this`progress
      ensures state == v
      ensures r.Ok? <==> Attached()
      ensures Attached() ==> (ref.state == v &&
        progress == old(progress) + (if progressOpen then [StateChange(scheduleId, v)] else []))
      ensures !Attached() ==> ref.state == old(ref.state) && progress == old(progress)
    {
      state := v;
      if !Attached() {
        return Err("TypeError");
      }
      ref.state := v;
      if progressOpen {
        progress := progress + [StateChange(scheduleId, v)];
      }
      r := Ok(());
    }

    /** checkIsStillRunning. */
    function CheckIsStillRunning(): (r: Result<(), string>)
      reads this
      ensures r.Ok? <==> state == Running
    {
      if state != Running then Err("task isn't running") else Ok(())
    }

    /** The job the plugin's concurrency queue starts: a pending wrap becomes
        running; then setup needs a running wrap. A failure here reaches a catch
        handler that is not bound to the wrap and changes nothing. */
    method Admit() returns (r: Result<(), string>)
      modifies this`state, ref`state, this`progress, this`taskCreated
      ensures old(state) == Pending ==> state == Running
      ensures old(state) != Pending ==> state == old(state) && progress == old(progress)
      ensures r.Ok? <==> (old(state) == Pending && Attached()) || old(state) == Running
      ensures taskCreated <==> r.Ok? || old(taskCreated)
      ensures old(state) == Pending && Attached() ==> (ref.state == Running &&
        progress == old(progress) + (if progressOpen then [StateChange(scheduleId, Running)] else []))
    {
      if state == Pending {
        var s := SetState(Running);
        if s.Err? {
          return s;
        }
      }
      r := CheckIsStillRunning();
      if r.Ok? {
        taskCreated := true;
      }
    }

    /** What destroy gives back: the progress handle is closed, a held page is
        released and the rate-limited queues are killed. */
    twostate predicate ResourcesReleased()
      reads this
    {
      && !progressOpen && pageRef == None
      && pageReleases == old(pageReleases) + (if old(pageRef).Some? then [old(pageRef).value] else [])
      && throttleQueue == [] && killedQueues == old(killedQueues) + old(throttleQueue)
    }

    twostate predicate ResourcesKept()
      reads this
    {
      && progressOpen == old(progressOpen) && pageRef == old(pageRef) && pageReleases == old(pageReleases)
      && throttleQueue == old(throttleQueue) && killedQueues == old(killedQueues)
    }

    /** The middle of destroy: progress handle, page and queues. */
    method ReleaseResources()
      modifies this`progressOpen, this`pageRef, this`pageReleases, this`throttleQueue, this`killedQueues
      ensures ResourcesReleased()
    {
      progressOpen := false;
      if pageRef.Some? {
        pageReleases := pageReleases + [pageRef.value];
        pageRef := None;
      }
      killedQueues := killedQueues + throttleQueue;
      throttleQueue := [];
    }

    /** The end of destroy: the reference's callbacks are cleared, `taskRef` is
        nulled and the wrap leaves the running list. */
    method Detach()
      requires meta.RunningValid() && Attached()
      modifies ref`destroyCb, ref`successCb, meta`tasksInRunning
      ensures ref.destroyCb == None && ref.successCb == None
      ensures meta.tasksInRunning == Splice1(old(meta.tasksInRunning), FindIndex(old(meta.tasksInRunning), this))
      ensures meta.RunningValid() && !Attached()
    {
      ref.destroyCb := None;
      ref.successCb := None;
      ghost var before := meta.tasksInRunning;
      var i := FindIndex(meta.tasksInRunning, this);
      meta.tasksInRunning := Splice1(meta.tasksInRunning, i);
      SpliceDistinct(before, i);
    }

    /** destroy: finishes the run unless it failed, closes the progress handle,
        gives back a held page, kills the rate-limited queues, clears the
        reference's callbacks, detaches from it and leaves the running list. With
        the reference already gone it throws at the first write to it: in the
        state setter, or after the resources for a failed run. */
    method Destroy() returns (r: Result<(), string>)
      requires meta.RunningValid()
      modifies this, ref, meta`tasksInRunning
      ensures meta.RunningValid() && !Attached()
      ensures state == if old(state) == Error then Error else Finished
      ensures r.Ok? <==> old(Attached())
      ensures old(state) == Error || old(Attached()) ==> ResourcesReleased()
      ensures old(state) != Error && !old(Attached()) ==> ResourcesKept()
      ensures progress == old(progress) +
        (if old(state) != Error && old(Attached()) && old(progressOpen) then [StateChange(scheduleId, Finished)] else [])
      ensures old(Attached()) ==> (
        && ref.destroyCb == None && ref.successCb == None
        && ref.state == (if old(state) == Error then old(ref.state) else Finished)
        && meta.tasksInRunning == Splice1(old(meta.tasksInRunning), FindIndex(old(meta.tasksInRunning), this)))
      ensures !old(Attached()) ==> meta.tasksInRunning == old(meta.tasksInRunning) && unchanged(ref)
      ensures taskCreated == old(taskCreated) && ref.successCalls == old(ref.successCalls)
    {
      if state != Error {
        var s := SetState(Finished);
        if s.Err? {
          return s;
        }
      }
      ReleaseResources();
      if !Attached() {
        return Err("TypeError");
      }
      Detach();
      r := Ok(());
    }

    /** errorHandler: `exit()` goes straight to destroy; any other error fails a
        run that has not finished and destroys it. */
    method ErrorHandler(exit: bool) returns (r: Result<(), string>)
      requires meta.RunningValid()
      modifies this, ref, meta`tasksInRunning
      ensures meta.RunningValid()
      ensures exit ==> state == (if old(state) == Error then Error else Finished) && (r.Ok? <==> old(Attached()))
      ensures !exit && old(state) == Finished ==> r.Ok? && state == Finished && unchanged(this, ref, meta)
      ensures !exit && old(state) != Finished ==> state == Error && (r.Ok? <==> old(Attached()))
      ensures exit || old(state) != Finished ==> !Attached()
      ensures ref.successCalls == old(ref.successCalls)
      ensures !exit && old(state) != Finished && old(Attached()) ==> ref.state == Error
    {
      if exit {
        r := Destroy();
        return;
      }
      r := Ok(());
      if state != Finished {
        var s := SetState(Error);
        if s.Err? {
          return s;
        }
        r := Destroy();
      }
    }

    /** The end of `run`, once the task's own `run` has settled: on success the
        success callback runs and the wrap is destroyed, and a throw from either
        goes to errorHandler. */
    method RunSettled(outcome: Outcome) returns (r: Result<(), string>)
      requires meta.RunningValid()
      modifies this, ref, meta`tasksInRunning
      ensures meta.RunningValid()
      ensures outcome.Succeeded? && old(Attached()) ==> (
        && r.Ok? && state == (if old(state) == Error then Error else Finished)
        && ref.successCalls == old(ref.successCalls) + (if old(ref.successCb).Some? then [old(ref.successCb).value] else []))
      ensures outcome.Succeeded? && !old(Attached()) ==> state == (if old(state) == Finished then Finished else Error)
      ensures outcome.Exited? ==> state == (if old(state) == Error then Error else Finished)
      ensures outcome.Threw? && old(state) != Finished ==> state == Error
      ensures !outcome.Succeeded? ==> ref.successCalls == old(ref.successCalls)
      ensures !Attached() || (outcome.Threw? && old(state) == Finished)
    {
      match outcome
      case Succeeded =>
        if !Attached() {
          r := ErrorHandler(false);
          return;
        }
        if ref.successCb.Some? {
          ref.successCalls := ref.successCalls + [ref.successCb.value];
        }
        r := Destroy();
      case Exited =>
        r := ErrorHandler(true);
      case Threw =>
        r := ErrorHandler(false);
    }

    /** window.progress: needs a running wrap, then reports through the handle. */
    method ReportProgress(options: Val) returns (r: Result<(), string>)
      modifies this`progress
      ensures r.Ok? <==> state == Running
      ensures progress == old(progress) + (if r.Ok? && progressOpen then [Report(scheduleId, options)] else [])
    {
      r := CheckIsStillRunning();
      if r.Ok? && progressOpen {
        progress := progress + [Report(scheduleId, options)];
      }
    }

    /** The synchronous part of page.request: the wrap must be running and hold no
        page. The lease is only recorded when the page arrives, so a second request
        made meanwhile passes this check too. */
    method PageRequest() returns (r: Result<(), string>)
      ensures r.Ok? <==> state == Running && pageRef.None?
    {
      r := CheckIsStillRunning();
      if r.Ok? && pageRef.Some? {
        r := Err("");
      }
    }

    /** The page pool answered page.request: the page is held even if the wrap
        stopped running meanwhile, in which case the request fails. */
    method PageGranted(page: Driver.Page) returns (r: Result<Driver.Page, string>)
      modifies this`pageRef
      ensures pageRef == Some(page)
      ensures r.Ok? <==> state == Running
      ensures r.Ok? ==> r.value == page
    {
      pageRef := Some(page);
      if state != Running {
        return Err("task isn't running");
      }
      r := Ok(page);
    }

    /** page.release: gives back a held page; no page is held afterwards. */
    method PageRelease()
      modifies this`pageRef, this`pageReleases
      ensures pageRef == None
      ensures pageReleases == old(pageReleases) + (if old(pageRef).Some? then [old(pageRef).value] else [])
    {
      if pageRef.Some? {
        pageReleases := pageReleases + [pageRef.value];
      }
      pageRef := None;
    }

    /** ioQueue: a function argument goes to the plugin's io queue (None here); a
        number creates a rate-limited queue stamped with `now`; anything else
        throws. */
    method IoQueue(arg: Val, now: int) returns (r: Result<Option<Throttle>, string>)
      modifies this`throttleQueue
      ensures r.Err? <==> !(arg.Fn? || arg.Num? || arg.NaN?)
      ensures arg.Fn? ==> r == Ok(None) && throttleQueue == old(throttleQueue)
      ensures (arg.Num? || arg.NaN?) ==> (
        && r.Ok? && r.value.Some? && fresh(r.value.value)
        && r.value.value.timestamp == now
        && r.value.value.interval == (if arg.Num? then Some(arg.n) else None)
        && throttleQueue == old(throttleQueue) + [r.value.value])
      ensures r.Err? ==> throttleQueue == old(throttleQueue)
    {
      if arg.Fn? {
        return Ok(None);
      }
      if !(arg.Num? || arg.NaN?) {
        return Err("");
      }
      var t := new Throttle(if arg.Num? then Some(arg.n) else None, now);
      throttleQueue := throttleQueue + [t];
      r := Ok(Some(t));
    }

    /** A job of a rate-limited queue is taken at `now`: None when destroy killed
        the queue, otherwise the wait before it starts. */
    method StartThrottled(q: Throttle, now: int) returns (wait: Option<int>)
      ensures wait.None? <==> q in killedQueues
      ensures wait.Some? ==> wait.value >= 0
      ensures wait.Some? && q.interval.Some? ==> now + wait.value >= q.timestamp + q.interval.value
      ensures wait.Some? && q.interval.Some? ==> wait.value == 0 || now + wait.value == q.timestamp + q.interval.value
    {
      if q in killedQueues {
        return None;
      }
      var w := q.StartJob(now);
      wait := Some(w);
    }
  }

  /** Removing the element at `i` of a sequence without repetitions removes it
      entirely and keeps the rest without repetitions. */
  lemma SpliceDistinct<T>(s: seq<T>, i: int)
    requires 0 <= i < |s|
    requires forall a, b :: 0 <= a < b < |s| ==> s[a] != s[b]
    ensures var r := Splice1(s, i);
      && s[i] !in r
      && (forall x :: x in r ==> x in s)
      && (forall a, b :: 0 <= a < b < |r| ==> r[a] != r[b])
  {
    var r := Splice1(s, i);
    assert forall a :: 0 <= a < |r| ==> r[a] == (if a < i then s[a] else s[a + 1]);
  }

  /** Removing the element where two sequences meet. */
  lemma RemoveAtSeam<T>(front: seq<T>, rest: seq<T>)
    requires rest != []
    ensures var s := front + rest; s[..|front|] + s[|front| + 1..] == front + rest[1..]
  {
    var s := front + rest;
    assert s[..|front|] == front;
    assert s[|front| + 1..] == rest[1..];
  }

  /** The elements at odd positions: those a for..of loop that deletes the current
      element at every step passes over. */
  function OddIndexed<T>(s: seq<T>): (r: seq<T>)
    ensures |r| == |s| / 2
    ensures forall k :: 0 <= k < |r| ==> r[k] == s[2 * k + 1]
  {
    if |s| < 2 then [] else [s[1]] + OddIndexed(s[2..])
  }

  function Min(a: int, b: int): int
  {
    if a <= b then a else b
  }

  /** One step of that loop: the element at 2i is removed and the one after it is
      passed over. */
  lemma OddIndexedStep<T>(all: seq<T>, i: nat)
    requires 2 * i < |all|
    ensures var p := Min(2 * i + 2, |all|);
      OddIndexed(all[..2 * i]) + all[2 * i + 1..] == OddIndexed(all[..p]) + all[p..]
  {
    var p := Min(2 * i + 2, |all|);
    var lhs := OddIndexed(all[..2 * i]) + all[2 * i + 1..];
    var rhs := OddIndexed(all[..p]) + all[p..];
    assert |lhs| == |rhs|;
    forall k | 0 <= k < |lhs|
      ensures lhs[k] == rhs[k]
    {
      if k < i {
        assert lhs[k] == all[2 * k + 1] == rhs[k];
      }
    }
  }

  /** The references of the wraps `ws`. */
  ghost function RefsOf(ws: seq<TaskWrap>): set<TaskRef>
  {
    set w | w in ws :: w.ref
  }

  /** Destroys `w`, the wrap at position `i` of `m`'s running list, which leaves
      the list. */
  method DestroyAt(m: TaskMeta, w: TaskWrap, i: nat)
    requires m.RunningValid() && i < |m.tasksInRunning| && m.tasksInRunning[i] == w
    modifies m`tasksInRunning, w, w.ref
    ensures w.Ended()
    ensures m.tasksInRunning == old(m.tasksInRunning[..i] + m.tasksInRunning[i + 1..])
    ensures forall v :: v in m.tasksInRunning ==> v in old(m.tasksInRunning)
    ensures m.RunningValid()
  {
    assert w.meta == m && w.Attached();
    assert FindIndex(m.tasksInRunning, w) == i;
    var r := w.Destroy();
  }

  /** The loop state of the for..of below after `i` steps over the original list
      `all`: the first `i` even-positioned wraps are destroyed and the odd ones
      before them passed over. */
  ghost predicate SkipLoopState(m: TaskMeta, all: seq<TaskWrap>, i: nat)
    reads m, set k | 0 <= k < |all| :: all[k]
  {
    var p := Min(2 * i, |all|);
    && 2 * i <= |all| + 1
    && m.tasksInRunning == OddIndexed(all[..p]) + all[p..]
    && (forall j :: 0 <= j < i ==> all[2 * j].Settled())
    && m.RunningValid()
  }

  /** The original list of that loop: distinct wraps, all of meta `m`. */
  ghost predicate DistinctOf(m: TaskMeta, all: seq<TaskWrap>)
  {
    && (forall k :: 0 <= k < |all| ==> all[k].meta == m)
    && (forall a, b :: 0 <= a < b < |all| ==> all[a] != all[b])
  }

  /** One step of that loop: the wrap at position `i` of the live list is
      destroyed. */
  method SkipLoopStep(m: TaskMeta, ghost all: seq<TaskWrap>, i: nat)
    requires SkipLoopState(m, all, i) && DistinctOf(m, all) && i < |m.tasksInRunning|
    requires 2 * i < |all| && m.tasksInRunning[i] == all[2 * i]
    modifies m`tasksInRunning, all[2 * i], all[2 * i].ref
    ensures SkipLoopState(m, all, i + 1)
  {
    assert Min(2 * i, |all|) == 2 * i;
    SkipListStep(all, i);
    var w := m.tasksInRunning[i];
    assert forall j :: 0 <= j < i ==> all[2 * j] != w;
    DestroyAt(m, w, i);
  }

  /** The list side of that step: taking out position `i` of the live list
      moves the loop on by one. */
  lemma SkipListStep<T>(all: seq<T>, i: nat)
    requires 2 * i < |all|
    ensures var live := OddIndexed(all[..2 * i]) + all[2 * i..];
      var p := Min(2 * i + 2, |all|);
      && |live| > i && live[..i] + live[i + 1..] == OddIndexed(all[..p]) + all[p..]
  {
    var front := OddIndexed(all[..2 * i]);
    var rest := all[2 * i..];
    RemoveAtSeam(front, rest);
    assert rest[1..] == all[2 * i + 1..];
    OddIndexedStep(all, i);
  }

  /** The loop of unRegisterTaskByPlugin over a removed task's running wraps, as
      written: for..of over the live list while each destroy splices the current
      wrap out of it, so every second wrap is passed over and keeps running. */
  method DestroyRunningAsWritten(m: TaskMeta)
    requires m.RunningValid()
    modifies m`tasksInRunning, m.tasksInRunning, RefsOf(m.tasksInRunning)
    ensures m.tasksInRunning == OddIndexed(old(m.tasksInRunning))
    ensures forall j :: 0 <= j < (|old(m.tasksInRunning)| + 1) / 2 ==> old(m.tasksInRunning)[2 * j].Ended()
    ensures m.RunningValid()
  {
    var all := m.tasksInRunning;
    var i := 0;
    while i < |m.tasksInRunning|
      invariant SkipLoopState(m, all, i) && DistinctOf(m, all)
      invariant all == old(m.tasksInRunning)
      decreases |all| - 2 * i
    {
      SkipLoopAt(m, all, i);
      assert all[2 * i] in all && all[2 * i].ref in RefsOf(all);
      SkipLoopStep(m, all, i);
      i := i + 1;
    }
    SkipLoopExit(m, all, i);
  }

  /** Inside that loop the wrap at position `i` of the live list is the one at
      position `2 * i` of the original list. */
  lemma SkipLoopAt(m: TaskMeta, all: seq<TaskWrap>, i: nat)
    requires SkipLoopState(m, all, i) && i < |m.tasksInRunning|
    ensures 2 * i < |all| && m.tasksInRunning[i] == all[2 * i]
  {
    var p := Min(2 * i, |all|);
    assert |OddIndexed(all[..p])| == i;
  }

  /** When the live list is exhausted the whole original list has been walked. */
  lemma SkipLoopExit(m: TaskMeta, all: seq<TaskWrap>, i: nat)
    requires SkipLoopState(m, all, i) && DistinctOf(m, all) && i >= |m.tasksInRunning|
    ensures m.tasksInRunning == OddIndexed(all)
    ensures forall j :: 0 <= j < (|all| + 1) / 2 ==> all[2 * j].Ended()
  {
    var p := Min(2 * i, |all|);
    assert p == |all|;
    assert all[..|all|] == all;
    forall j | 0 <= j < (|all| + 1) / 2
      ensures all[2 * j] !in m.tasksInRunning
    {
      EvenNotInOdd(all, j);
    }
  }

  /** In a list without repetitions, no even-positioned element is among the
      odd-positioned ones. */
  lemma {:induction false} EvenNotInOdd<T>(all: seq<T>, j: nat)
    requires forall a, b :: 0 <= a < b < |all| ==> all[a] != all[b]
    requires 2 * j < |all|
    ensures all[2 * j] !in OddIndexed(all)
  {
    var odd := OddIndexed(all);
    forall k | 0 <= k < |odd|
      ensures odd[k] != all[2 * j]
    {
      var a := 2 * k + 1;
      assert odd[k] == all[a];
      if a < 2 * j {
        assert all[a] != all[2 * j];
      } else {
        assert all[2 * j] != all[a];
      }
    }
  }

  /** The same loop over a copy of the list: every running wrap is destroyed. */
  method DestroyRunning(m: TaskMeta)
    requires m.RunningValid()
    modifies m`tasksInRunning, m.tasksInRunning, RefsOf(m.tasksInRunning)
    ensures m.tasksInRunning == []
    ensures forall w :: w in old(m.tasksInRunning) ==> w.Ended()
    ensures m.RunningValid()
  {
    var all := m.tasksInRunning;
    for i := 0 to |all|
      invariant m.tasksInRunning == all[i..]
      invariant forall k :: 0 <= k < i ==> all[k].Ended()
      invariant forall k :: 0 <= k < |all| ==> all[k].meta == m
      invariant m.RunningValid()
    {
      DestroyAt(m, all[i], 0);
      assert all[i..][1..] == all[i + 1..];
    }
  }

  /** The registry part of the unregister loop state: `reg` holds the keys
      not yet visited and the visited keys the plugin does not own, each with
      its original meta. */
  ghost predicate DropKeys(pluginName: string, reg: map<string, TaskMeta>, std: map<string, TaskMeta>,
                           lists: map<string, seq<TaskWrap>>, keys: set<string>, done: set<string>)
  {
    && keys !! done && keys + done == std.Keys == lists.Keys
    && (forall k :: k in reg <==> k in keys || (k in done && std[k].owner != Some(pluginName)))
    && (forall k :: k in reg ==> reg[k] == std[k])
    && (forall k1, k2 :: k1 in std && k2 in std && k1 != k2 ==> std[k1] != std[k2])
  }

  /** Removing a visited key the plugin owns moves the registry part on. */
  lemma DropKeysStep(pluginName: string, reg: map<string, TaskMeta>, std: map<string, TaskMeta>,
                     lists: map<string, seq<TaskWrap>>, keys: set<string>, done: set<string>, key: string)
    requires DropKeys(pluginName, reg, std, lists, keys, done) && key in keys && reg[key].owner == Some(pluginName)
    ensures DropKeys(pluginName, reg - {key}, std, lists, keys - {key}, done + {key})
  {
  }

  /** The running lists part of the unregister loop state: the plugin's
      visited entries have empty lists, and every other entry keeps its list
      and its consistency. */
  ghost predicate DropLists(pluginName: string, std: map<string, TaskMeta>, lists: map<string, seq<TaskWrap>>,
                            done: set<string>)
    reads std.Values
  {
    && (forall k :: k in std && k in lists && !(k in done && std[k].owner == Some(pluginName)) ==>
          std[k].tasksInRunning == lists[k] && std[k].RunningValid())
    && (forall k :: k in std && k in done && std[k].owner == Some(pluginName) ==> std[k].tasksInRunning == [])
  }

  /** The wraps of the plugin's visited entries have settled. */
  ghost predicate DropSettled(pluginName: string, std: map<string, TaskMeta>, lists: map<string, seq<TaskWrap>>,
                              run: set<TaskWrap>, done: set<string>)
    reads run
  {
    forall k, w :: k in done && k in std && k in lists && std[k].owner == Some(pluginName) && w in lists[k] && w in run ==>
      w.Settled()
  }

  /** Destroys the running wraps of the meta at `key`; the metas at the other
      keys, and the wraps listed under them in `lists`, are left alone. */
  method DropOwned(ghost std: map<string, TaskMeta>, ghost lists: map<string, seq<TaskWrap>>, key: string, m: TaskMeta,
                   ghost pluginName: string, ghost run: set<TaskWrap>, ghost done: set<string>)
    requires key in std && std[key] == m && m.RunningValid()
    requires forall k1, k2 :: k1 in std && k2 in std && k1 != k2 ==> std[k1] != std[k2]
    requires forall k, w :: k in lists && w in lists[k] ==> k in std && w.meta == std[k]
    requires key in lists && lists[key] == m.tasksInRunning
    modifies m`tasksInRunning, m.tasksInRunning, RefsOf(m.tasksInRunning)
    ensures m.tasksInRunning == []
    ensures forall w :: w in old(m.tasksInRunning) ==> w.Ended()
    ensures forall k :: k in std && k != key ==> unchanged(std[k])
    ensures old(DropSettled(pluginName, std, lists, run, done)) ==> DropSettled(pluginName, std, lists, run, done + {key})
    ensures old(DropLists(pluginName, std, lists, done)) && m.owner == Some(pluginName) ==>
      DropLists(pluginName, std, lists, done + {key})
  {
    ghost var before := m.tasksInRunning;
    DestroyRunning(m);
    forall k, w | k in lists && w in lists[k]
      ensures w.Settled() || (k != key && w.state == old(w.state))
    {
      if k != key {
        assert w.meta != m;
        assert w !in before;
      }
    }
  }

  /** The guard of createTask as written: the task must be registered and its
      constructor's `setup` falsy. */
  function CreateGuardAsWritten(ctor: Option<Val>): (r: Result<(), string>)
    ensures r.Ok? <==> ctor.Some? && !Truthy(OptGet(ctor.value, "setup"))
  {
    if ctor.None? then Err("")
    else if Truthy(OptGet(ctor.value, "setup")) then Err("")
    else Ok(())
  }

  /** As written the guard rejects every registered task, because registration
      keeps only constructors whose `setup` is a function. */
  lemma RegisteredTaskRejectedAsWritten(ctor: Val)
    requires IsStandardTask(ctor) == Ok(true)
    ensures CreateGuardAsWritten(Some(ctor)).Err?
  {
  }

  /** The guard as intended: the task must be registered with a `setup`. */
  function CreateGuard(ctor: Option<Val>): (r: Result<(), string>)
    ensures r.Ok? <==> ctor.Some? && Truthy(OptGet(ctor.value, "setup"))
  {
    if ctor.None? then Err("")
    else if !Truthy(OptGet(ctor.value, "setup")) then Err("")
    else Ok(())
  }

  /** The intended guard admits exactly the registered standard tasks. */
  lemma RegisteredTaskAccepted(ctor: Val)
    requires IsStandardTask(ctor) == Ok(true)
    ensures CreateGuard(Some(ctor)).Ok?
  {
  }

  class TaskManager {
    var closed: bool
    var registeredStdTask: map<string, TaskMeta>
    var registeredStdNames: map<Option<string>, set<string>>
    var nonStdTaskTree: map<string, set<NonStdMeta>>
    /** The tasks table, by row id, and the next id it assigns. */
    var tasksTable: map<nat, TaskRow>
    var nextRowId: nat

    ghost function Metas(): set<TaskMeta>
      reads this`registeredStdTask
    {
      set k | k in registeredStdTask :: registeredStdTask[k]
    }

    ghost function Running(): set<TaskWrap>
      reads this`registeredStdTask, Metas()
    {
      set m, w | m in Metas() && w in m.tasksInRunning :: w
    }

    ghost function RunningRefs(): set<TaskRef>
      reads this`registeredStdTask, Metas()
    {
      set w | w in Running() :: w.ref
    }

    /** The objects of the registry that unregistering may change. */
    ghost function Repr(): set<object>
      reads this`registeredStdTask, Metas()
    {
      Metas() + Running() + RunningRefs()
    }

    /** Distinct keys hold distinct metas, every registered constructor is
        standard, and every running list is consistent. */
    ghost predicate Valid()
      reads this`registeredStdTask, Metas()
    {
      && (forall k1, k2 :: k1 in registeredStdTask && k2 in registeredStdTask && k1 != k2 ==>
            registeredStdTask[k1] != registeredStdTask[k2])
      && (forall k :: k in registeredStdTask ==> OptGet(registeredStdTask[k].taskConstructor, "setup").Fn?)
      && (forall m :: m in Metas() ==> m.RunningValid())
    }

    constructor (tasksTable: map<nat, TaskRow>, nextRowId: nat)
      ensures Valid()
      ensures !closed && registeredStdTask == map[] && registeredStdNames == map[] && nonStdTaskTree == map[]
      ensures this.tasksTable == tasksTable && this.nextRowId == nextRowId
    {
      closed := false;
      registeredStdTask := map[];
      registeredStdNames := map[];
      nonStdTaskTree := map[];
      this.tasksTable := tasksTable;
      this.nextRowId := nextRowId;
    }

    /** register: a standard task gets a fresh meta under its key and its name in
        the owner's name set; any other constructor is added to the non-standard
        tree under its task name. A nullish constructor throws. */
    method Register(plugin: PluginArg, taskName: string, taskConstructor: Val) returns (r: Result<(), string>)
      requires Valid()
      modifies this`registeredStdTask, this`registeredStdNames, this`nonStdTaskTree
      ensures Valid()
      ensures r.Err? <==> Nullish(taskConstructor)
      ensures r.Err? ==> unchanged(this)
      ensures r.Ok? && OptGet(taskConstructor, "setup").Fn? ==>
        var owner := OwnerOf(plugin);
        var key := StdKey(owner, taskName);
        && key in registeredStdTask && fresh(registeredStdTask[key])
        && registeredStdTask[key].owner == owner && registeredStdTask[key].taskName == taskName
        && registeredStdTask[key].taskConstructor == taskConstructor
        && registeredStdTask[key].tasksInRunning == []
        && (forall k :: k in old(registeredStdTask) && k != key ==> k in registeredStdTask && registeredStdTask[k] == old(registeredStdTask)[k])
        && registeredStdTask.Keys == old(registeredStdTask).Keys + {key}
        && registeredStdNames == old(registeredStdNames)[owner :=
             (if owner in old(registeredStdNames) then old(registeredStdNames)[owner] else {}) + {taskName}]
        && nonStdTaskTree == old(nonStdTaskTree)
      ensures r.Ok? && !OptGet(taskConstructor, "setup").Fn? ==>
        && registeredStdTask == old(registeredStdTask) && registeredStdNames == old(registeredStdNames)
        && nonStdTaskTree.Keys == old(nonStdTaskTree).Keys + {taskName}
        && (forall t :: t in old(nonStdTaskTree) && t != taskName ==> nonStdTaskTree[t] == old(nonStdTaskTree)[t])
        && (exists n: NonStdMeta :: fresh(n) && n.owner == OwnerOf(plugin) && n.taskName == taskName && n.taskConstructor == taskConstructor &&
              nonStdTaskTree[taskName] == (if taskName in old(nonStdTaskTree) then old(nonStdTaskTree)[taskName] else {}) + {n})
    {
      var standard := IsStandardTask(taskConstructor);
      if standard.Err? {
        return Err(standard.error);
      }
      var owner := OwnerOf(plugin);
      if standard.value {
        AddStd(owner, taskName, taskConstructor);
      } else {
        AddNonStd(owner, taskName, taskConstructor);
      }
      r := Ok(());
    }

    /** The standard branch of register: a fresh meta under its key and the
        name in the owner's set. */
    method AddStd(owner: Option<string>, taskName: string, taskConstructor: Val)
      requires Valid() && OptGet(taskConstructor, "setup").Fn?
      modifies this`registeredStdTask, this`registeredStdNames
      ensures Valid()
      ensures var key := StdKey(owner, taskName);
        && key in registeredStdTask && fresh(registeredStdTask[key])
        && registeredStdTask[key].owner == owner && registeredStdTask[key].taskName == taskName
        && registeredStdTask[key].taskConstructor == taskConstructor
        && registeredStdTask[key].tasksInRunning == []
        && (forall k :: k in old(registeredStdTask) && k != key ==> k in registeredStdTask && registeredStdTask[k] == old(registeredStdTask)[k])
        && registeredStdTask.Keys == old(registeredStdTask).Keys + {key}
        && registeredStdNames == old(registeredStdNames)[owner :=
             (if owner in old(registeredStdNames) then old(registeredStdNames)[owner] else {}) + {taskName}]
    {
      var meta := new TaskMeta(owner, taskName, taskConstructor);
      registeredStdTask := registeredStdTask[StdKey(owner, taskName):= meta];
      if owner in registeredStdNames {
        registeredStdNames := registeredStdNames[owner := registeredStdNames[owner] + {taskName}];
      } else {
        assert {} + {taskName} == {taskName};
        registeredStdNames := registeredStdNames[owner := {taskName}];
      }
    }

    /** The other branch of register: a fresh registration joins the set of its
        task name. */
    method AddNonStd(owner: Option<string>, taskName: string, taskConstructor: Val)
      modifies this`nonStdTaskTree
      ensures nonStdTaskTree.Keys == old(nonStdTaskTree).Keys + {taskName}
      ensures forall t :: t in old(nonStdTaskTree) && t != taskName ==> nonStdTaskTree[t] == old(nonStdTaskTree)[t]
      ensures exists n: NonStdMeta ::
        && fresh(n) && n.owner == owner && n.taskName == taskName && n.taskConstructor == taskConstructor
        && nonStdTaskTree[taskName] == (if taskName in old(nonStdTaskTree) then old(nonStdTaskTree)[taskName] else {}) + {n}
    {
      var n := new NonStdMeta(owner, taskName, taskConstructor);
      if taskName in nonStdTaskTree {
        nonStdTaskTree := nonStdTaskTree[taskName := nonStdTaskTree[taskName] + {n}];
      } else {
        nonStdTaskTree := nonStdTaskTree[taskName := {n}];
      }
    }

    /** unRegisterTaskByPlugin: every standard task of the plugin has its running
        wraps destroyed and its entry removed, its name set is deleted, and its
        non-standard registrations leave every set. */
    method UnRegisterTaskByPlugin(pluginName: string)
      requires Valid()
      modifies this`registeredStdTask, this`registeredStdNames, this`nonStdTaskTree, Repr()
      ensures Valid() && Repr() <= old(Repr())
      ensures forall k :: k in registeredStdTask <==>
        k in old(registeredStdTask) && old(registeredStdTask)[k].owner != Some(pluginName)
      ensures forall k :: k in registeredStdTask ==> registeredStdTask[k] == old(registeredStdTask)[k]
      ensures forall k :: k in registeredStdTask ==> registeredStdTask[k].tasksInRunning == old(registeredStdTask[k].tasksInRunning)
      ensures forall k :: k in old(registeredStdTask) && old(registeredStdTask)[k].owner == Some(pluginName) ==>
        old(registeredStdTask)[k].tasksInRunning == []
      ensures forall k, w :: k in old(registeredStdTask) && old(registeredStdTask)[k].owner == Some(pluginName) && w in old(registeredStdTask[k].tasksInRunning) ==> w.Ended()
      ensures registeredStdNames == old(registeredStdNames) - {Some(pluginName)}
      ensures nonStdTaskTree.Keys == old(nonStdTaskTree).Keys
      ensures forall t :: t in nonStdTaskTree ==>
        nonStdTaskTree[t] == set n | n in old(nonStdTaskTree)[t] && n.owner != Some(pluginName)
    {
      SelfOutside();
      ForgetNames(pluginName);
      DropStdTasks(pluginName);
    }

    /** The footprint holds metas, wraps and references, never the manager. */
    lemma SelfOutside()
      ensures this !in Repr()
    {
    }

    /** The name part of unRegisterTaskByPlugin: the plugin's name set is
        deleted and its non-standard registrations leave every set. It touches
        none of the state the standard part does, so the two parts commute and
        the model runs this one first. */
    method ForgetNames(pluginName: string)
      modifies this`registeredStdNames, this`nonStdTaskTree
      ensures Repr() == old(Repr())
      ensures registeredStdNames == old(registeredStdNames) - {Some(pluginName)}
      ensures nonStdTaskTree.Keys == old(nonStdTaskTree).Keys
      ensures forall t :: t in nonStdTaskTree ==>
        nonStdTaskTree[t] == set n | n in old(nonStdTaskTree)[t] && n.owner != Some(pluginName)
    {
      registeredStdNames := registeredStdNames - {Some(pluginName)};
      PurgeNonStd(pluginName);
    }

    /** The standard part of unRegisterTaskByPlugin. */
    method DropStdTasks(pluginName: string)
      requires Valid()
      modifies this`registeredStdTask, Repr()
      ensures Valid() && Repr() <= old(Repr())
      ensures forall k :: k in registeredStdTask <==>
        k in old(registeredStdTask) && old(registeredStdTask)[k].owner != Some(pluginName)
      ensures forall k :: k in registeredStdTask ==> registeredStdTask[k] == old(registeredStdTask)[k]
      ensures forall k :: k in registeredStdTask ==> registeredStdTask[k].tasksInRunning == old(registeredStdTask[k].tasksInRunning)
      ensures forall k :: k in old(registeredStdTask) && old(registeredStdTask)[k].owner == Some(pluginName) ==>
        old(registeredStdTask)[k].tasksInRunning == []
      ensures forall k, w :: k in old(registeredStdTask) && old(registeredStdTask)[k].owner == Some(pluginName) && w in old(registeredStdTask[k].tasksInRunning) ==> w.Ended()
    {
      ghost var std0 := registeredStdTask;
      ghost var lists := map k | k in std0 :: std0[k].tasksInRunning;
      ghost var run0 := Running();
      ghost var refs0 := RunningRefs();
      assert std0.Values == Metas();
      forall k, w: TaskWrap | k in lists && w in lists[k]
        ensures w in run0 && w.ref in refs0 && w.meta == std0[k]
      {
        assert std0[k] in Metas() && w in std0[k].tasksInRunning;
        assert std0[k].RunningValid();
      }
      DropInvStart(pluginName, std0, lists);
      var keys := registeredStdTask.Keys;
      ghost var done: set<string> := {};
      while keys != {}
        invariant DropInv(pluginName, std0, lists, keys, done)
        invariant DropSettled(pluginName, std0, lists, run0, done)
        decreases keys
      {
        var key :| key in keys;
        DropStep(pluginName, std0, lists, run0, refs0, key, keys, done);
        keys := keys - {key};
        done := done + {key};
      }
      DropInvEnd(pluginName, std0, lists, done);
      DroppedEnded(pluginName, std0, lists, run0);
      ReprWithin(std0, lists, run0, refs0);
    }

    /** Once every entry of the plugin has been visited, each of its old wraps
        has settled and has left the running list of its meta, now empty. */
    lemma DroppedEnded(pluginName: string, std: map<string, TaskMeta>, lists: map<string, seq<TaskWrap>>,
                       run: set<TaskWrap>)
      requires DropSettled(pluginName, std, lists, run, std.Keys) && std.Keys == lists.Keys
      requires forall k, w :: k in lists && w in lists[k] ==> w in run && w.meta == std[k]
      requires forall k :: k in std && std[k].owner == Some(pluginName) ==> std[k].tasksInRunning == []
      ensures forall k, w :: k in std && std[k].owner == Some(pluginName) && w in lists[k] ==> w.Ended()
    {
    }

    /** What is left of the registry lies within the original table and the
        wraps and references of its running lists. */
    lemma ReprWithin(std: map<string, TaskMeta>, lists: map<string, seq<TaskWrap>>,
                     run: set<TaskWrap>, refs: set<TaskRef>)
      requires forall k :: k in registeredStdTask ==> k in std && registeredStdTask[k] == std[k]
      requires forall k :: k in registeredStdTask ==> k in lists && registeredStdTask[k].tasksInRunning == lists[k]
      requires forall k, w :: k in lists && w in lists[k] ==> w in run && w.ref in refs
      ensures Repr() <= std.Values + run + refs
    {
      forall o | o in Repr()
        ensures o in std.Values + run + refs
      {
        if o in Metas() {
          var k :| k in registeredStdTask && registeredStdTask[k] == o;
        } else if o in Running() {
          var m, w :| m in Metas() && w in m.tasksInRunning && w == o;
          var k :| k in registeredStdTask && registeredStdTask[k] == m;
        } else {
          var w :| w in Running() && w.ref == o;
          var m :| m in Metas() && w in m.tasksInRunning;
          var k :| k in registeredStdTask && registeredStdTask[k] == m;
        }
      }
    }

    /** The loop invariant holds before the first visit. */
    lemma DropInvStart(pluginName: string, std: map<string, TaskMeta>, lists: map<string, seq<TaskWrap>>)
      requires Valid() && std == registeredStdTask
      requires lists == map k | k in std :: std[k].tasksInRunning
      ensures DropInv(pluginName, std, lists, std.Keys, {})
    {
      assert forall k :: k in registeredStdTask ==> registeredStdTask[k] in Metas();
    }

    /** Once every key has been visited, exactly the plugin's entries are gone
        and the registry is consistent again. */
    lemma DropInvEnd(pluginName: string, std: map<string, TaskMeta>, lists: map<string, seq<TaskWrap>>,
                     done: set<string>)
      requires DropInv(pluginName, std, lists, {}, done)
      requires forall k :: k in std ==> OptGet(std[k].taskConstructor, "setup").Fn?
      ensures Valid()
      ensures forall k :: k in registeredStdTask <==> k in std && std[k].owner != Some(pluginName)
      ensures forall k :: k in registeredStdTask ==> registeredStdTask[k] == std[k]
      ensures forall k :: k in registeredStdTask ==> registeredStdTask[k].tasksInRunning == lists[k]
      ensures forall k :: k in std && std[k].owner == Some(pluginName) ==> std[k].tasksInRunning == []
    {
      forall m | m in Metas()
        ensures m.RunningValid()
      {
        var k :| k in registeredStdTask && registeredStdTask[k] == m;
      }
    }

    /** The loop state of unRegisterTaskByPlugin over the original table `std`,
        whose running lists were `lists`: the keys in `done` have been visited,
        the plugin's among them removed with their lists emptied, and the others
        kept as they were. */
    ghost predicate DropInv(pluginName: string, std: map<string, TaskMeta>, lists: map<string, seq<TaskWrap>>,
                            keys: set<string>, done: set<string>)
      reads this`registeredStdTask, std.Values
    {
      DropKeys(pluginName, registeredStdTask, std, lists, keys, done) && DropLists(pluginName, std, lists, done)
    }

    /** One visit of the loop: the entry at `key` is dropped if the plugin owns it. */
    method DropStep(pluginName: string, ghost std: map<string, TaskMeta>, ghost lists: map<string, seq<TaskWrap>>,
                    ghost run: set<TaskWrap>, ghost refs: set<TaskRef>,
                    key: string, ghost keys: set<string>, ghost done: set<string>)
      requires DropInv(pluginName, std, lists, keys, done) && key in keys
      requires forall k, w :: k in lists && w in lists[k] ==> w in run && w.ref in refs && w.meta == std[k]
      requires DropSettled(pluginName, std, lists, run, done)
      modifies this`registeredStdTask, std.Values, run, refs
      ensures DropInv(pluginName, std, lists, keys - {key}, done + {key})
      ensures DropSettled(pluginName, std, lists, run, done + {key})
    {
      if registeredStdTask[key].owner == Some(pluginName) {
        DropEntry(pluginName, std, lists, run, refs, key, keys, done);
      }
    }

    /** The visit of an entry the plugin owns: its wraps are destroyed and the
        entry is removed. */
    method DropEntry(pluginName: string, ghost std: map<string, TaskMeta>, ghost lists: map<string, seq<TaskWrap>>,
                     ghost run: set<TaskWrap>, ghost refs: set<TaskRef>,
                     key: string, ghost keys: set<string>, ghost done: set<string>)
      requires DropInv(pluginName, std, lists, keys, done) && key in keys
      requires registeredStdTask[key].owner == Some(pluginName)
      requires forall k, w :: k in lists && w in lists[k] ==> w in run && w.ref in refs && w.meta == std[k]
      requires DropSettled(pluginName, std, lists, run, done)
      modifies this`registeredStdTask, std.Values, run, refs
      ensures DropInv(pluginName, std, lists, keys - {key}, done + {key})
      ensures DropSettled(pluginName, std, lists, run, done + {key})
    {
      var meta := registeredStdTask[key];
      assert meta.tasksInRunning == lists[key];
      assert RefsOf(meta.tasksInRunning) <= refs;
      DropKeysStep(pluginName, registeredStdTask, std, lists, keys, done, key);
      DropOwned(std, lists, key, meta, pluginName, run, done);
      registeredStdTask := registeredStdTask - {key};
    }

    /** The non-standard part of unRegisterTaskByPlugin: the plugin's registrations
        leave every set of the tree. */
    method PurgeNonStd(pluginName: string)
      modifies this`nonStdTaskTree
      ensures nonStdTaskTree.Keys == old(nonStdTaskTree).Keys
      ensures forall t :: t in nonStdTaskTree ==>
        nonStdTaskTree[t] == set n | n in old(nonStdTaskTree)[t] && n.owner != Some(pluginName)
    {
      var names := nonStdTaskTree.Keys;
      while names != {}
        invariant names <= nonStdTaskTree.Keys == old(nonStdTaskTree).Keys
        invariant forall t :: t in nonStdTaskTree && t !in names ==>
          nonStdTaskTree[t] == set n | n in old(nonStdTaskTree)[t] && n.owner != Some(pluginName)
        invariant forall t :: t in names ==> nonStdTaskTree[t] == old(nonStdTaskTree)[t]
        decreases names
      {
        var t :| t in names;
        nonStdTaskTree := nonStdTaskTree[t := set n | n in nonStdTaskTree[t] && n.owner != Some(pluginName)];
        names := names - {t};
      }
    }

    /** execTask: refuses once closed; otherwise a fresh pending reference. */
    method ExecTask(taskId: nat) returns (r: Result<TaskRef, string>)
      ensures r.Err? <==> closed
      ensures r.Ok? ==> (fresh(r.value) && r.value.taskId == taskId && r.value.state == Pending &&
        r.value.successCb == None && r.value.destroyCb == None && r.value.successCalls == [])
    {
      if closed {
        return Err("");
      }
      var ref := new TaskRef(taskId);
      r := Ok(ref);
    }

    /** The asynchronous part of execTask: the task's row names its plugin and task,
        and a wrap starts on the registered meta. A missing row throws at once. A
        missing meta throws inside the wrap's constructor, after it has opened its
        progress handle and sent pending; `orphaned` is what that handle, never
        ended, has carried. */
    method StartTask(ref: TaskRef, scheduleId: nat) returns (r: Result<TaskWrap, string>, orphaned: seq<ProgressEvent>)
      requires Valid()
      modifies Metas(), ref`destroyCb
      ensures Valid()
      ensures r.Ok? <==> (ref.taskId in tasksTable &&
        StdKey(Some(tasksTable[ref.taskId].plugin), tasksTable[ref.taskId].task) in registeredStdTask)
      ensures r.Ok? ==>
        var meta := registeredStdTask[StdKey(Some(tasksTable[ref.taskId].plugin), tasksTable[ref.taskId].task)];
        && fresh(r.value) && r.value.meta == meta && r.value.ref == ref && r.value.state == Pending
        && r.value.settings == tasksTable[ref.taskId].settings && r.value.scheduleId == scheduleId
        && meta.tasksInRunning == old(meta.tasksInRunning) + [r.value]
        && ref.destroyCb == Some(r.value)
      ensures r.Err? ==> unchanged(Metas()) && unchanged(ref)
      ensures r.Ok? || ref.taskId !in tasksTable ==> orphaned == []
      ensures r.Err? && ref.taskId in tasksTable ==> orphaned == [StateChange(scheduleId, Pending)]
    {
      orphaned := [];
      if ref.taskId !in tasksTable {
        return Err("TypeError"), orphaned;
      }
      var row := tasksTable[ref.taskId];
      var key := StdKey(Some(row.plugin), row.task);
      if key !in registeredStdTask {
        // The wrap's constructor opens its progress handle and sends pending
        // before pushing onto the missing meta throws; the handle stays open.
        orphaned := [StateChange(scheduleId, Pending)];
        return Err("TypeError"), orphaned;
      }
      var meta := registeredStdTask[key];
      var w := new TaskWrap(ref, ref.taskId, scheduleId, meta, row.settings);
      r := Ok(w);
    }

    /** createTask: the guard, then a new row whose id the table assigns. */
    method CreateTask(pluginName: string, taskName: string, name: Val, settings: Val) returns (r: Result<nat, string>)
      modifies this`tasksTable, this`nextRowId
      ensures var key := StdKey(Some(pluginName), taskName);
        r.Ok? <==> CreateGuard(if key in registeredStdTask then Some(registeredStdTask[key].taskConstructor) else None).Ok?
      ensures r.Ok? ==> (r.value == old(nextRowId) && nextRowId == old(nextRowId) + 1 &&
        tasksTable == old(tasksTable)[r.value := TaskRow(pluginName, taskName, name, settings)])
      ensures r.Err? ==> tasksTable == old(tasksTable) && nextRowId == old(nextRowId)
    {
      var key := StdKey(Some(pluginName), taskName);
      var guard := CreateGuard(if key in registeredStdTask then Some(registeredStdTask[key].taskConstructor) else None);
      if guard.Err? {
        return Err(guard.error);
      }
      var id := nextRowId;
      tasksTable := tasksTable[id := TaskRow(pluginName, taskName, name, settings)];
      nextRowId := nextRowId + 1;
      r := Ok(id);
    }

    /** close: no task starts afterwards. */
    method Close()
      modifies this`closed
      ensures closed
    {
      closed := true;
    }
  }

  /** Two runs of one task are running when its plugin is unregistered as written:
      the first is destroyed and the second keeps running. */
  method SecondRunSurvivesUnregister() returns (firstEnded: bool, secondRunning: bool)
    ensures firstEnded && secondRunning
  {
    var meta := new TaskMeta(Some("p"), "t", Obj(map["setup" := Fn(0)]));
    var r1 := new TaskRef(1);
    var r2 := new TaskRef(2);
    var w1 := new TaskWrap(r1, 1, 1, meta, Undefined);
    var w2 := new TaskWrap(r2, 2, 2, meta, Undefined);
    assert meta.tasksInRunning == [w1, w2];
    ghost var before := meta.tasksInRunning;
    DestroyRunningAsWritten(meta);
    assert before[2 * 0] == w1 && before[2 * 0].Ended();
    assert meta.tasksInRunning == [w2] && w2.Attached();
    firstEnded, secondRunning := !w1.Attached() && w1.Settled(), w2.Attached();
  }
}
