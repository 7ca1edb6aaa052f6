/** The message bus of packages/core/src/message/index.ts. Messages are objects:
    a consumer's buffer holds the same message objects as the shared buffer, so
    marking one consumed is seen by every consumer. A `send` callback is an
    abstract `Sender`; a send that has been started is outstanding until the
    environment settles it, successfully or not. */
module Message {
  import opened Common

  /** A bus message; `consumed` is the only field that changes after creation. */
  class Msg {
    const channel: string
    const consumable: bool
    const id: Option<string>
    const body: Val
    var consumed: bool

    constructor (channel: string, consumable: bool, id: Option<string>, body: Val, consumed: bool)
      ensures this.channel == channel && this.consumable == consumable && this.id == id
      ensures this.body == body && this.consumed == consumed
    {
      this.channel := channel;
      this.consumable := consumable;
      this.id := id;
      this.body := body;
      this.consumed := consumed;
    }
  }

  /** The identity of a consumer's `send` callback. */
  class Sender {
    constructor ()
    {
    }
  }

  /** The closure state created by registerConsumer's createJob: the private buffer,
      the `isRunning` and `isClose` flags, the send currently awaited, the messages
      handed to `send` so far, and whether the drain ended by throwing. */
  class ConsumerJob {
    const send: Sender
    var buffer: seq<Msg>
    var isRunning: bool
    var isClose: bool
    var inFlight: Option<Msg>
    var sent: seq<Msg>
    var failed: bool

    constructor (send: Sender, buffer: seq<Msg>)
      ensures this.send == send && this.buffer == buffer
      ensures !isRunning && !isClose && inFlight == None && sent == [] && !failed
    {
      this.send := send;
      this.buffer := buffer;
      isRunning := false;
      isClose := false;
      inFlight := None;
      sent := [];
      failed := false;
    }

    /** A send is awaited only inside a running drain, and an idle open job has
        nothing left in its buffer. */
    predicate Ok()
      reads this
    {
      && (inFlight.Some? ==> isRunning)
      && (!isRunning && !isClose ==> buffer == [])
    }
  }

  /** A handle returned by `progress`. */
  class ProgressHandle {
    const channel: string
    const source: Val
    var open: bool

    constructor (channel: string, source: Val)
      ensures this.channel == channel && this.source == source && open
    {
      this.channel := channel;
      this.source := source;
      open := true;
    }
  }

  /** isConsumable: the message says it is consumable. */
  predicate IsConsumable(m: Msg)
  {
    m.consumable
  }

  /** A consumable item already marked consumed is skipped by the drain. */
  predicate Skipped(m: Msg)
    reads m
  {
    IsConsumable(m) && m.consumed
  }

  /** `buffer.shift() ?? normal.shift()`: the item taken and what remains of both. */
  datatype Taken = Taken(item: Option<Msg>, buffer: seq<Msg>, normal: seq<Msg>)

  function Shift(buffer: seq<Msg>, normal: seq<Msg>): (t: Taken)
    ensures buffer != [] ==> t == Taken(Some(buffer[0]), buffer[1..], normal)
    ensures buffer == [] && normal != [] ==> t == Taken(Some(normal[0]), [], normal[1..])
    ensures buffer == [] && normal == [] ==> t == Taken(None, [], [])
  {
    if buffer != [] then Taken(Some(buffer[0]), buffer[1..], normal)
    else if normal != [] then Taken(Some(normal[0]), [], normal[1..])
    else Taken(None, [], [])
  }

  /** The next item an open drain hands to `send`, skipping consumed items, and
      what remains of both buffers once it has been taken. */
  function NextItem(buffer: seq<Msg>, normal: seq<Msg>): (t: Taken)
    reads buffer, normal
    ensures t.item.Some? ==> !Skipped(t.item.value)
    ensures t.item.None? ==> t.buffer == [] && t.normal == []
    ensures buffer == [] && normal == [] ==> t.item.None?
    decreases |buffer| + |normal|
  {
    var s := Shift(buffer, normal);
    if s.item.Some? && Skipped(s.item.value) then NextItem(s.buffer, s.normal) else s
  }

  /** The drain after it has just taken `t.item`. */
  function Continue(t: Taken): Taken
    reads t.buffer, t.normal, if t.item.Some? then {t.item.value} else {}
  {
    if t.item.Some? && Skipped(t.item.value) then NextItem(t.buffer, t.normal) else t
  }

  /** Draining is taking one item and continuing from it. */
  lemma NextItemUnfolds(buffer: seq<Msg>, normal: seq<Msg>)
    ensures NextItem(buffer, normal) == Continue(Shift(buffer, normal))
  {
  }

  /** How many consumed items the drain passes over before it stops. */
  ghost function SkipCount(buffer: seq<Msg>, normal: seq<Msg>): nat
    reads buffer, normal
    decreases |buffer| + |normal|
  {
    var s := Shift(buffer, normal);
    if s.item.Some? && Skipped(s.item.value) then 1 + SkipCount(s.buffer, s.normal) else 0
  }

  /** Taking one item is taking the head of the two buffers read as one queue. */
  lemma ShiftConcat(buffer: seq<Msg>, normal: seq<Msg>)
    ensures var s := Shift(buffer, normal);
      && (buffer + normal == [] <==> s.item.None?)
      && (s.item.Some? ==> s.item.value == (buffer + normal)[0] && s.buffer + s.normal == (buffer + normal)[1..])
  {
    if buffer != [] {
      assert (buffer + normal)[1..] == buffer[1..] + normal;
    }
  }

  /** The drain reads the private buffer followed by the replay buffer as one FIFO
      queue: it passes over a run of consumed items, then either delivers the next
      item and leaves exactly the rest of the queue, or reaches the end. */
  lemma {:induction false} NextItemSplits(buffer: seq<Msg>, normal: seq<Msg>)
    ensures var t := NextItem(buffer, normal);
      var all := buffer + normal;
      var k := SkipCount(buffer, normal);
      && k <= |all|
      && (forall i :: 0 <= i < k ==> Skipped(all[i]))
      && (t.item.Some? ==> k < |all| && t.item.value == all[k] && t.buffer + t.normal == all[k + 1..])
      && (t.item.None? ==> k == |all|)
    decreases |buffer| + |normal|
  {
    var s := Shift(buffer, normal);
    ShiftConcat(buffer, normal);
    var all := buffer + normal;
    if s.item.Some? && Skipped(s.item.value) {
      var rest := s.buffer + s.normal;
      assert rest == all[1..];
      NextItemSplits(s.buffer, s.normal);
      var t := NextItem(buffer, normal);
      assert t == NextItem(s.buffer, s.normal);
      var k := SkipCount(buffer, normal);
      assert k == 1 + SkipCount(s.buffer, s.normal);
      forall i | 0 <= i < k
        ensures Skipped(all[i])
      {
        if i > 0 {
          assert all[i] == rest[i - 1];
        }
      }
      if t.item.Some? {
        assert all[k + 1..] == rest[k..];
      }
    } else {
      assert NextItem(buffer, normal) == s;
      assert SkipCount(buffer, normal) == 0;
    }
  }

  /** The drain takes from the replay buffer only once the private buffer has
      nothing left to send. */
  lemma {:induction false} NextItemPrefersBuffer(buffer: seq<Msg>, normal: seq<Msg>)
    requires exists i :: 0 <= i < |buffer| && !Skipped(buffer[i])
    ensures NextItem(buffer, normal).item.Some?
    ensures NextItem(buffer, normal).item.value in buffer
    ensures NextItem(buffer, normal).normal == normal
    decreases |buffer|
  {
    if Skipped(buffer[0]) {
      var i :| 0 <= i < |buffer| && !Skipped(buffer[i]);
      assert i > 0 && buffer[1..][i - 1] == buffer[i];
      NextItemPrefersBuffer(buffer[1..], normal);
    }
  }

  class MessageManager {
    var consumer: map<Sender, ConsumerJob>
    var consumableMessagesBuffer: seq<Msg>
    var normalMessagesBuffer: seq<Msg>
    var pushRefs: set<ConsumerJob>
    var progressRefs: set<ProgressHandle>
    var id: nat

    /** Every job the manager can reach is in a consistent state. */
    predicate Valid()
      reads this, pushRefs, consumer.Values
    {
      && (forall j :: j in pushRefs ==> j.Ok())
      && (forall s :: s in consumer ==> consumer[s].Ok())
    }

    constructor ()
      ensures Valid()
      ensures consumer == map[] && consumableMessagesBuffer == [] && normalMessagesBuffer == []
      ensures pushRefs == {} && progressRefs == {} && id == 0
    {
      consumer := map[];
      consumableMessagesBuffer := [];
      normalMessagesBuffer := [];
      pushRefs := {};
      progressRefs := {};
      id := 0;
    }

    /** The drain loop of `run` from its first `shift` up to the next `await send`
        or its end. A closed job takes one item and stops. */
    method Drain(job: ConsumerJob)
      requires job.isRunning && job.inFlight.None?
      modifies job, this`normalMessagesBuffer
      ensures job.isClose == old(job.isClose) && job.failed == old(job.failed)
      ensures old(job.isClose) ==>
        var t := Shift(old(job.buffer), old(normalMessagesBuffer));
        job.buffer == t.buffer && normalMessagesBuffer == t.normal &&
        !job.isRunning && job.inFlight.None? && job.sent == old(job.sent)
      ensures !old(job.isClose) ==>
        var t := old(NextItem(job.buffer, normalMessagesBuffer));
        && job.buffer == t.buffer && normalMessagesBuffer == t.normal
        && job.inFlight == t.item
        && (job.isRunning <==> t.item.Some?)
        && job.sent == old(job.sent) + (if t.item.Some? then [t.item.value] else [])
      ensures job.Ok()
    {
      var buffer, normal := job.buffer, normalMessagesBuffer;
      ghost var goal := NextItem(buffer, normal);
      NextItemUnfolds(buffer, normal);
      var t := Shift(buffer, normal);
      buffer, normal := t.buffer, t.normal;
      var item := t.item;
      // The loop passes over consumed items; `isClose` cannot change before the next send.
      while item.Some? && !job.isClose && Skipped(item.value)
        invariant !job.isClose ==> Continue(Taken(item, buffer, normal)) == goal
        invariant job.isClose ==> buffer == t.buffer && normal == t.normal
        invariant unchanged(job, this)
        decreases |buffer| + |normal| + (if item.Some? then 1 else 0)
      {
        NextItemUnfolds(buffer, normal);
        var next := Shift(buffer, normal);
        buffer, normal := next.buffer, next.normal;
        item := next.item;
      }
      if item.Some? && !job.isClose {
        job.inFlight := item;
        job.sent := job.sent + [item.value];
      } else {
        job.isRunning := false;
      }
      job.buffer, normalMessagesBuffer := buffer, normal;
    }

    /** `run`: returns at once while a drain is running; otherwise starts one. */
    method Run(job: ConsumerJob)
      requires job.inFlight.Some? ==> job.isRunning
      modifies job, this`normalMessagesBuffer
      ensures old(job.isRunning) ==> (
        && job.buffer == old(job.buffer) && job.inFlight == old(job.inFlight)
        && job.sent == old(job.sent) && job.isRunning && normalMessagesBuffer == old(normalMessagesBuffer))
      ensures !old(job.isRunning) && old(job.isClose) ==> !job.isRunning && job.sent == old(job.sent)
      ensures !old(job.isRunning) && !old(job.isClose) ==>
        var t := NextItem(old(job.buffer), old(normalMessagesBuffer));
        && job.buffer == t.buffer && normalMessagesBuffer == t.normal && job.inFlight == t.item
        && (job.isRunning <==> t.item.Some?)
        && job.sent == old(job.sent) + (if t.item.Some? then [t.item.value] else [])
      ensures job.isClose == old(job.isClose) && job.failed == old(job.failed)
      ensures job.Ok()
    {
      if job.isRunning {
        return;
      }
      job.isRunning := true;
      Drain(job);
    }

    /** The job's `push`: ignored once closed; otherwise buffered and drained. */
    method JobPush(job: ConsumerJob, message: Msg)
      requires job.Ok()
      modifies job, this`normalMessagesBuffer
      ensures old(job.isClose) ==> (
        && job.buffer == old(job.buffer) && job.sent == old(job.sent)
        && job.inFlight == old(job.inFlight) && job.isRunning == old(job.isRunning)
        && normalMessagesBuffer == old(normalMessagesBuffer))
      ensures !old(job.isClose) && old(job.isRunning) ==> (
        && job.buffer == old(job.buffer) + [message] && job.sent == old(job.sent)
        && job.inFlight == old(job.inFlight) && normalMessagesBuffer == old(normalMessagesBuffer))
      ensures !old(job.isClose) && !old(job.isRunning) && !Skipped(message) ==> (
        && job.buffer == [] && job.inFlight == Some(message) && job.sent == old(job.sent) + [message]
        && normalMessagesBuffer == old(normalMessagesBuffer))
      ensures job.isClose == old(job.isClose) && job.failed == old(job.failed)
      ensures job.Ok()
    {
      if job.isClose {
        return;
      }
      job.buffer := job.buffer + [message];
      Run(job);
    }

    /** registerConsumer: a new job whose buffer is a copy of the consumable buffer
        at this moment, registered for pushes and under its `send`, then started. */
    method RegisterConsumer(send: Sender) returns (job: ConsumerJob)
      requires Valid()
      modifies this
      ensures Valid()
      ensures fresh(job) && job.send == send && !job.isClose && !job.failed
      ensures pushRefs == old(pushRefs) + {job}
      ensures consumer == old(consumer)[send := job]
      ensures consumableMessagesBuffer == old(consumableMessagesBuffer) && id == old(id)
      ensures progressRefs == old(progressRefs)
      ensures var t := NextItem(old(consumableMessagesBuffer), old(normalMessagesBuffer));
        && job.buffer == t.buffer && normalMessagesBuffer == t.normal && job.inFlight == t.item
        && (job.isRunning <==> t.item.Some?)
        && job.sent == (if t.item.Some? then [t.item.value] else [])
    {
      job := new ConsumerJob(send, consumableMessagesBuffer);
      pushRefs := pushRefs + {job};
      consumer := consumer[send := job];
      Run(job);
    }

    /** unRegiserConsumer as written: closes the job registered under `cb` and
        forgets it, then deletes `cb` itself from `pushRefs`. That set holds the
        jobs' push functions, never a `send` callback, so it keeps every job. */
    method UnRegiserConsumerAsWritten(cb: Sender)
      requires Valid()
      modifies this`consumer, this`pushRefs, if cb in consumer then {consumer[cb]} else {}
      ensures Valid()
      ensures cb in old(consumer) ==>
        var j := old(consumer)[cb];
        && j.isClose && j.buffer == old(j.buffer) && j.isRunning == old(j.isRunning)
        && j.inFlight == old(j.inFlight) && j.sent == old(j.sent) && j.failed == old(j.failed)
      ensures consumer == old(consumer) - {cb}
      ensures pushRefs == old(pushRefs)
      ensures consumableMessagesBuffer == old(consumableMessagesBuffer)
      ensures normalMessagesBuffer == old(normalMessagesBuffer)
      ensures progressRefs == old(progressRefs) && id == old(id)
    {
      if cb in consumer {
        consumer[cb].isClose := true;
      }
      consumer := consumer - {cb};
      pushRefs := set j | j in pushRefs && j as object != cb as object;
    }

    /** unRegisterConsumer as intended: closes the job registered under `cb`,
        forgets it, and removes that job from `pushRefs`. */
    method UnRegisterConsumer(cb: Sender)
      requires Valid()
      modifies this`consumer, this`pushRefs, if cb in consumer then {consumer[cb]} else {}
      ensures Valid()
      ensures cb in old(consumer) ==>
        var j := old(consumer)[cb];
        && j.isClose && j.buffer == old(j.buffer) && j.isRunning == old(j.isRunning)
        && j.inFlight == old(j.inFlight) && j.sent == old(j.sent) && j.failed == old(j.failed)
      ensures consumer == old(consumer) - {cb}
      ensures pushRefs == if cb in old(consumer) then old(pushRefs) - {old(consumer)[cb]} else old(pushRefs)
      ensures consumableMessagesBuffer == old(consumableMessagesBuffer)
      ensures normalMessagesBuffer == old(normalMessagesBuffer)
      ensures progressRefs == old(progressRefs) && id == old(id)
    {
      if cb in consumer {
        var job := consumer[cb];
        job.isClose := true;
        pushRefs := pushRefs - {job};
      }
      consumer := consumer - {cb};
    }

    /** The awaited `send` of `job` settles. On success the drain goes on; on
        failure the consumer is unregistered and the drain ends by throwing,
        leaving `isRunning` set. */
    method SendSettled(job: ConsumerJob, success: bool)
      requires Valid() && job.Ok() && job.inFlight.Some?
      modifies this, job, if job.send in consumer then {consumer[job.send]} else {}
      ensures Valid() && job.Ok()
      ensures !success ==> job.failed && job.isRunning && job.inFlight.None? && job.sent == old(job.sent)
      ensures !success ==> consumer == old(consumer) - {job.send}
      ensures success && !old(job.isClose) ==>
        var t := NextItem(old(job.buffer), old(normalMessagesBuffer));
        && job.buffer == t.buffer && normalMessagesBuffer == t.normal && job.inFlight == t.item
        && job.sent == old(job.sent) + (if t.item.Some? then [t.item.value] else [])
      ensures success ==> consumer == old(consumer) && pushRefs == old(pushRefs)
      ensures consumableMessagesBuffer == old(consumableMessagesBuffer) && id == old(id)
    {
      job.inFlight := None;
      if !success {
        job.failed := true;
        UnRegisterConsumer(job.send);
        return;
      }
      Drain(job);
    }

    /** What handing `message` to `job`'s push did: nothing once the job is closed,
        queueing behind a running drain, or an immediate send by an idle job. */
    twostate predicate Received(job: ConsumerJob, new message: Msg)
      reads job
    {
      && (old(job.isClose) ==> job.buffer == old(job.buffer) && job.sent == old(job.sent))
      && (!old(job.isClose) && old(job.isRunning) ==>
            job.buffer == old(job.buffer) + [message] && job.sent == old(job.sent))
      && (!old(job.isClose) && !old(job.isRunning) ==>
            job.inFlight == Some(message) && job.sent == old(job.sent) + [message])
    }

    /** push: a consumable message is appended to the shared buffer. With no push
        references a notification is kept for replay; otherwise every referenced
        job receives the message. */
    method Push(message: Msg)
      requires Valid()
      modifies this`consumableMessagesBuffer, this`normalMessagesBuffer, pushRefs
      ensures Valid()
      ensures consumableMessagesBuffer ==
        old(consumableMessagesBuffer) + (if IsConsumable(message) then [message] else [])
      ensures old(pushRefs) == {} ==> (normalMessagesBuffer ==
        old(normalMessagesBuffer) + (if message.channel == "notification" then [message] else []))
      ensures old(pushRefs) != {} && !Skipped(message) ==> normalMessagesBuffer == old(normalMessagesBuffer)
      ensures !Skipped(message) ==> forall j :: j in pushRefs ==> Received(j, message)
    {
      if IsConsumable(message) {
        consumableMessagesBuffer := consumableMessagesBuffer + [message];
      }
      if pushRefs == {} {
        if message.channel == "notification" {
          normalMessagesBuffer := normalMessagesBuffer + [message];
        }
        return;
      }
      var todo := pushRefs;
      while todo != {}
        invariant todo <= pushRefs
        invariant Valid()
        invariant consumableMessagesBuffer ==
          old(consumableMessagesBuffer) + (if IsConsumable(message) then [message] else [])
        invariant !Skipped(message) ==> normalMessagesBuffer == old(normalMessagesBuffer)
        invariant !Skipped(message) ==> forall j :: j in pushRefs && j !in todo ==> Received(j, message)
        invariant forall j :: j in todo ==> (
          && j.buffer == old(j.buffer) && j.sent == old(j.sent) && j.inFlight == old(j.inFlight)
          && j.isRunning == old(j.isRunning) && j.isClose == old(j.isClose))
        decreases todo
      {
        var job :| job in todo;
        JobPush(job, message);
        todo := todo - {job};
      }
    }

    /** The position of the first buffered message with this id, or -1. */
    function FindId(buffer: seq<Msg>, id: string): (pos: int)
      ensures -1 <= pos < |buffer|
      ensures pos == -1 <==> forall i :: 0 <= i < |buffer| ==> buffer[i].id != Some(id)
      ensures pos >= 0 ==> buffer[pos].id == Some(id) && forall i :: 0 <= i < pos ==> buffer[i].id != Some(id)
    {
      if buffer == [] then -1
      else if buffer[0].id == Some(id) then 0
      else var p := FindId(buffer[1..], id); if p == -1 then -1 else p + 1
    }

    /** consume: marks the first buffered message with this id consumed and removes
        it from the shared buffer; an unknown id changes nothing. */
    method Consume(id: string)
      modifies this`consumableMessagesBuffer, consumableMessagesBuffer
      ensures var pos := FindId(old(consumableMessagesBuffer), id);
        && (pos == -1 ==> consumableMessagesBuffer == old(consumableMessagesBuffer))
        && (pos >= 0 ==>
              old(consumableMessagesBuffer)[pos].consumed &&
              consumableMessagesBuffer == old(consumableMessagesBuffer)[..pos] + old(consumableMessagesBuffer)[pos + 1..])
      ensures forall m :: m in old(consumableMessagesBuffer) && m.id != Some(id) ==> m.consumed == old(m.consumed)
    {
      var pos := FindId(consumableMessagesBuffer, id);
      if pos != -1 {
        consumableMessagesBuffer[pos].consumed := true;
        consumableMessagesBuffer := consumableMessagesBuffer[..pos] + consumableMessagesBuffer[pos + 1..];
      }
    }

    /** A notification handler call: a plain message on channel 'notification'. */
    method Notify(source: string, kind: string, text: string) returns (m: Msg)
      requires Valid()
      modifies this`consumableMessagesBuffer, this`normalMessagesBuffer, pushRefs
      ensures Valid()
      ensures fresh(m) && m.channel == "notification" && !m.consumable && m.id == None
      ensures consumableMessagesBuffer == old(consumableMessagesBuffer)
      ensures old(pushRefs) == {} ==> normalMessagesBuffer == old(normalMessagesBuffer) + [m]
      ensures old(pushRefs) != {} ==> normalMessagesBuffer == old(normalMessagesBuffer)
      ensures forall j :: j in pushRefs ==> Received(j, m)
    {
      m := new Msg("notification", false, None,
                   Obj(map["source" := Str(source), "type" := Str(kind), "message" := Str(text)]), false);
      Push(m);
    }

    /** A confirm handler call: a consumable, unconsumed message on channel
        'confirm' whose id is the decimal rendering of the counter, which then
        advances. */
    method Confirm(source: string, kind: string, text: string, actions: Val) returns (m: Msg)
      requires Valid()
      modifies this`consumableMessagesBuffer, this`normalMessagesBuffer, this`id, pushRefs
      ensures Valid()
      ensures fresh(m) && m.channel == "confirm" && m.consumable && !m.consumed
      ensures m.id == Some(Decimal(old(id))) && id == old(id) + 1
      ensures consumableMessagesBuffer == old(consumableMessagesBuffer) + [m]
      ensures normalMessagesBuffer == old(normalMessagesBuffer)
      ensures forall j :: j in pushRefs ==> Received(j, m)
    {
      var n := id;
      id := id + 1;
      m := new Msg("confirm", true, Some(Decimal(n)),
                   Obj(map["source" := Str(source), "type" := Str(kind), "message" := Str(text), "actions" := actions]),
                   false);
      Push(m);
    }

    /** progress: a fresh open handle, remembered in `progressRefs`. */
    method Progress(channel: string, source: Val) returns (h: ProgressHandle)
      modifies this`progressRefs
      ensures fresh(h) && h.open && h.channel == channel && h.source == source
      ensures progressRefs == old(progressRefs) + {h}
    {
      h := new ProgressHandle(channel, source);
      progressRefs := progressRefs + {h};
    }

    /** The handle's `send`: pushes a message on the handle's channel while the
        handle is open, and returns the handle itself. */
    method ProgressSend(h: ProgressHandle, consumable: bool, data: Val) returns (same: ProgressHandle, pushed: Option<Msg>)
      requires Valid()
      modifies this`consumableMessagesBuffer, this`normalMessagesBuffer, pushRefs
      ensures Valid()
      ensures same == h
      ensures !h.open ==> (
        && pushed == None && consumableMessagesBuffer == old(consumableMessagesBuffer)
        && normalMessagesBuffer == old(normalMessagesBuffer) && unchanged(old(pushRefs)))
      ensures h.open ==> (
        && pushed.Some? && fresh(pushed.value) && pushed.value.channel == h.channel
        && consumableMessagesBuffer == old(consumableMessagesBuffer) + (if consumable then [pushed.value] else [])
        && (old(pushRefs) == {} ==> normalMessagesBuffer == old(normalMessagesBuffer) + (if h.channel == "notification" then [pushed.value] else []))
        && (old(pushRefs) != {} ==> normalMessagesBuffer == old(normalMessagesBuffer))
        && forall j :: j in pushRefs ==> Received(j, pushed.value))
    {
      same := h;
      pushed := None;
      if h.open {
        var m := new Msg(h.channel, consumable, None, Obj(map["source" := h.source, "data" := data]), false);
        Push(m);
        pushed := Some(m);
      }
    }

    /** The handle's `end`: closes it and forgets it. */
    method ProgressEnd(h: ProgressHandle)
      modifies h, this`progressRefs
      ensures !h.open && progressRefs == old(progressRefs) - {h}
    {
      h.open := false;
      progressRefs := progressRefs - {h};
    }

    /** close: unregisters every consumer and ends every progress handle. */
    method Close()
      requires Valid()
      modifies this, consumer.Values, progressRefs
      ensures Valid()
      ensures consumer == map[] && progressRefs == {}
      ensures forall s :: s in old(consumer) ==> old(consumer)[s].isClose && old(consumer)[s] !in pushRefs
      ensures pushRefs <= old(pushRefs)
      ensures forall h :: h in old(progressRefs) ==> !h.open
    {
      UnregisterAll();
      EndAllProgress();
    }

    /** The first loop of close. */
    method UnregisterAll()
      requires Valid()
      modifies this`consumer, this`pushRefs, consumer.Values
      ensures Valid()
      ensures consumer == map[]
      ensures forall s :: s in old(consumer) ==> old(consumer)[s].isClose && old(consumer)[s] !in pushRefs
      ensures pushRefs <= old(pushRefs)
    {
      var keys := consumer.Keys;
      ghost var closed: set<ConsumerJob> := {};
      while keys != {}
        invariant Valid()
        invariant keys == consumer.Keys <= old(consumer).Keys
        invariant forall s :: s in consumer ==> consumer[s] == old(consumer)[s]
        invariant forall s :: s in old(consumer) && s !in keys ==> old(consumer)[s] in closed
        invariant forall j :: j in closed ==> j.isClose && j !in pushRefs
        invariant pushRefs <= old(pushRefs)
        decreases keys
      {
        var cb :| cb in keys;
        closed := UnregisterStep(cb, closed);
        keys := keys - {cb};
      }
    }

    /** One iteration of the first loop of close. */
    method UnregisterStep(cb: Sender, ghost closed: set<ConsumerJob>) returns (ghost closed': set<ConsumerJob>)
      requires Valid() && cb in consumer
      requires forall j :: j in closed ==> j.isClose && j !in pushRefs
      modifies this`consumer, this`pushRefs, consumer[cb]
      ensures Valid()
      ensures consumer == old(consumer) - {cb} && pushRefs <= old(pushRefs)
      ensures closed' == closed + {old(consumer)[cb]}
      ensures forall j :: j in closed' ==> j.isClose && j !in pushRefs
    {
      closed' := closed + {consumer[cb]};
      UnRegisterConsumer(cb);
    }

    /** The second loop of close. */
    method EndAllProgress()
      modifies this`progressRefs, progressRefs
      ensures progressRefs == {}
      ensures forall h :: h in old(progressRefs) ==> !h.open
    {
      var handles := progressRefs;
      while handles != {}
        invariant progressRefs == handles
        invariant forall h :: h in old(progressRefs) && h !in handles ==> !h.open
        decreases handles
      {
        var h :| h in handles;
        ProgressEnd(h);
        handles := handles - {h};
      }
    }
  }

  /** Confirm ids are distinct: two messages made from different counter values
      carry different ids. */
  lemma ConfirmIdsDistinct(a: nat, b: nat)
    requires a != b
    ensures Decimal(a) != Decimal(b)
  {
    if Decimal(a) == Decimal(b) {
      DecimalInjective(a, b);
    }
  }

  /** After a consumer is unregistered as written, a notification pushed with no
      consumer left is neither buffered for replay nor delivered to anyone. */
  method UnregisteredConsumerSwallowsNotifications() returns (buffered: seq<Msg>, delivered: seq<Msg>)
    ensures buffered == [] && delivered == []
  {
    var bus := new MessageManager();
    var send := new Sender();
    var job := bus.RegisterConsumer(send);
    assert job.inFlight == None && !job.isRunning;
    bus.UnRegiserConsumerAsWritten(send);
    assert bus.consumer == map[] && bus.pushRefs == {job} && job.isClose;
    assert job.sent == [];
    var m := bus.Notify("source", "info", "text");
    assert job in bus.pushRefs;
    buffered, delivered := bus.normalMessagesBuffer, job.sent;
  }

  /** With the intended unregistration, the same notification is kept for replay. */
  method UnregisteredConsumerKeepsNotifications() returns (buffered: seq<Msg>)
    ensures |buffered| == 1 && buffered[0].channel == "notification"
  {
    var bus := new MessageManager();
    var send := new Sender();
    var job := bus.RegisterConsumer(send);
    bus.UnRegisterConsumer(send);
    assert bus.consumer == map[] && bus.pushRefs == {};
    var m := bus.Notify("source", "info", "text");
    buffered := bus.normalMessagesBuffer;
    assert buffered == [m];
  }
}
