/** The WebSocket JSON-RPC client as a state machine: what each call, wait, frame, timeout
    and close does, and what holds after any run of them (packages/server-e2e/src/ws.ts). */
module RpcClientModel {
  import opened Wrappers

  /** A notification; its params are opaque. */
  datatype Notification = Notification(name: string, params: string)

  /** A received notification, identified by its place in the order of arrival. */
  datatype Event = Event(serial: nat, note: Notification)

  /** A registered waiter; `wants` is its predicate, `id` tells it apart from others. */
  datatype Waiter = Waiter(id: nat, wants: Notification -> bool)

  datatype Failure =
    | CallError(code: int, message: string, data: Option<string>)
    | SendFailed | TimedOut | ClosedWhileWaiting | ClosedByClient | ClosedByServer

  /** How a call's promise was settled. */
  datatype CallOutcome = Resolved(result: Option<string>) | Rejected(reason: Failure)

  /** How a waiter's promise was settled. */
  datatype WaitOutcome = Received(event: Event) | Failed(reason: Failure)

  datatype Delivery = Delivery(waiter: Waiter, event: Event)

  /** `pending`, `nextId`, `eventQueue`, `eventWaiters`, `closed` and whether `ws` is set;
      then the history: all arrivals, every settled promise, every delivery in order. */
  datatype Client = Client(
    connected: bool, closed: bool,
    nextId: nat, pending: set<nat>, calls: map<nat, CallOutcome>,
    queue: seq<Event>, waiters: seq<Waiter>, nextWaiter: nat, waits: map<nat, WaitOutcome>,
    arrived: seq<Notification>, log: seq<Delivery>)

  const INIT := Client(false, false, 1, {}, map[], [], [], 0, map[], [], [])

  datatype ErrorBody = ErrorBody(code: Option<int>, message: Option<string>, data: Option<string>)

  /** The `id` member of a frame: only numbers can name one of our calls. */
  datatype FrameId = NoId | NumberId(id: int) | OtherId

  /** One JSON value of a frame. `name` is its `method` if that is a string. */
  datatype Frame =
    | NotAnObject
    | Object(id: FrameId, name: Option<string>, params: Option<string>,
             error: Option<ErrorBody>, result: Option<string>)

  /** A text frame: not JSON, one value, or an array of values. */
  datatype Payload = NotJson | One(frame: Frame) | Batch(frames: seq<Frame>)

  datatype Action =
    | Connect
    | Call(sendOk: bool)
    | Wait(wants: Notification -> bool)
    | Timeout(waiter: nat)
    | Message(payload: Payload)
    | Close
    | ServerClose

  // ---------------------------------------------------------------- steps

  /** The earliest queued event that matches, or the length. */
  function FirstMatch(queue: seq<Event>, wants: Notification -> bool): (i: nat)
    ensures i <= |queue|
    ensures i < |queue| ==> wants(queue[i].note)
    ensures forall j :: 0 <= j < i ==> !wants(queue[j].note)
  {
    if queue == [] then 0
    else if wants(queue[0].note) then 0
    else 1 + FirstMatch(queue[1..], wants)
  }

  /** The earliest registered waiter that matches, or the length. */
  function FirstWaiter(waiters: seq<Waiter>, note: Notification): (i: nat)
    ensures i <= |waiters|
    ensures i < |waiters| ==> waiters[i].wants(note)
    ensures forall j :: 0 <= j < i ==> !waiters[j].wants(note)
  {
    if waiters == [] then 0
    else if waiters[0].wants(note) then 0
    else 1 + FirstWaiter(waiters[1..], note)
  }

  function Without<T>(s: seq<T>, i: nat): seq<T>
    requires i < |s|
  {
    s[..i] + s[i + 1..]
  }

  function DoCall(c: Client, sendOk: bool): Client {
    if !c.connected || c.closed then c
    else if sendOk then c.(nextId := c.nextId + 1, pending := c.pending + {c.nextId})
    else c.(nextId := c.nextId + 1, calls := c.calls[c.nextId := Rejected(SendFailed)])
  }

  function DoWait(c: Client, wants: Notification -> bool): Client {
    var i := FirstMatch(c.queue, wants);
    var w := Waiter(c.nextWaiter, wants);
    var c1 := c.(nextWaiter := c.nextWaiter + 1);
    if i < |c.queue| then
      c1.(queue := Without(c.queue, i), waits := c.waits[w.id := Received(c.queue[i])],
          log := c.log + [Delivery(w, c.queue[i])])
    else if c.closed then c1.(waits := c.waits[w.id := Failed(ClosedWhileWaiting)])
    else c1.(waiters := c.waiters + [w])
  }

  /** Position of the waiter with this id, or the length. */
  function FindWaiter(waiters: seq<Waiter>, id: nat): (i: nat)
    ensures i <= |waiters|
    ensures i < |waiters| ==> waiters[i].id == id
    ensures forall j :: 0 <= j < i ==> waiters[j].id != id
  {
    if waiters == [] then 0
    else if waiters[0].id == id then 0
    else 1 + FindWaiter(waiters[1..], id)
  }

  /** A timer fires only while its waiter is registered: every other settlement clears it. */
  function DoTimeout(c: Client, id: nat): Client {
    var i := FindWaiter(c.waiters, id);
    if i < |c.waiters| then c.(waiters := Without(c.waiters, i), waits := c.waits[id := Failed(TimedOut)])
    else c
  }

  function DoNotify(c: Client, note: Notification): Client {
    if note.name == "ping" then c
    else
      var i := FirstWaiter(c.waiters, note);
      if i < |c.waiters| then Delivered(c, note, i)
      else c.(arrived := c.arrived + [note], queue := c.queue + [Event(|c.arrived|, note)])
  }

  /** The arriving notification handed to waiter `i`. */
  function Delivered(c: Client, note: Notification, i: nat): Client
    requires i < |c.waiters|
  {
    var e := Event(|c.arrived|, note);
    c.(arrived := c.arrived + [note], waiters := Without(c.waiters, i),
       waits := c.waits[c.waiters[i].id := Received(e)], log := c.log + [Delivery(c.waiters[i], e)])
  }

  function OrZero(code: Option<int>): int {
    if code.Some? then code.value else 0
  }

  function OrUnknown(message: Option<string>): string {
    if message.Some? then message.value else "unknown error"
  }

  function OutcomeOf(f: Frame): CallOutcome
    requires f.Object?
  {
    match f.error
    case Some(e) => Rejected(CallError(OrZero(e.code), OrUnknown(e.message), e.data))
    case None => Resolved(f.result)
  }

  function DoResponse(c: Client, f: Frame): Client
    requires f.Object?
  {
    if f.id.NumberId? && f.id.id in c.pending
    then c.(pending := c.pending - {f.id.id}, calls := c.calls[f.id.id := OutcomeOf(f)])
    else c
  }

  /** id and method: a reverse request, left to its observers; id: a response; method: a
      notification; neither: dropped. */
  function DoFrame(c: Client, f: Frame): Client {
    match f
    case NotAnObject => c
    case Object(id, name, params, _, _) =>
      if id != NoId && name.Some? then c
      else if id != NoId then DoResponse(c, f)
      else if name.Some? then
        DoNotify(c, Notification(name.value, if params.Some? then params.value else "{}"))
      else c
  }

  function DoFrames(c: Client, frames: seq<Frame>): Client {
    if frames == [] then c else DoFrame(DoFrames(c, frames[..|frames| - 1]), frames[|frames| - 1])
  }

  function DoMessage(c: Client, p: Payload): Client {
    match p
    case NotJson => c
    case One(f) => DoFrame(c, f)
    case Batch(fs) => DoFrames(c, fs)
  }

  /** `failPendingAndWaiters`. */
  function FailAll(c: Client, reason: Failure): Client {
    c.(pending := {}, calls := c.calls + (map id | id in c.pending :: Rejected(reason)),
       waiters := [], waits := c.waits + FailedWaits(c.waiters, reason))
  }

  function FailedWaits(waiters: seq<Waiter>, reason: Failure): (m: map<nat, WaitOutcome>)
    ensures forall id :: id in m <==> exists i :: 0 <= i < |waiters| && waiters[i].id == id
    ensures forall id <- m :: m[id] == Failed(reason)
  {
    if waiters == [] then map[]
    else
      var n := |waiters| - 1;
      FailedWaits(waiters[..n], reason)[waiters[n].id := Failed(reason)]
  }

  function Step(c: Client, a: Action): Client {
    match a
    case Connect => if c.connected || c.closed then c else c.(connected := true)
    case Call(sendOk) => DoCall(c, sendOk)
    case Wait(wants) => DoWait(c, wants)
    case Timeout(id) => DoTimeout(c, id)
    case Message(p) => DoMessage(c, p)
    case Close => if c.closed then c else FailAll(c.(closed := true, connected := false), ClosedByClient)
    case ServerClose => FailAll(c.(closed := true, connected := false), ClosedByServer)
  }

  /** Any run, from the fresh client. */
  function Run(actions: seq<Action>): Client {
    if actions == [] then INIT else Step(Run(actions[..|actions| - 1]), actions[|actions| - 1])
  }

  // ---------------------------------------------------------------- call conservation

  /** Every id handed out is pending or settled, never both; no other id is either. */
  ghost predicate CallsInv(c: Client) {
    && c.nextId >= 1
    && c.pending !! c.calls.Keys
    && (forall id :: id in c.pending || id in c.calls <==> 1 <= id < c.nextId)
    && (c.closed ==> c.pending == {} && !c.connected)
  }

  // ---------------------------------------------------------------- delivery of events

  ghost predicate InQueue(c: Client, serial: nat) {
    exists i :: 0 <= i < |c.queue| && c.queue[i].serial == serial
  }

  ghost predicate InLog(log: seq<Delivery>, serial: nat) {
    exists i :: 0 <= i < |log| && log[i].event.serial == serial
  }

  ghost predicate IsArrival(c: Client, e: Event) {
    e.serial < |c.arrived| && c.arrived[e.serial] == e.note
  }

  /** Arrivals are queued or delivered, never both, and delivered at most once; the queue
      keeps the order of arrival. */
  ghost predicate ArrivalsInv(c: Client) {
    && (forall i :: 0 <= i < |c.queue| ==> IsArrival(c, c.queue[i]))
    && (forall i, j :: 0 <= i < j < |c.queue| ==> c.queue[i].serial < c.queue[j].serial)
    && (forall i :: 0 <= i < |c.log| ==> IsArrival(c, c.log[i].event))
    && (forall i, j :: 0 <= i < j < |c.log| ==> c.log[i].event.serial != c.log[j].event.serial)
    && (forall s :: 0 <= s < |c.arrived| ==> InQueue(c, s) != InLog(c.log, s))
  }

  /** No queued event matches a registered waiter. */
  ghost predicate NothingToDeliver(c: Client) {
    forall i, j :: 0 <= i < |c.queue| && 0 <= j < |c.waiters| ==> !c.waiters[j].wants(c.queue[i].note)
  }

  /** Delivery `k` gave its waiter the earliest matching event not yet delivered. */
  ghost predicate GotEarliest(c: Client, k: nat)
    requires k < |c.log|
  {
    var d := c.log[k];
    && d.waiter.wants(d.event.note)
    && (forall s :: 0 <= s < d.event.serial && s < |c.arrived| && d.waiter.wants(c.arrived[s]) ==>
          InLog(c.log[..k], s))
  }

  ghost predicate DeliveriesInv(c: Client) {
    forall k :: 0 <= k < |c.log| ==> GotEarliest(c, k)
  }

  // ---------------------------------------------------------------- waiters

  ghost predicate IsRegistered(c: Client, id: nat) {
    exists i :: 0 <= i < |c.waiters| && c.waiters[i].id == id
  }

  /** Every waiter is registered or settled, never both; the list is in order of
      registration; and "received" outcomes are exactly the log. */
  ghost predicate WaitersInv(c: Client) {
    && WaitersListed(c) && Receipts(c)
    && (c.closed ==> c.waiters == [])
  }

  ghost predicate WaitersListed(c: Client) {
    && (forall i, j :: 0 <= i < j < |c.waiters| ==> c.waiters[i].id < c.waiters[j].id)
    && (forall i :: 0 <= i < |c.waiters| ==> c.waiters[i].id < c.nextWaiter && c.waiters[i].id !in c.waits)
    && (forall id :: 0 <= id < c.nextWaiter ==> IsRegistered(c, id) || id in c.waits)
    && (forall id <- c.waits :: id < c.nextWaiter)
  }

  ghost predicate Receipts(c: Client) {
    && (forall k :: 0 <= k < |c.log| ==>
          c.log[k].waiter.id in c.waits && c.waits[c.log[k].waiter.id] == Received(c.log[k].event))
    && (forall id <- c.waits :: c.waits[id].Received? ==> WasDelivered(c.log, id, c.waits[id].event))
  }

  ghost predicate WasDelivered(log: seq<Delivery>, id: nat, e: Event) {
    exists k :: 0 <= k < |log| && log[k].waiter.id == id && log[k].event == e
  }

  lemma DeliveredStays(log: seq<Delivery>, d: Delivery)
    ensures forall id, e :: WasDelivered(log, id, e) ==> WasDelivered(log + [d], id, e)
    ensures WasDelivered(log + [d], d.waiter.id, d.event)
  {
    assert (log + [d])[|log|] == d;
    forall id, e | WasDelivered(log, id, e) ensures WasDelivered(log + [d], id, e) {
      var k :| 0 <= k < |log| && log[k].waiter.id == id && log[k].event == e;
      assert (log + [d])[k] == log[k];
    }
  }

  /** An event never overtakes an older waiter that is still waiting for its like. */
  ghost predicate FairToWaiters(c: Client) {
    forall k, i :: 0 <= k < |c.log| && 0 <= i < |c.waiters| && c.waiters[i].id < c.log[k].waiter.id ==>
      !c.waiters[i].wants(c.log[k].event.note)
  }

  ghost predicate Inv(c: Client) {
    && CallsInv(c) && ArrivalsInv(c) && NothingToDeliver(c)
    && DeliveriesInv(c) && WaitersInv(c) && FairToWaiters(c)
  }

  // ---------------------------------------------------------------- every step keeps it

  lemma WithoutIndex<T>(s: seq<T>, i: nat)
    requires i < |s|
    ensures |Without(s, i)| == |s| - 1
    ensures forall j :: 0 <= j < |s| - 1 ==> Without(s, i)[j] == if j < i then s[j] else s[j + 1]
  {}

  lemma CallKeeps(c: Client, sendOk: bool)
    requires Inv(c)
    ensures Inv(DoCall(c, sendOk))
  {
    SameEvents(c, DoCall(c, sendOk));
  }

  /** Steps that touch only the call side keep the event side. */
  lemma SameEvents(c: Client, d: Client)
    requires Inv(c)
    requires d == c.(connected := d.connected, nextId := d.nextId, pending := d.pending, calls := d.calls)
    ensures ArrivalsInv(d) && NothingToDeliver(d) && DeliveriesInv(d) && WaitersInv(d) && FairToWaiters(d)
  {
    forall s: nat ensures InQueue(c, s) == InQueue(d, s) {}
    forall k | 0 <= k < |d.log| ensures GotEarliest(d, k) { assert GotEarliest(c, k); }
    forall id: nat | id < d.nextWaiter ensures IsRegistered(d, id) || id in d.waits {
      assert IsRegistered(c, id) || id in c.waits;
    }
    forall i | 0 <= i < |d.queue| ensures IsArrival(d, d.queue[i]) { assert IsArrival(c, c.queue[i]); }
    forall i | 0 <= i < |d.log| ensures IsArrival(d, d.log[i].event) { assert IsArrival(c, c.log[i].event); }
  }

  lemma InLogSnoc(log: seq<Delivery>, d: Delivery, s: nat)
    ensures InLog(log + [d], s) <==> InLog(log, s) || d.event.serial == s
  {
    if InLog(log, s) {
      var i :| 0 <= i < |log| && log[i].event.serial == s;
      assert (log + [d])[i].event.serial == s;
    }
    assert (log + [d])[|log|] == d;
  }

  /** Appending a delivery keeps what the earlier ones did. */
  lemma EarlierDeliveries(c: Client, d: Client, k: nat)
    requires DeliveriesInv(c) && ArrivalsInv(c) && k < |c.log|
    requires c.log <= d.log && c.arrived <= d.arrived
    ensures GotEarliest(d, k)
  {
    assert GotEarliest(c, k);
    assert IsArrival(c, c.log[k].event);
    assert d.log[..k] == c.log[..k];
  }

  /** Without event `i` the queue holds the same serials but that of the event. */
  lemma DequeuedSerials(c: Client, i: nat, d: Client, s: nat)
    requires i < |c.queue| && d.queue == Without(c.queue, i)
    requires forall a, b :: 0 <= a < b < |c.queue| ==> c.queue[a].serial < c.queue[b].serial
    ensures InQueue(d, s) <==> InQueue(c, s) && s != c.queue[i].serial
  {
    WithoutIndex(c.queue, i);
    if InQueue(c, s) && s != c.queue[i].serial {
      var j :| 0 <= j < |c.queue| && c.queue[j].serial == s;
      assert d.queue[if j < i then j else j - 1].serial == s;
    }
    if InQueue(d, s) {
      var j :| 0 <= j < |d.queue| && d.queue[j].serial == s;
      assert c.queue[if j < i then j else j + 1] == d.queue[j];
    }
  }

  lemma DequeueArrivals(c: Client, i: nat, w: Waiter, d: Client)
    requires ArrivalsInv(c) && i < |c.queue|
    requires d.queue == Without(c.queue, i) && d.arrived == c.arrived
    requires d.log == c.log + [Delivery(w, c.queue[i])]
    ensures ArrivalsInv(d)
  {
    hide InQueue, InLog;
    WithoutIndex(c.queue, i);
    var e := c.queue[i];
    assert IsArrival(c, e);
    assert !InLog(c.log, e.serial) by { QueuedNotLogged(c, i); }
    forall s | 0 <= s < |d.arrived| ensures InQueue(d, s) != InLog(d.log, s) {
      InLogSnoc(c.log, Delivery(w, e), s);
      DequeuedSerials(c, i, d, s);
      assert InQueue(c, s) != InLog(c.log, s);
      if s == e.serial { QueuedIsIn(c, i); }
    }
    forall j | 0 <= j < |d.queue| ensures IsArrival(d, d.queue[j]) {
      assert IsArrival(c, c.queue[if j < i then j else j + 1]);
    }
    forall j | 0 <= j < |d.log| ensures IsArrival(d, d.log[j].event) {
      if j < |c.log| { assert IsArrival(c, c.log[j].event); }
    }
    forall j | 0 <= j < |c.log| ensures c.log[j].event.serial != e.serial { NotLogged(c.log, e.serial, j); }
  }

  lemma QueuedIsIn(c: Client, i: nat)
    requires i < |c.queue|
    ensures InQueue(c, c.queue[i].serial)
  {}

  lemma QueuedNotLogged(c: Client, i: nat)
    requires ArrivalsInv(c) && i < |c.queue|
    ensures !InLog(c.log, c.queue[i].serial)
  {
    assert IsArrival(c, c.queue[i]) && InQueue(c, c.queue[i].serial);
  }

  lemma NotLogged(log: seq<Delivery>, s: nat, j: nat)
    requires !InLog(log, s) && j < |log|
    ensures log[j].event.serial != s
  {}

  /** The waiter side when the newest waiter is settled at once. */
  lemma NewWaiterSettled(c: Client, d: Client, w: Waiter, o: WaitOutcome)
    requires WaitersInv(c) && w.id == c.nextWaiter
    requires d.waiters == c.waiters && d.nextWaiter == c.nextWaiter + 1 && d.waits == c.waits[w.id := o]
    requires d.closed == c.closed
    requires d.log == if o.Received? then c.log + [Delivery(w, o.event)] else c.log
    ensures WaitersInv(d)
  {
    if o.Received? { DeliveredStays(c.log, Delivery(w, o.event)); }
    forall id | 0 <= id < d.nextWaiter ensures IsRegistered(d, id) || id in d.waits {
      if id < c.nextWaiter { assert IsRegistered(c, id) || id in c.waits; }
    }
  }

  /** The waiter side when the newest waiter is registered. */
  lemma NewWaiterListed(c: Client, d: Client, w: Waiter)
    requires WaitersInv(c) && w.id == c.nextWaiter && !c.closed && !d.closed
    requires d.waiters == c.waiters + [w] && d.nextWaiter == c.nextWaiter + 1
    requires d.waits == c.waits && d.log == c.log
    ensures WaitersInv(d)
  {
    forall id | 0 <= id < d.nextWaiter ensures IsRegistered(d, id) || id in d.waits {
      if id < c.nextWaiter {
        assert IsRegistered(c, id) || id in c.waits;
        if IsRegistered(c, id) {
          var j :| 0 <= j < |c.waiters| && c.waiters[j].id == id;
          assert d.waiters[j].id == id;
        }
      } else {
        assert d.waiters[|c.waiters|] == w;
      }
    }
  }

  /** It matches nothing that is queued, and is younger than every waiter served so far. */
  lemma NewWaiterIsFair(c: Client, d: Client, w: Waiter)
    requires NothingToDeliver(c) && FairToWaiters(c) && WaitersInv(c)
    requires w.id == c.nextWaiter && FirstMatch(c.queue, w.wants) == |c.queue|
    requires d.waiters == c.waiters + [w] && d.queue == c.queue && d.log == c.log
    ensures NothingToDeliver(d) && FairToWaiters(d)
  {}

  lemma WaitKeeps(c: Client, wants: Notification -> bool)
    requires Inv(c)
    ensures Inv(DoWait(c, wants))
  {
    hide ArrivalsInv, DeliveriesInv, WaitersInv;
    var d := DoWait(c, wants);
    var w := Waiter(c.nextWaiter, wants);
    if FirstMatch(c.queue, wants) < |c.queue| {
      WaitDelivers(c, wants);
    } else if c.closed {
      NewWaiterSettled(c, d, w, Failed(ClosedWhileWaiting));
      SameQueue(c, d);
    } else {
      SameQueue(c, d);
      NewWaiterListed(c, d, w);
      NewWaiterIsFair(c, d, w);
    }
  }

  /** Steps that leave queue, arrivals and log alone. */
  lemma SameQueue(c: Client, d: Client)
    requires ArrivalsInv(c) && DeliveriesInv(c)
    requires d.queue == c.queue && d.arrived == c.arrived && d.log == c.log
    ensures ArrivalsInv(d) && DeliveriesInv(d)
  {
    forall s: nat ensures InQueue(c, s) == InQueue(d, s) {}
    forall k | 0 <= k < |d.log| ensures GotEarliest(d, k) { EarlierDeliveries(c, d, k); }
    forall i | 0 <= i < |d.queue| ensures IsArrival(d, d.queue[i]) { assert IsArrival(c, c.queue[i]); }
    forall i | 0 <= i < |d.log| ensures IsArrival(d, d.log[i].event) { assert IsArrival(c, c.log[i].event); }
  }

  /** The first queued match is the earliest the new waiter can get. */
  lemma QueuedIsEarliest(c: Client, d: Client, i: nat, w: Waiter)
    requires ArrivalsInv(c) && DeliveriesInv(c)
    requires i < |c.queue| && i == FirstMatch(c.queue, w.wants)
    requires d.arrived == c.arrived && d.log == c.log + [Delivery(w, c.queue[i])]
    ensures DeliveriesInv(d)
  {
    var e := c.queue[i];
    assert IsArrival(c, e);
    forall k | 0 <= k < |d.log| ensures GotEarliest(d, k) {
      if k < |c.log| {
        EarlierDeliveries(c, d, k);
      } else {
        assert d.log[..k] == c.log && d.log[k] == Delivery(w, e);
        forall s | 0 <= s < e.serial && w.wants(c.arrived[s]) ensures InLog(c.log, s) {
          forall j | 0 <= j < |c.queue| ensures c.queue[j].serial != s { assert IsArrival(c, c.queue[j]); }
          assert InQueue(c, s) != InLog(c.log, s);
        }
      }
    }
  }

  /** A queued event goes past no older waiter, and taking it leaves nothing to deliver. */
  lemma DequeueIsFair(c: Client, d: Client, i: nat, w: Waiter)
    requires NothingToDeliver(c) && FairToWaiters(c) && i < |c.queue|
    requires d.queue == Without(c.queue, i) && d.waiters == c.waiters
    requires d.log == c.log + [Delivery(w, c.queue[i])]
    ensures NothingToDeliver(d) && FairToWaiters(d)
  {
    WithoutIndex(c.queue, i);
    forall a, j | 0 <= a < |d.queue| && 0 <= j < |d.waiters| ensures !d.waiters[j].wants(d.queue[a].note) {
      assert d.queue[a] == c.queue[if a < i then a else a + 1];
    }
    forall k, j | 0 <= k < |d.log| && 0 <= j < |d.waiters| && d.waiters[j].id < d.log[k].waiter.id
      ensures !d.waiters[j].wants(d.log[k].event.note)
    {
      if k == |c.log| { assert d.log[k].event == c.queue[i]; }
    }
  }

  lemma WaitDelivers(c: Client, wants: Notification -> bool)
    requires Inv(c) && FirstMatch(c.queue, wants) < |c.queue|
    ensures Inv(DoWait(c, wants))
  {
    hide ArrivalsInv, DeliveriesInv, NothingToDeliver, FairToWaiters, Receipts, WaitersListed;
    var d := DoWait(c, wants);
    var i := FirstMatch(c.queue, wants);
    var w := Waiter(c.nextWaiter, wants);
    DequeueArrivals(c, i, w, d);
    NewWaiterSettled(c, d, w, Received(c.queue[i]));
    QueuedIsEarliest(c, d, i, w);
    DequeueIsFair(c, d, i, w);
  }

  /** The waiter side when a registered waiter is settled. */
  lemma RegisteredSettled(c: Client, d: Client, i: nat, o: WaitOutcome)
    requires WaitersInv(c) && i < |c.waiters|
    requires d.waiters == Without(c.waiters, i) && d.nextWaiter == c.nextWaiter
    requires d.waits == c.waits[c.waiters[i].id := o] && d.closed == c.closed
    requires d.log == if o.Received? then c.log + [Delivery(c.waiters[i], o.event)] else c.log
    ensures WaitersInv(d)
  {
    assert c.waiters[i].id !in c.waits;
    if o.Received? { DeliveredStays(c.log, Delivery(c.waiters[i], o.event)); }
    assert WaitersListed(d) by { StillListed(c, d, i, o); }
  }

  lemma StillListed(c: Client, d: Client, i: nat, o: WaitOutcome)
    requires WaitersListed(c) && i < |c.waiters|
    requires d.waiters == Without(c.waiters, i) && d.nextWaiter == c.nextWaiter
    requires d.waits == c.waits[c.waiters[i].id := o]
    ensures WaitersListed(d)
  {
    hide IsRegistered;
    forall a, b | 0 <= a < b < |d.waiters| ensures d.waiters[a].id < d.waiters[b].id {
      var a' := OldPlace(c, d, i, a);
      var b' := OldPlace(c, d, i, b);
    }
    forall a | 0 <= a < |d.waiters| ensures d.waiters[a].id < d.nextWaiter && d.waiters[a].id !in d.waits {
      var a' := OldPlace(c, d, i, a);
    }
    forall id | 0 <= id < d.nextWaiter && id !in d.waits ensures IsRegistered(d, id) {
      StillRegistered(c, d, i, id);
    }
  }

  /** Where a waiter of the shortened list was before. */
  lemma OldPlace(c: Client, d: Client, i: nat, a: nat) returns (j: nat)
    requires i < |c.waiters| && d.waiters == Without(c.waiters, i) && a < |d.waiters|
    ensures j < |c.waiters| && j != i && d.waiters[a] == c.waiters[j] && j == if a < i then a else a + 1
  {
    j := if a < i then a else a + 1;
  }

  lemma StillRegistered(c: Client, d: Client, i: nat, id: nat)
    requires i < |c.waiters| && d.waiters == Without(c.waiters, i)
    requires IsRegistered(c, id) && id != c.waiters[i].id
    ensures IsRegistered(d, id)
  {
    var j :| 0 <= j < |c.waiters| && c.waiters[j].id == id;
    assert d.waiters[if j < i then j else j - 1] == c.waiters[j];
  }

  /** Fewer waiters leave nothing new to deliver. */
  lemma FewerWaiters(c: Client, d: Client, i: nat)
    requires NothingToDeliver(c) && FairToWaiters(c) && i < |c.waiters|
    requires d.waiters == Without(c.waiters, i) && d.queue == c.queue
    ensures NothingToDeliver(d)
    ensures d.log == c.log ==> FairToWaiters(d)
  {
    WithoutIndex(c.waiters, i);
    forall a, j | 0 <= a < |d.queue| && 0 <= j < |d.waiters| ensures !d.waiters[j].wants(d.queue[a].note) {
      assert d.waiters[j] == c.waiters[if j < i then j else j + 1];
    }
    if d.log == c.log {
      forall k, j | 0 <= k < |d.log| && 0 <= j < |d.waiters| && d.waiters[j].id < d.log[k].waiter.id
        ensures !d.waiters[j].wants(d.log[k].event.note)
      {
        assert d.waiters[j] == c.waiters[if j < i then j else j + 1];
      }
    }
  }

  lemma TimeoutKeeps(c: Client, id: nat)
    requires Inv(c)
    ensures Inv(DoTimeout(c, id))
  {
    var i := FindWaiter(c.waiters, id);
    if i < |c.waiters| {
      var d := DoTimeout(c, id);
      RegisteredSettled(c, d, i, Failed(TimedOut));
      FewerWaiters(c, d, i);
      SameQueue(c, d);
    }
  }

  lemma ArrivalDelivered(c: Client, note: Notification, w: Waiter, d: Client)
    requires ArrivalsInv(c)
    requires d.arrived == c.arrived + [note] && d.queue == c.queue
    requires d.log == c.log + [Delivery(w, Event(|c.arrived|, note))]
    ensures ArrivalsInv(d)
  {
    forall i | 0 <= i < |d.queue| ensures IsArrival(d, d.queue[i]) { assert IsArrival(c, c.queue[i]); }
    forall i | 0 <= i < |d.log| ensures IsArrival(d, d.log[i].event) {
      if i < |c.log| { assert IsArrival(c, c.log[i].event); }
    }
    forall i | 0 <= i < |c.log| ensures c.log[i].event.serial < |c.arrived| { assert IsArrival(c, c.log[i].event); }
    forall s | 0 <= s < |d.arrived| ensures InQueue(d, s) != InLog(d.log, s) {
      InLogSnoc(c.log, Delivery(w, Event(|c.arrived|, note)), s);
      assert InQueue(d, s) == InQueue(c, s);
      if s < |c.arrived| {
        assert InQueue(c, s) != InLog(c.log, s);
      } else {
        forall i | 0 <= i < |c.queue| ensures c.queue[i].serial != s { assert IsArrival(c, c.queue[i]); }
      }
    }
  }

  lemma ArrivalQueued(c: Client, note: Notification, d: Client)
    requires ArrivalsInv(c)
    requires d.arrived == c.arrived + [note] && d.log == c.log
    requires d.queue == c.queue + [Event(|c.arrived|, note)]
    ensures ArrivalsInv(d)
  {
    forall i | 0 <= i < |d.queue| ensures IsArrival(d, d.queue[i]) {
      if i < |c.queue| { assert IsArrival(c, c.queue[i]); }
    }
    forall i, j | 0 <= i < j < |d.queue| ensures d.queue[i].serial < d.queue[j].serial {
      assert IsArrival(c, c.queue[i]);
    }
    forall i | 0 <= i < |d.log| ensures IsArrival(d, d.log[i].event) { assert IsArrival(c, c.log[i].event); }
    forall s | 0 <= s < |d.arrived| ensures InQueue(d, s) != InLog(d.log, s) {
      if s < |c.arrived| {
        assert InQueue(c, s) != InLog(c.log, s);
        if InQueue(c, s) {
          var i :| 0 <= i < |c.queue| && c.queue[i].serial == s;
          assert d.queue[i].serial == s;
        }
      } else {
        assert d.queue[|c.queue|].serial == s;
        forall i | 0 <= i < |c.log| ensures c.log[i].event.serial != s { assert IsArrival(c, c.log[i].event); }
      }
    }
  }

  /** A notification that no earlier registration wanted is the earliest its waiter can get. */
  lemma ArrivalIsEarliest(c: Client, d: Client, note: Notification, i: nat)
    requires ArrivalsInv(c) && DeliveriesInv(c) && NothingToDeliver(c)
    requires i < |c.waiters| && c.waiters[i].wants(note)
    requires d.arrived == c.arrived + [note]
    requires d.log == c.log + [Delivery(c.waiters[i], Event(|c.arrived|, note))]
    ensures DeliveriesInv(d)
  {
    forall k | 0 <= k < |d.log| ensures GotEarliest(d, k) {
      if k < |c.log| {
        EarlierDeliveries(c, d, k);
      } else {
        assert d.log[..k] == c.log && d.log[k] == Delivery(c.waiters[i], Event(|c.arrived|, note));
        forall s | 0 <= s < |c.arrived| && c.waiters[i].wants(d.arrived[s]) ensures InLog(c.log, s) {
          forall j | 0 <= j < |c.queue| ensures c.queue[j].serial != s { assert IsArrival(c, c.queue[j]); }
          assert InQueue(c, s) != InLog(c.log, s);
        }
      }
    }
  }

  /** It goes past no older waiter. */
  lemma DeliveryIsFair(c: Client, d: Client, note: Notification, i: nat)
    requires FairToWaiters(c) && i < |c.waiters| && FirstWaiter(c.waiters, note) == i
    requires forall a, b :: 0 <= a < b < |c.waiters| ==> c.waiters[a].id < c.waiters[b].id
    requires d.waiters == Without(c.waiters, i)
    requires d.log == c.log + [Delivery(c.waiters[i], Event(|c.arrived|, note))]
    ensures FairToWaiters(d)
  {
    forall k, j | 0 <= k < |d.log| && 0 <= j < |d.waiters| && d.waiters[j].id < d.log[k].waiter.id
      ensures !d.waiters[j].wants(d.log[k].event.note)
    {
      var j' := OldPlace(c, d, i, j);
    }
  }

  lemma NotifyDelivers(c: Client, note: Notification)
    requires Inv(c) && note.name != "ping" && FirstWaiter(c.waiters, note) < |c.waiters|
    ensures Inv(DoNotify(c, note))
  {
    hide ArrivalsInv, DeliveriesInv, NothingToDeliver, FairToWaiters, Receipts;
    var d := DoNotify(c, note);
    var i := FirstWaiter(c.waiters, note);
    var e := Event(|c.arrived|, note);
    ArrivalDelivered(c, note, c.waiters[i], d);
    RegisteredSettled(c, d, i, Received(e));
    FewerWaiters(c, d, i);
    ArrivalIsEarliest(c, d, note, i);
    DeliveryIsFair(c, d, note, i);
  }

  lemma NotifyKeeps(c: Client, note: Notification)
    requires Inv(c)
    ensures Inv(DoNotify(c, note))
  {
    if note.name != "ping" {
      if FirstWaiter(c.waiters, note) < |c.waiters| {
        NotifyDelivers(c, note);
      } else {
        var d := DoNotify(c, note);
        ArrivalQueued(c, note, d);
        forall k | 0 <= k < |d.log| ensures GotEarliest(d, k) { EarlierDeliveries(c, d, k); }
        forall id | 0 <= id < d.nextWaiter ensures IsRegistered(d, id) || id in d.waits {
          assert IsRegistered(c, id) || id in c.waits;
        }
      }
    }
  }

  lemma FrameKeeps(c: Client, f: Frame)
    requires Inv(c)
    ensures Inv(DoFrame(c, f))
  {
    if f.Object? {
      if f.id != NoId && f.name.None? {
        SameEvents(c, DoResponse(c, f));
      } else if f.id == NoId && f.name.Some? {
        NotifyKeeps(c, Notification(f.name.value, if f.params.Some? then f.params.value else "{}"));
      }
    }
  }

  lemma {:induction false} FramesKeep(c: Client, frames: seq<Frame>)
    requires Inv(c)
    ensures Inv(DoFrames(c, frames))
  {
    if frames != [] {
      FramesKeep(c, frames[..|frames| - 1]);
      FrameKeeps(DoFrames(c, frames[..|frames| - 1]), frames[|frames| - 1]);
    }
  }

  lemma CloseKeeps(c: Client, reason: Failure)
    requires Inv(c)
    ensures Inv(FailAll(c.(closed := true, connected := false), reason))
  {
    var c1 := c.(closed := true, connected := false);
    var d := FailAll(c1, reason);
    SameQueue(c, d);
    forall id | 0 <= id < d.nextWaiter ensures id in d.waits {
      assert IsRegistered(c, id) || id in c.waits;
    }
    forall k | 0 <= k < |d.log|
      ensures d.log[k].waiter.id in d.waits && d.waits[d.log[k].waiter.id] == Received(d.log[k].event)
    {
      assert c.log[k].waiter.id in c.waits;
    }
  }

  lemma StepKeeps(c: Client, a: Action)
    requires Inv(c)
    ensures Inv(Step(c, a))
  {
    hide ArrivalsInv, NothingToDeliver, DeliveriesInv, FairToWaiters, WaitersInv;
    hide DoCall, DoWait, DoTimeout, FailAll, DoFrame, DoFrames;
    match a
    case Connect => SameEvents(c, Step(c, a));
    case Call(sendOk) => CallKeeps(c, sendOk);
    case Wait(m) => WaitKeeps(c, m);
    case Timeout(id) => TimeoutKeeps(c, id);
    case Message(NotJson) =>
    case Message(One(f)) => FrameKeeps(c, f);
    case Message(Batch(fs)) => FramesKeep(c, fs);
    case Close => CloseKeeps(c, ClosedByClient);
    case ServerClose => CloseKeeps(c, ClosedByServer);
  }

  /** Everything above holds after every run. */
  lemma {:induction false} RunsKeep(actions: seq<Action>)
    ensures Inv(Run(actions))
  {
    if actions != [] {
      RunsKeep(actions[..|actions| - 1]);
      StepKeeps(Run(actions[..|actions| - 1]), actions[|actions| - 1]);
    }
  }

  // ---------------------------------------------------------------- the theorems

  /** Call conservation, over any run: the ids handed out are 1, 2, ... below `nextId`, and
      each of them is in exactly one of pending and settled. */
  lemma EachCallIsPendingOrSettledOnce(actions: seq<Action>, id: nat)
    ensures var c := Run(actions);
            && (1 <= id < c.nextId <==> id in c.pending || id in c.calls)
            && !(id in c.pending && id in c.calls)
  {
    RunsKeep(actions);
  }

  /** Delivery, over any run: no queued event matches a registered waiter; an arrival is
      queued or was delivered, exactly one of the two, and delivered once at most; each
      delivery was the earliest matching arrival not delivered before. */
  lemma EventsAreDeliveredOnceInOrder(actions: seq<Action>)
    ensures var c := Run(actions);
            && NothingToDeliver(c) && ArrivalsInv(c) && DeliveriesInv(c) && FairToWaiters(c)
  {
    RunsKeep(actions);
  }

  /** Waiters, over any run: each is registered or settled, never both, and it was settled
      with an event exactly when that event was delivered to it. */
  lemma EachWaiterIsRegisteredOrSettledOnce(actions: seq<Action>, id: nat, e: Event)
    ensures var c := Run(actions);
            && (id < c.nextWaiter <==> IsRegistered(c, id) || id in c.waits)
            && !(IsRegistered(c, id) && id in c.waits)
            && ((id in c.waits && c.waits[id] == Received(e)) <==> WasDelivered(c.log, id, e))
  {
    RunsKeep(actions);
  }

  /** Later states never change what has happened: settled promises stay as they are,
      arrivals and deliveries only grow, and closed stays closed. */
  ghost predicate Later(c: Client, d: Client) {
    && c.nextId <= d.nextId && c.nextWaiter <= d.nextWaiter
    && (forall id <- c.calls :: id in d.calls && d.calls[id] == c.calls[id])
    && (forall id <- c.waits :: id in d.waits && d.waits[id] == c.waits[id])
    && c.arrived <= d.arrived && c.log <= d.log
    && (c.closed ==> d.closed && c.nextId == d.nextId)
  }

  lemma FrameLater(c: Client, f: Frame)
    requires Inv(c)
    ensures Later(c, DoFrame(c, f))
  {}

  lemma {:induction false} FramesLater(c: Client, frames: seq<Frame>)
    requires Inv(c)
    ensures Later(c, DoFrames(c, frames))
  {
    if frames != [] {
      FramesLater(c, frames[..|frames| - 1]);
      FramesKeep(c, frames[..|frames| - 1]);
      FrameLater(DoFrames(c, frames[..|frames| - 1]), frames[|frames| - 1]);
    }
  }

  lemma CallLater(c: Client, sendOk: bool)
    requires CallsInv(c)
    ensures Later(c, DoCall(c, sendOk))
  {}

  lemma WaitLater(c: Client, wants: Notification -> bool)
    requires WaitersListed(c)
    ensures Later(c, DoWait(c, wants))
  {
    hide FirstMatch;
    assert c.nextWaiter !in c.waits;
  }

  lemma TimeoutLater(c: Client, id: nat)
    requires WaitersListed(c)
    ensures Later(c, DoTimeout(c, id))
  {}

  lemma FailAllLater(c: Client, reason: Failure)
    requires CallsInv(c) && WaitersListed(c)
    ensures Later(c, FailAll(c.(closed := true, connected := false), reason))
  {
    forall id | id in c.waits ensures id !in FailedWaits(c.waiters, reason) {}
  }

  lemma StepLater(c: Client, a: Action)
    requires Inv(c)
    ensures Later(c, Step(c, a))
  {
    hide CallsInv, ArrivalsInv, NothingToDeliver, DeliveriesInv, FairToWaiters, Receipts, WaitersListed;
    hide DoCall, DoWait, DoTimeout, FailAll, DoFrame, DoFrames;
    match a
    case Connect =>
    case Call(sendOk) => CallLater(c, sendOk);
    case Wait(wants) => WaitLater(c, wants);
    case Timeout(id) => TimeoutLater(c, id);
    case Message(NotJson) =>
    case Message(One(f)) => FrameLater(c, f);
    case Message(Batch(fs)) => FramesLater(c, fs);
    case Close => FailAllLater(c, ClosedByClient);
    case ServerClose => FailAllLater(c, ClosedByServer);
  }

  lemma LaterTransitive(a: Client, b: Client, c: Client)
    requires Later(a, b) && Later(b, c)
    ensures Later(a, c)
  {}

  /** A promise is settled once: whatever follows, its outcome stays. */
  lemma {:induction false} SettledForGood(actions: seq<Action>, more: seq<Action>)
    ensures Later(Run(actions), Run(actions + more))
    decreases |more|
  {
    if more == [] {
      assert actions + more == actions;
    } else {
      var n := |more| - 1;
      var before := actions + more[..n];
      SettledForGood(actions, more[..n]);
      assert (actions + more)[..|actions + more| - 1] == before;
      RunsKeep(before);
      StepLater(Run(before), more[n]);
      LaterTransitive(Run(actions), Run(before), Run(actions + more));
    }
  }

  /** After either kind of close nothing is pending or waiting, and nothing ever is again. */
  lemma ClosedIsEmptyForGood(actions: seq<Action>, more: seq<Action>)
    requires Run(actions).closed
    ensures var c := Run(actions + more);
            c.closed && !c.connected && c.pending == {} && c.waiters == [] && c.nextId == Run(actions).nextId
  {
    SettledForGood(actions, more);
    RunsKeep(actions + more);
  }

  predicate IsResponseTo(f: Frame, id: nat) {
    f.Object? && f.id == NumberId(id) && f.name.None?
  }

  /** The first response to `id` in the batch, or the length. */
  function FirstResponse(frames: seq<Frame>, id: nat): (i: nat)
    ensures i <= |frames|
    ensures i < |frames| ==> IsResponseTo(frames[i], id)
    ensures forall j :: 0 <= j < i ==> !IsResponseTo(frames[j], id)
  {
    if frames == [] then 0
    else
      var i := FirstResponse(frames[..|frames| - 1], id);
      if i < |frames| - 1 then i
      else if IsResponseTo(frames[|frames| - 1], id) then |frames| - 1
      else |frames|
  }

  /** What a response makes of its call: an error, whose missing code is 0 and whose missing
      message is "unknown error", rejects it; without one it is resolved with the result. */
  ghost predicate IsAnswerOf(outcome: CallOutcome, f: Frame) {
    f.Object? &&
    match f.error
    case None => outcome == Resolved(f.result)
    case Some(e) =>
      && outcome.Rejected? && outcome.reason.CallError?
      && outcome.reason.code == (match e.code case None => 0 case Some(code) => code)
      && outcome.reason.message == (match e.message case None => "unknown error" case Some(message) => message)
      && outcome.reason.data == e.data
  }

  /** One message settles exactly the pending calls it answers, each by the first answer in
      the batch; every other call is as before, and no call appears. */
  lemma {:induction false} MessageSettlesWhatItAnswers(c: Client, frames: seq<Frame>, id: nat)
    requires CallsInv(c)
    ensures var d, i := DoFrames(c, frames), FirstResponse(frames, id);
            && CallsInv(d) && d.nextId == c.nextId && d.closed == c.closed
            && (id in c.pending && i < |frames| ==>
                  id !in d.pending && id in d.calls && IsAnswerOf(d.calls[id], frames[i]))
            && (id in c.pending && i == |frames| ==> id in d.pending && id !in d.calls)
            && (id !in c.pending ==> id !in d.pending && (id in d.calls <==> id in c.calls))
            && (id in c.calls ==> d.calls[id] == c.calls[id])
  {
    if frames != [] {
      MessageSettlesWhatItAnswers(c, frames[..|frames| - 1], id);
    }
  }
}
