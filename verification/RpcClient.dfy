/** `WsRpcClient` in its own form: fields updated by methods and by loops over the queue,
    the waiters and the pending calls. Every method is proved to take the step of the same
    name in `RpcClientModel`, so a client is always in a state that some run reaches. */
module RpcClient {
  import opened Wrappers
  import opened RpcClientModel

  class WsRpcClient {
    var connected: bool
    var closed: bool
    var nextId: nat
    var pending: set<nat>
    var eventQueue: seq<Event>
    var eventWaiters: seq<Waiter>
    // Promises and the identity of waiters and events are objects in the source.
    var nextWaiter: nat
    var nextSerial: nat
    ghost var calls: map<nat, CallOutcome>
    ghost var waits: map<nat, WaitOutcome>
    ghost var arrived: seq<Notification>
    ghost var log: seq<Delivery>
    ghost var history: seq<Action>

    ghost function View(): Client
      reads this
    {
      Client(connected, closed, nextId, pending, calls, eventQueue, eventWaiters, nextWaiter, waits, arrived, log)
    }

    ghost predicate Consistent()
      reads this
    {
      nextSerial == |arrived|
    }

    ghost predicate Valid()
      reads this
    {
      Consistent() && View() == Run(history)
    }

    /** So everything proved of runs holds of every client. */
    lemma ValidIsInv()
      requires Valid()
      ensures Inv(View())
    {
      RunsKeep(history);
    }

    ghost method Record(a: Action)
      requires View() == Step(Run(history), a) && Consistent()
      modifies this`history
      ensures Valid() && View() == old(View())
    {
      assert (history + [a])[..|history|] == history;
      history := history + [a];
    }

    constructor ()
      ensures Valid() && View() == INIT
    {
      connected, closed, nextId, pending := false, false, 1, {};
      eventQueue, eventWaiters, nextWaiter, nextSerial := [], [], 0, 0;
      calls, waits, arrived, log, history := map[], map[], [], [], [];
    }

    method Connect()
      requires Valid()
      modifies this
      ensures Valid() && View() == Step(old(View()), Action.Connect)
    {
      if !connected && !closed { connected := true; }
      Record(Action.Connect);
    }

    /** `call`: hands out an id; `sendOk` is false when sending throws. `None` when there
        is no open socket, which rejects before an id is taken. */
    method Call(sendOk: bool) returns (id: Option<nat>)
      requires Valid()
      modifies this
      ensures Valid() && View() == Step(old(View()), Action.Call(sendOk))
      ensures id == if old(connected && !closed) then Some(old(nextId)) else None
    {
      if !connected || closed {
        Record(Action.Call(sendOk));
        return None;
      }
      id := Some(nextId);
      assert nextId !in pending by { ValidIsInv(); }
      nextId := nextId + 1;
      pending := pending + {id.value};
      if !sendOk {
        pending := pending - {id.value};
        calls := calls[id.value := Rejected(SendFailed)];
        assert pending == old(pending);
      }
      Record(Action.Call(sendOk));
    }

    /** Scan the queue for the first match. */
    method ScanQueue(wants: Notification -> bool) returns (i: nat)
      ensures i == FirstMatch(eventQueue, wants)
    {
      i := 0;
      while i < |eventQueue|
        invariant i <= |eventQueue|
        invariant FirstMatch(eventQueue, wants) == i + FirstMatch(eventQueue[i..], wants)
      {
        assert eventQueue[i..][1..] == eventQueue[i + 1..];
        if wants(eventQueue[i].note) { return; }
        i := i + 1;
      }
    }

    /** `waitForNotification`: drain the queue first, then register. */
    method WaitForNotification(wants: Notification -> bool)
      requires Valid()
      modifies this
      ensures Valid() && View() == Step(old(View()), Action.Wait(wants))
    {
      hide Run, FirstMatch;
      var w := Waiter(nextWaiter, wants);
      var i := ScanQueue(wants);
      nextWaiter := nextWaiter + 1;
      if i < |eventQueue| {
        waits := waits[w.id := Received(eventQueue[i])];
        log := log + [Delivery(w, eventQueue[i])];
        eventQueue := Without(eventQueue, i);
      } else if closed {
        waits := waits[w.id := Failed(ClosedWhileWaiting)];
      } else {
        eventWaiters := eventWaiters + [w];
      }
      Record(Action.Wait(wants));
    }

    /** The timer of a waiter. */
    method OnTimeout(id: nat)
      requires Valid()
      modifies this
      ensures Valid() && View() == Step(old(View()), Action.Timeout(id))
    {
      var i := FindWaiter(eventWaiters, id);
      if i < |eventWaiters| {
        eventWaiters := Without(eventWaiters, i);
        waits := waits[id := Failed(TimedOut)];
      }
      Record(Action.Timeout(id));
    }

    /** Scan the waiters for the first that matches. */
    method ScanWaiters(note: Notification) returns (i: nat)
      ensures i == FirstWaiter(eventWaiters, note)
    {
      i := 0;
      while i < |eventWaiters|
        invariant i <= |eventWaiters|
        invariant FirstWaiter(eventWaiters, note) == i + FirstWaiter(eventWaiters[i..], note)
      {
        assert eventWaiters[i..][1..] == eventWaiters[i + 1..];
        var waiter := eventWaiters[i];
        if waiter.wants(note) { return; }
        i := i + 1;
      }
    }

    /** Number the arriving notification. */
    method Arrive(note: Notification) returns (e: Event)
      requires Consistent()
      modifies this`nextSerial, this`arrived
      ensures Consistent() && e == Event(|old(arrived)|, note) && arrived == old(arrived) + [note]
    {
      e := Event(nextSerial, note);
      nextSerial := nextSerial + 1;
      arrived := arrived + [note];
    }

    /** Hand it to waiter `i`. */
    method Deliver(note: Notification, i: nat)
      requires Consistent() && i < |eventWaiters|
      modifies this
      ensures Consistent() && View() == Delivered(old(View()), note, i) && history == old(history)
    {
      var e := Arrive(note);
      var waiter := eventWaiters[i];
      eventWaiters := Without(eventWaiters, i);
      waits := waits[waiter.id := Received(e)];
      log := log + [Delivery(waiter, e)];
    }

    /** `handleNotification`: the first waiter that matches takes it, else it is queued. */
    method HandleNotification(note: Notification)
      requires Consistent()
      modifies this
      ensures Consistent() && View() == DoNotify(old(View()), note) && history == old(history)
    {
      if note.name == "ping" { return; }
      var i := ScanWaiters(note);
      if i < |eventWaiters| {
        Deliver(note, i);
      } else {
        var e := Arrive(note);
        eventQueue := eventQueue + [e];
      }
    }

    /** `handleFrame`. */
    method HandleFrame(f: Frame)
      requires Consistent()
      modifies this
      ensures Consistent() && View() == DoFrame(old(View()), f) && history == old(history)
    {
      if f.NotAnObject? { return; }
      if f.id != NoId && f.name.Some? { return; }
      if f.id != NoId {
        if !f.id.NumberId? || f.id.id !in pending { return; }
        pending := pending - {f.id.id};
        if f.error.Some? {
          var e := f.error.value;
          calls := calls[f.id.id := Rejected(CallError(OrZero(e.code), OrUnknown(e.message), e.data))];
          return;
        }
        calls := calls[f.id.id := Resolved(f.result)];
        return;
      }
      if f.name.Some? {
        HandleNotification(Notification(f.name.value, if f.params.Some? then f.params.value else "{}"));
      }
    }

    /** `handleMessage`: one frame, or each frame of a batch in turn. */
    method HandleMessage(p: Payload)
      requires Valid()
      modifies this
      ensures Valid() && View() == Step(old(View()), Action.Message(p))
    {
      match p {
        case NotJson =>
        case Batch(frames) => HandleFrames(frames);
        case One(f) => HandleFrame(f);
      }
      Record(Action.Message(p));
    }

    method HandleFrames(frames: seq<Frame>)
      requires Consistent()
      modifies this
      ensures Consistent() && View() == DoFrames(old(View()), frames) && history == old(history)
    {
      ghost var c := View();
      for i := 0 to |frames|
        invariant Consistent() && View() == DoFrames(c, frames[..i]) && history == old(history)
      {
        assert frames[..i + 1][..i] == frames[..i];
        HandleFrame(frames[i]);
      }
      assert frames[..|frames|] == frames;
    }

    method RejectPending(reason: Failure)
      modifies this`pending, this`calls
      ensures pending == {} && calls == old(calls) + (map id | id in old(pending) :: Rejected(reason))
    {
      var rest := pending;
      while rest != {}
        invariant rest <= old(pending) && pending == old(pending)
        invariant calls == old(calls) + (map id | id in old(pending) - rest :: Rejected(reason))
        decreases rest
      {
        var id :| id in rest;
        rest := rest - {id};
        calls := calls[id := Rejected(reason)];
      }
      assert old(pending) - rest == old(pending);
      pending := {};
    }

    static lemma FailedWaitsNext(waiters: seq<Waiter>, i: nat, reason: Failure)
      requires i < |waiters|
      ensures FailedWaits(waiters[..i + 1], reason)
              == FailedWaits(waiters[..i], reason)[waiters[i].id := Failed(reason)]
    {
      assert waiters[..i + 1][..i] == waiters[..i];
    }

    static lemma PutLast<K, V>(a: map<K, V>, b: map<K, V>, k: K, v: V)
      ensures (a + b)[k := v] == a + b[k := v]
    {}

    method RejectWaiters(reason: Failure)
      modifies this`eventWaiters, this`waits
      ensures eventWaiters == [] && waits == old(waits) + FailedWaits(old(eventWaiters), reason)
    {
      hide FailedWaits;
      var waiters := eventWaiters;
      eventWaiters := [];
      for i := 0 to |waiters|
        invariant eventWaiters == [] && waits == old(waits) + FailedWaits(waiters[..i], reason)
      {
        FailedWaitsNext(waiters, i, reason);
        PutLast(old(waits), FailedWaits(waiters[..i], reason), waiters[i].id, Failed(reason));
        waits := waits[waiters[i].id := Failed(reason)];
      }
      assert waiters[..|waiters|] == waiters;
    }

    /** `failPendingAndWaiters`, after `closed` has been set and the socket dropped. */
    method FailPendingAndWaiters(reason: Failure)
      requires Consistent()
      modifies this
      ensures View() == FailAll(old(View()), reason) && Consistent() && history == old(history)
    {
      RejectPending(reason);
      RejectWaiters(reason);
    }

    /** `close`: a second call does nothing. */
    method Close()
      requires Valid()
      modifies this
      ensures Valid() && View() == Step(old(View()), Action.Close)
    {
      if !closed {
        closed := true;
        connected := false;
        FailPendingAndWaiters(ClosedByClient);
      }
      Record(Action.Close);
    }

    /** `handleClose`: the server ended the connection. */
    method HandleClose()
      requires Valid()
      modifies this
      ensures Valid() && View() == Step(old(View()), Action.ServerClose)
    {
      closed := true;
      connected := false;
      FailPendingAndWaiters(ClosedByServer);
      Record(Action.ServerClose);
    }
  }
}
