/** What becomes of each call, waiter and notification, told from the actions alone. */
module RpcClientTraces {
  import opened Wrappers
  import opened RpcClientModel

  // ---------------------------------------------------------------- the socket

  predicate Ends(a: Action) {
    a.Close? || a.ServerClose?
  }

  ghost predicate HasEnded(actions: seq<Action>) {
    exists i :: 0 <= i < |actions| && Ends(actions[i])
  }

  ghost predicate HasConnected(actions: seq<Action>) {
    exists i :: 0 <= i < |actions| && actions[i].Connect?
  }

  /** A socket is open. */
  ghost predicate IsOpen(actions: seq<Action>) {
    HasConnected(actions) && !HasEnded(actions)
  }

  lemma EndsSnoc(actions: seq<Action>, a: Action)
    ensures HasEnded(actions + [a]) <==> HasEnded(actions) || Ends(a)
    ensures HasConnected(actions + [a]) <==> HasConnected(actions) || a.Connect?
  {
    var all := actions + [a];
    assert all[|actions|] == a;
    if HasEnded(actions) {
      var i :| 0 <= i < |actions| && Ends(actions[i]);
      assert Ends(all[i]);
    }
    if HasConnected(actions) {
      var i :| 0 <= i < |actions| && actions[i].Connect?;
      assert all[i].Connect?;
    }
  }

  lemma RunSnoc(actions: seq<Action>, a: Action)
    ensures Run(actions + [a]) == Step(Run(actions), a)
  {
    assert (actions + [a])[..|actions|] == actions;
  }

  lemma FrameKeepsSocket(c: Client, f: Frame)
    ensures var d := DoFrame(c, f);
            d.connected == c.connected && d.closed == c.closed && d.nextId == c.nextId && d.nextWaiter == c.nextWaiter
  {}

  lemma {:induction false} FramesKeepSocket(c: Client, frames: seq<Frame>)
    ensures var d := DoFrames(c, frames);
            d.connected == c.connected && d.closed == c.closed && d.nextId == c.nextId && d.nextWaiter == c.nextWaiter
  {
    hide DoFrame;
    if frames != [] {
      FramesKeepSocket(c, frames[..|frames| - 1]);
      FrameKeepsSocket(DoFrames(c, frames[..|frames| - 1]), frames[|frames| - 1]);
    }
  }

  function FramesOf(p: Payload): seq<Frame> {
    match p
    case NotJson => []
    case One(f) => [f]
    case Batch(frames) => frames
  }

  lemma MessageIsItsFrames(c: Client, p: Payload)
    ensures DoMessage(c, p) == DoFrames(c, FramesOf(p))
  {
    if p.One? {
      assert [p.frame][..0] == [];
      assert DoFrames(c, [p.frame]) == DoFrame(DoFrames(c, []), p.frame);
    }
  }

  /** A client has closed exactly if it was closed or the server closed, and is connected
      exactly if it once connected and has not closed. */
  lemma {:induction false} OpenIff(actions: seq<Action>)
    ensures Run(actions).closed <==> HasEnded(actions)
    ensures Run(actions).connected <==> IsOpen(actions)
  {
    hide DoCall, DoWait, DoTimeout, DoFrames, FailAll, DoFrame;
    if actions != [] {
      var init, a := actions[..|actions| - 1], actions[|actions| - 1];
      assert actions == init + [a];
      OpenIff(init);
      EndsSnoc(init, a);
      SocketStep(Run(init), a);
    }
  }

  lemma SocketStep(c: Client, a: Action)
    ensures var d := Step(c, a);
            && d.closed == (c.closed || Ends(a))
            && d.connected == (if Ends(a) then a.Close? && c.closed && c.connected
                               else if a.Connect? then c.connected || !c.closed else c.connected)
            && d.nextId == c.nextId + (if a.Call? && c.connected && !c.closed then 1 else 0)
            && d.nextWaiter == c.nextWaiter + (if a.Wait? then 1 else 0)
  {
    hide DoFrames, DoFrame;
    if a.Message? {
      MessageIsItsFrames(c, a.payload);
      FramesKeepSocket(c, FramesOf(a.payload));
    }
  }

  // ---------------------------------------------------------------- calls

  /** How many calls found an open socket. */
  ghost function CallsMade(actions: seq<Action>): nat {
    if actions == [] then 0
    else
      var init := actions[..|actions| - 1];
      CallsMade(init) + (if actions[|actions| - 1].Call? && IsOpen(init) then 1 else 0)
  }

  /** Ids are handed out from 1 on, one to each call that finds an open socket. */
  lemma {:induction false} IdsAreNumbers(actions: seq<Action>)
    ensures Run(actions).nextId == CallsMade(actions) + 1
  {
    hide Step, IsOpen;
    if actions != [] {
      var init, a := actions[..|actions| - 1], actions[|actions| - 1];
      assert actions == init + [a];
      IdsAreNumbers(init);
      OpenIff(init);
      IsOpenIsNotEnded(init);
      SocketStep(Run(init), a);
    }
  }

  lemma IsOpenIsNotEnded(actions: seq<Action>)
    ensures IsOpen(actions) ==> !HasEnded(actions)
  {}

  /** What an action, at a time when the call `id` is pending, makes of it. */
  ghost predicate Settles(a: Action, id: nat, outcome: CallOutcome) {
    match a
    case Message(p) =>
      FirstResponse(FramesOf(p), id) < |FramesOf(p)| &&
      IsAnswerOf(outcome, FramesOf(p)[FirstResponse(FramesOf(p), id)])
    case Close => outcome == Rejected(ClosedByClient)
    case ServerClose => outcome == Rejected(ClosedByServer)
    case _ => false
  }

  ghost predicate Touches(a: Action, id: nat) {
    Ends(a) || (a.Message? && FirstResponse(FramesOf(a.payload), id) < |FramesOf(a.payload)|)
  }

  /** A pending call is settled by the action that touches it, with the outcome that belongs
      to it, and otherwise stays pending. */
  lemma PendingStep(c: Client, a: Action, id: nat)
    requires Inv(c) && id in c.pending
    ensures var d := Step(c, a);
            if Touches(a, id) then id in d.calls && Settles(a, id, d.calls[id]) else id in d.pending
  {
    hide DoFrames, DoWait, DoTimeout, FirstResponse, IsAnswerOf, ArrivalsInv, NothingToDeliver, DeliveriesInv,
         WaitersInv, FairToWaiters;
    match a
    case Message(p) =>
      MessageIsItsFrames(c, p);
      MessageSettlesWhatItAnswers(c, FramesOf(p), id);
    case Wait(wants) => WaitKeepsCalls(c, wants);
    case Timeout(w) => TimeoutKeepsCalls(c, w);
    case Connect =>
    case Call(_) =>
    case Close =>
    case ServerClose =>
  }

  lemma WaitKeepsCalls(c: Client, wants: Notification -> bool)
    ensures DoWait(c, wants).pending == c.pending && DoWait(c, wants).calls == c.calls
  {}

  lemma TimeoutKeepsCalls(c: Client, id: nat)
    ensures DoTimeout(c, id).pending == c.pending && DoTimeout(c, id).calls == c.calls
  {}

  /** The first action from `from` on that touches the call `id`, or the length. */
  ghost function FirstTouch(actions: seq<Action>, from: nat, id: nat): (j: nat)
    requires from <= |actions|
    ensures from <= j <= |actions|
    ensures j < |actions| ==> Touches(actions[j], id)
    ensures forall l :: from <= l < j ==> !Touches(actions[l], id)
    decreases |actions| - from
  {
    if from == |actions| || Touches(actions[from], id) then from else FirstTouch(actions, from + 1, id)
  }

  lemma {:induction false} PendingUntilTouched(actions: seq<Action>, k: nat, n: nat, id: nat)
    requires k <= n <= |actions| && id in Run(actions[..k]).pending
    requires forall l :: k <= l < n ==> !Touches(actions[l], id)
    ensures id in Run(actions[..n]).pending
    decreases n
  {
    hide Step, Touches;
    if k < n {
      PendingUntilTouched(actions, k, n - 1, id);
      RunsKeep(actions[..n - 1]);
      assert actions[..n] == actions[..n - 1] + [actions[n - 1]];
      RunSnoc(actions[..n - 1], actions[n - 1]);
      PendingStep(Run(actions[..n - 1]), actions[n - 1], id);
    }
  }

  /** The fate of every call: without an open socket it gets no id; one that cannot be sent is
      rejected; any other is settled by the first later action that touches it, a response
      with its id or the end of the connection, and is pending until then. */
  lemma EachCallMeetsItsFate(actions: seq<Action>, k: nat)
    requires k < |actions| && actions[k].Call?
    ensures var id, c := CallsMade(actions[..k]) + 1, Run(actions);
            if !IsOpen(actions[..k]) then CallsMade(actions[..k + 1]) == CallsMade(actions[..k])
            else if !actions[k].sendOk then id in c.calls && c.calls[id] == Rejected(SendFailed)
            else
              var j := FirstTouch(actions, k + 1, id);
              if j < |actions| then id in c.calls && Settles(actions[j], id, c.calls[id]) else id in c.pending
  {
    hide Run, Step, Touches, Settles, IsOpen, Inv;
    var before, id := actions[..k], CallsMade(actions[..k]) + 1;
    var c := Run(before);
    assert actions[..k + 1] == before + [actions[k]] && actions[..k + 1][..k] == before;
    assert actions[..|actions|] == actions;
    IdsAreNumbers(before);
    OpenIff(before);
    IsOpenIsNotEnded(before);
    RunSnoc(before, actions[k]);
    if IsOpen(before) {
      CallStep(c, actions[k].sendOk);
      var d := Run(actions[..k + 1]);
      if !actions[k].sendOk {
        SettledStays(actions, k + 1, id);
      } else {
        var j := FirstTouch(actions, k + 1, id);
        PendingUntilTouched(actions, k + 1, j, id);
        if j < |actions| {
          assert actions[..j + 1] == actions[..j] + [actions[j]];
          RunSnoc(actions[..j], actions[j]);
          RunsKeep(actions[..j]);
          PendingStep(Run(actions[..j]), actions[j], id);
          SettledStays(actions, j + 1, id);
        }
      }
    }
  }

  lemma CallStep(c: Client, sendOk: bool)
    requires c.connected && !c.closed
    ensures var d := Step(c, Action.Call(sendOk));
            if sendOk then c.nextId in d.pending else c.nextId in d.calls && d.calls[c.nextId] == Rejected(SendFailed)
  {}

  lemma SettledStays(actions: seq<Action>, k: nat, id: nat)
    requires k <= |actions| && id in Run(actions[..k]).calls
    ensures id in Run(actions).calls && Run(actions).calls[id] == Run(actions[..k]).calls[id]
  {
    assert actions == actions[..k] + actions[k..];
    SettledForGood(actions[..k], actions[k..]);
  }

  // ---------------------------------------------------------------- notifications

  /** The notification a frame brings, if any: named, without an id, and no ping. */
  function NoteIn(f: Frame): seq<Notification> {
    match f
    case NotAnObject => []
    case Object(NoId, Some(name), params, _, _) =>
      if name == "ping" then []
      else [Notification(name, match params case Some(given) => given case None => "{}")]
    case Object(_, _, _, _, _) => []
  }

  function NotesIn(frames: seq<Frame>): seq<Notification> {
    if frames == [] then [] else NotesIn(frames[..|frames| - 1]) + NoteIn(frames[|frames| - 1])
  }

  function NotesOf(actions: seq<Action>): seq<Notification> {
    if actions == [] then []
    else
      var a := actions[|actions| - 1];
      NotesOf(actions[..|actions| - 1]) + (if a.Message? then NotesIn(FramesOf(a.payload)) else [])
  }

  lemma FrameArrives(c: Client, f: Frame)
    ensures DoFrame(c, f).arrived == c.arrived + NoteIn(f)
  {
    hide FirstWaiter;
    assert c.arrived + [] == c.arrived;
  }

  lemma {:induction false} FramesArrive(c: Client, frames: seq<Frame>)
    ensures DoFrames(c, frames).arrived == c.arrived + NotesIn(frames)
  {
    hide DoFrame, NoteIn;
    if frames == [] {
      assert c.arrived + [] == c.arrived;
    } else {
      FramesArrive(c, frames[..|frames| - 1]);
      FrameArrives(DoFrames(c, frames[..|frames| - 1]), frames[|frames| - 1]);
    }
  }

  /** What counts as arrived are the notifications of all messages, in order, and no others;
      each of them is delivered once or still queued. */
  lemma {:induction false} ArrivedAreTheNotifications(actions: seq<Action>)
    ensures Run(actions).arrived == NotesOf(actions)
    ensures forall s :: 0 <= s < |NotesOf(actions)| ==> InQueue(Run(actions), s) != InLog(Run(actions).log, s)
  {
    if actions != [] {
      hide DoFrames, NotesIn, DoWait, DoTimeout, FailAll, InQueue, InLog;
      var init, a := actions[..|actions| - 1], actions[|actions| - 1];
      ArrivedAreTheNotifications(init);
      var c := Run(init);
      if a.Message? {
        MessageIsItsFrames(c, a.payload);
        FramesArrive(c, FramesOf(a.payload));
      } else {
        OthersBringNothing(c, a);
        assert NotesOf(init) + [] == NotesOf(init);
      }
    }
    RunsKeep(actions);
  }

  lemma OthersBringNothing(c: Client, a: Action)
    requires !a.Message?
    ensures Step(c, a).arrived == c.arrived
  {}

  // ---------------------------------------------------------------- waiters that fail

  ghost predicate NoneQueued(c: Client, wants: Notification -> bool) {
    forall i :: 0 <= i < |c.queue| ==> !wants(c.queue[i].note)
  }

  /** Why a waiter fails at an action: its time is up, the connection ends while it waits, or
      it comes after the end and nothing queued will do. */
  ghost predicate FailsAt(c: Client, a: Action, id: nat, reason: Failure) {
    match a
    case Timeout(w) => w == id && IsRegistered(c, id) && reason == TimedOut
    case Close => !c.closed && IsRegistered(c, id) && reason == ClosedByClient
    case ServerClose => IsRegistered(c, id) && reason == ClosedByServer
    case Wait(wants) => id == c.nextWaiter && c.closed && NoneQueued(c, wants) && reason == ClosedWhileWaiting
    case _ => false
  }

  /** In every state a run leads to, exactly these waiters fail, for exactly these reasons. */
  lemma WaitersFailIff(c: Client, a: Action, id: nat, reason: Failure)
    requires Inv(c) && id !in c.waits
    ensures var d := Step(c, a);
            id in d.waits && d.waits[id] == WaitOutcome.Failed(reason) <==> FailsAt(c, a, id, reason)
  {
    hide CallsInv, ArrivalsInv, NothingToDeliver, DeliveriesInv, FairToWaiters, Receipts, DoFrames, FirstMatch, FindWaiter;
    match a
    case Message(p) =>
      MessageIsItsFrames(c, p);
      FramesFailNone(c, FramesOf(p), id);
    case Timeout(w) =>
    case Close => RegisteredIsListed(c, id, ClosedByClient);
    case ServerClose => RegisteredIsListed(c, id, ClosedByServer);
    case Wait(wants) =>
    case Connect =>
    case Call(_) =>
  }

  lemma RegisteredIsListed(c: Client, id: nat, reason: Failure)
    ensures id in FailedWaits(c.waiters, reason) <==> IsRegistered(c, id)
  {}

  lemma {:induction false} FramesFailNone(c: Client, frames: seq<Frame>, id: nat)
    requires id !in c.waits
    ensures var d := DoFrames(c, frames); id in d.waits ==> d.waits[id].Received?
  {
    if frames != [] {
      hide FirstWaiter;
      FramesFailNone(c, frames[..|frames| - 1], id);
    }
  }
}
