/** What each IPC and scheduling operation does, told by control blocks, queues and the processor. */
module IpcOutcomes {
  import opened Capability
  import opened SlotLinks
  import opened Tasks
  import opened Ipc

  /** The control block of `t` is `c`, but for the stamp. */
  predicate Is(r: State, t: Task, c: Tcb) { t in r.tcb && r.tcb[t] == c.(stamp := r.tcb[t].stamp) }

  /** No task came or went, and the control blocks of all but these are as they were. */
  ghost predicate OthersKept(k: State, r: State, some: set<Task>) {
    && (forall x :: x in r.tcb <==> x in k.tcb)
    && (forall x :: x in k.tcb && x !in some ==> r.tcb[x] == k.tcb[x])
  }

  ghost predicate QueuesKept(k: State, r: State, some: set<Place>) {
    forall p :: IsQueue(p) && p !in some ==> Q(r, p) == Q(k, p)
  }

  // ---------------------------------------------------------------- one move

  /** `t`, with the control block `c`, went from its place to the end of its new one. */
  ghost predicate Relocated(k: State, t: Task, c: Tcb, r: State) {
    && t in k.tcb && Is(r, t, c) && OthersKept(k, r, {t}) && r.taken == k.taken
    && r.current == (if Home(c).Processor? then t else if k.current == t then NONE else k.current)
    && (forall p :: IsQueue(p) ==> Q(r, p) == Moved(Q(k, p), t, Home(k.tcb[t]) == p, Home(c) == p))
  }

  lemma MoveRelocates(k: State, t: Task, c: Tcb)
    requires t in k.tcb
    ensures Relocated(k, t, c, Move(k, t, c))
  {
    forall p | IsQueue(p) ensures Q(Move(k, t, c), p) == Moved(Q(k, p), t, Home(k.tcb[t]) == p, Home(c) == p) {
      MoveQueue(k, t, c, p);
    }
  }

  /** Only the control block of `t` changed, and it is `c`. */
  ghost predicate Rewritten(k: State, t: Task, c: Tcb, r: State) {
    && Is(r, t, c) && OthersKept(k, r, {t}) && QueuesKept(k, r, {}) && r.current == k.current && r.taken == k.taken
  }

  lemma {:induction false} IndexBefore(q: seq<Task>, x: Task, t: Task)
    requires x in q
    ensures IndexOf(q + [t], x) == IndexOf(q, x)
  {
    if q[0] != x {
      assert (q + [t])[1..] == q[1..] + [t];
      IndexBefore(q[1..], x, t);
    }
  }

  lemma WithoutJoined(q: seq<Task>, x: Task, t: Task)
    requires x != t
    ensures Without(q + [t], x) == Without(q, x) + [t]
  {
    if x in q { IndexBefore(q, x, t); }
  }

  lemma {:induction false} WithoutLast(q: seq<Task>, x: Task)
    requires x !in q
    ensures Without(q + [x], x) == q && Without(q, x) == q
  {
    assert (q + [x])[|q|] == x;
  }

  lemma WithoutHead(q: seq<Task>)
    requires q != []
    ensures Without(q, q[0]) == q[1..]
  {
    assert IndexOf(q, q[0]) == 0;
  }

  // ---------------------------------------------------------------- the processor changes hands

  /** `x` was ready and now runs; `t`, which ran, is the last in the ready queue. */
  ghost predicate Switched(k: State, t: Task, x: Task, r: State) {
    && t in k.tcb && x in k.tcb
    && Is(r, x, k.tcb[x].(status := Running, resume := Nothing))
    && Is(r, t, k.tcb[t].(status := Ready, resume := InSwitch))
    && r.current == x && Q(r, ReadyQueue) == Without(Q(k, ReadyQueue), x) + [t]
    && OthersKept(k, r, {t, x}) && QueuesKept(k, r, {ReadyQueue}) && r.taken == k.taken
  }

  /** Switching to a ready task. */
  lemma SwitchMeans(k: State, x: Task)
    requires Inv(k) && Active(k) && x in k.tcb && k.tcb[x].status.Ready?
    ensures SwitchTo(k, x).Ok? && Switched(k, k.current, x, SwitchTo(k, x).k)
  {
    hide Inv, Move;
    SwitchKeeps(k, x);
    Apart(k, x);
    var t := k.current;
    var d := k.tcb[t].(status := Ready, resume := InSwitch);
    var m := Move(k, t, d);
    MoveRelocates(k, t, d);
    MoveRelocates(m, x, m.tcb[x].(status := Running, resume := Nothing));
    WithoutJoined(Q(k, ReadyQueue), x, t);
  }

  lemma Apart(k: State, x: Task)
    requires Inv(k) && Active(k) && x in k.tcb && !k.tcb[x].status.Running?
    ensures x != k.current && k.tcb[k.current].status.Running?
  {
    assert OnProcessor(k, k.current) && OnProcessor(k, x);
  }

  /** The idle task gives the processor to the first ready task. */
  lemma IdleMeans(k: State)
    requires Inv(k) && k.current == NONE && Q(k, ReadyQueue) != []
    ensures
      var x := Q(k, ReadyQueue)[0];
      && x in k.tcb && Dispatch(k, x).Ok?
      && var r := Dispatch(k, x).k;
         && Is(r, x, k.tcb[x].(status := Running, resume := Nothing)) && r.current == x
         && Q(r, ReadyQueue) == Q(k, ReadyQueue)[1..]
         && OthersKept(k, r, {x}) && QueuesKept(k, r, {ReadyQueue}) && r.taken == k.taken
  {
    hide Inv, Move;
    HeadQueued(k, ReadyQueue);
    var x := Q(k, ReadyQueue)[0];
    DispatchKeeps(k, x);
    MoveRelocates(k, x, k.tcb[x].(status := Running, resume := Nothing));
    WithoutHead(Q(k, ReadyQueue));
  }

  /** `yield` puts the current task at the end of the ready queue and frees the processor. */
  lemma YieldMeans(k: State)
    requires Inv(k) && Active(k)
    ensures
      var r, t := Yield(k), k.current;
      && Is(r, t, k.tcb[t].(status := Ready)) && r.current == NONE && Q(r, ReadyQueue) == Q(k, ReadyQueue) + [t]
      && OthersKept(k, r, {t}) && QueuesKept(k, r, {ReadyQueue}) && r.taken == k.taken
  {
    hide Inv, Move;
    CurrentOk(k);
    MoveRelocates(k, k.current, k.tcb[k.current].(status := Ready));
  }

  /** `resume_task` makes a suspended task ready, last in the queue, and does nothing to another. */
  lemma ResumeMeans(k: State, t: Task)
    requires Inv(k) && t in k.tcb
    ensures
      var r := ResumeTask(k, t);
      if k.tcb[t].status.Suspended? then
        && Is(r, t, k.tcb[t].(status := Ready)) && r.current == k.current
        && Q(r, ReadyQueue) == Q(k, ReadyQueue) + [t]
        && OthersKept(k, r, {t}) && QueuesKept(k, r, {ReadyQueue}) && r.taken == k.taken
      else r == k
  {
    hide Move;
    assert OnProcessor(k, t);
    MoveRelocates(k, t, k.tcb[t].(status := Ready));
  }

  /**
   `suspend_task` takes a running or ready task off the processor or its queue, rewrites the status of a waiting one,
   which stays queued, and does nothing to another.
   */
  lemma SuspendMeans(k: State, t: Task)
    requires Inv(k) && t in k.tcb
    ensures
      var r, c := Suspend(k, t), k.tcb[t];
      match c.status
      case Waiting => Rewritten(k, t, c.(status := Suspended), r)
      case Suspended => r == k
      case Killed => r == k
      case _ =>
        && Is(r, t, c.(status := Suspended)) && r.current == (if t == k.current then NONE else k.current)
        && Q(r, ReadyQueue) == Without(Q(k, ReadyQueue), t) && t !in Q(r, ReadyQueue)
        && OthersKept(k, r, {t}) && QueuesKept(k, r, {ReadyQueue}) && r.taken == k.taken
  {
    hide Move;
    var c := k.tcb[t];
    MoveRelocates(k, t, c.(status := Suspended));
    assert HousedAt(k, ReadyQueue, t) && InOrder(k, ReadyQueue);
    InOrderDistinct(k, ReadyQueue);
    WithoutMember(Q(k, ReadyQueue), t, t);
  }

  // ---------------------------------------------------------------- kill_task

  /** `t` is killed and in no queue; the rest of every queue is as it was. */
  ghost predicate Struck(k: State, t: Task, r: State) {
    && t in k.tcb && Is(r, t, k.tcb[t].(status := Killed))
    && r.current == (if t == k.current then NONE else k.current)
    && (forall p :: IsQueue(p) ==> t !in Q(r, p) && Q(r, p) == Without(Q(k, p), t))
    && r.taken == k.taken
  }

  /**
   A killed task is off the processor and in no queue; the task that it had called has no caller any more; no other
   control block changed.
   */
  lemma KillKills(k: State, t: Task)
    requires Inv(k) && t in k.tcb && Kill(k, t).Ok?
    ensures
      var r, a := Kill(k, t).k, k.tcb[t].callee;
      && Struck(k, t, r)
      && if Awaiting(k.tcb[t]) then
           a in k.tcb && a != t && Is(r, a, k.tcb[a].(caller := NONE)) && OthersKept(k, r, {t, a})
         else OthersKept(k, r, {t})
  {
    hide Move, Inv;
    var c := k.tcb[t];
    TaskFacts(k, t);
    if Home(c).Nowhere? {
      KillOffQueue(k, t);
    } else {
      MoveRelocates(k, t, c.(status := Killed));
      MovedAway(k, t, c.(status := Killed), Move(k, t, c.(status := Killed)));
    }
  }

  lemma TaskFacts(k: State, t: Task)
    requires Inv(k) && t in k.tcb
    ensures TaskOk(k, t) && OnProcessor(k, t) && Housed(k)
    ensures Awaiting(k.tcb[t]) ==> k.tcb[t].callee != t
    ensures NONE !in k.tcb
  {
    assert TaskOk(k, t) && OnProcessor(k, t) && OnProcessor(k, NONE);
  }

  lemma KillOffQueue(k: State, t: Task)
    requires Housed(k) && TaskOk(k, t) && OnProcessor(k, t) && t in k.tcb && Home(k.tcb[t]).Nowhere? && Kill(k, t).Ok?
    requires Awaiting(k.tcb[t]) ==> k.tcb[t].callee != t
    ensures
      var r, a := Kill(k, t).k, k.tcb[t].callee;
      && Struck(k, t, r)
      && if Awaiting(k.tcb[t]) then
           a in k.tcb && a != t && Is(r, a, k.tcb[a].(caller := NONE)) && OthersKept(k, r, {t, a})
         else OthersKept(k, r, {t})
  {
    var r := Kill(k, t).k;
    forall p | IsQueue(p) ensures t !in Q(r, p) && Q(r, p) == Without(Q(k, p), t) {
      assert HousedAt(k, p, t);
      WithoutLast(Q(k, p), t);
    }
  }

  lemma MovedAway(k: State, t: Task, c: Tcb, r: State)
    requires Housed(k) && Relocated(k, t, c, r) && !IsQueue(Home(c))
    ensures forall p :: IsQueue(p) ==> t !in Q(r, p) && Q(r, p) == Without(Q(k, p), t)
  {
    forall p | IsQueue(p) ensures t !in Q(r, p) && Q(r, p) == Without(Q(k, p), t) {
      assert HousedAt(k, p, t) && InOrder(k, p);
      InOrderDistinct(k, p);
      WithoutMember(Q(k, p), t, t);
    }
  }

  // ---------------------------------------------------------------- sending

  /** The message buffer of the sender. */
  function Sent(c: Tcb, long: bool): (d: Tcb) { c.(msg := if long then LongMsg else ShortMsg) }

  /**
   With no receiver, a blocking send makes the current task wait as the last sender, and frees the processor; one that
   does not block changes nothing but its message.
   */
  lemma SendWaits(k: State, long: bool, blocking: bool, e: Endpoint, delivered: bool)
    requires Inv(k) && Active(k) && e != NONE && Q(k, Receivers(e)) == []
    ensures
      var r, t := Send(k, long, blocking, e, delivered), k.current;
      var c := Sent(k.tcb[t], long);
      && r.Ok?
      && if blocking then
           && Is(r.k, t, c.(status := Waiting, ipc := Sending, event := SendEvent, endpoint := e, resume := InSend))
           && r.k.current == NONE && Q(r.k, Senders(e)) == Q(k, Senders(e)) + [t]
           && OthersKept(k, r.k, {t}) && QueuesKept(k, r.k, {Senders(e)}) && r.k.taken == k.taken
         else Rewritten(k, t, c, r.k)
  {
    hide Inv, Move;
    SendKeeps(k, long, blocking, e, delivered);
    CurrentOk(k);
    var t := k.current;
    MoveRelocates(k, t, Sent(k.tcb[t], long).(status := Waiting, ipc := Sending, event := SendEvent, endpoint := e,
      resume := InSend));
  }

  /** A long message that does not reach a waiting receiver leaves all as it was but the sender's message. */
  lemma SendUndelivered(k: State, blocking: bool, e: Endpoint)
    requires Inv(k) && Active(k) && e != NONE && Q(k, Receivers(e)) != []
    ensures
      var r := Send(k, true, blocking, e, false);
      r.Ok? && Rewritten(k, k.current, Sent(k.tcb[k.current], true), r.k)
  {
    hide Inv;
    SendKeeps(k, true, blocking, e, false);
  }

  /** `x`, with the control block `c`, has the processor; `t`, with `d`, is the last in the ready queue. */
  ghost predicate HandedOver(k: State, t: Task, d: Tcb, x: Task, c: Tcb, r: State) {
    && x in k.tcb && t in k.tcb && x != t
    && Is(r, x, c.(status := Running, resume := Nothing)) && Is(r, t, d.(status := Ready, resume := InSwitch))
    && r.current == x && Q(r, ReadyQueue) == Q(k, ReadyQueue) + [t]
    && OthersKept(k, r, {t, x})
  }

  /**
   A send to a waiting receiver, if the message arrives, gives the first receiver the processor, with no error; the
   sender is ready, last in its queue; nobody else is touched.
   */
  lemma SendDelivers(k: State, long: bool, blocking: bool, e: Endpoint, delivered: bool)
    requires Inv(k) && Active(k) && e != NONE && Q(k, Receivers(e)) != [] && (delivered || !long)
    ensures
      var r, x, t := Send(k, long, blocking, e, delivered), Q(k, Receivers(e))[0], k.current;
      && r.Ok? && x in k.tcb
      && HandedOver(k, t, Sent(k.tcb[t], long), x, k.tcb[x].(ipc := NoIpc, msg := Empty, endpoint := NONE), r.k)
      && Q(r.k, Receivers(e)) == Q(k, Receivers(e))[1..]
      && QueuesKept(k, r.k, {ReadyQueue, Receivers(e)}) && r.k.taken == k.taken
  {
    hide Inv, Move, SwitchTo;
    var t, x := k.current, Q(k, Receivers(e))[0];
    var c := Sent(k.tcb[t], long);
    SendKeeps(k, long, blocking, e, delivered);
    CurrentOk(k);
    HeadQueued(k, Receivers(e));
    OneSide(k, e);
    PutKeeps(k, t, c);
    var m := Put(k, t, c);
    MoveKeeps(m, x, WokenReceiver(m.tcb[x], NoIpc));
    Hands(m, Receivers(e), x, WokenReceiver(m.tcb[x], NoIpc), Move(m, x, WokenReceiver(m.tcb[x], NoIpc)));
  }

  lemma OneSide(k: State, e: Endpoint)
    requires Inv(k)
    ensures Q(k, Senders(e)) == [] || Q(k, Receivers(e)) == []
  {
    assert Exclusive(k, e);
  }

  /** The first task of a waiting queue is woken, and gets the processor from the current task. */
  lemma Hands(m: State, p: Place, x: Task, c: Tcb, n: State)
    requires Inv(m) && Active(m) && (p.Senders? || p.Receivers?) && Q(m, p) != [] && x == Q(m, p)[0]
    requires x in m.tcb && c.status.Ready? && n == Move(m, x, c) && Inv(n)
    ensures SwitchTo(n, x).Ok?
    ensures
      var r := SwitchTo(n, x).k;
      && HandedOver(m, m.current, m.tcb[m.current], x, c, r) && Q(r, p) == Q(m, p)[1..]
      && QueuesKept(m, r, {ReadyQueue, p}) && r.taken == m.taken
  {
    hide Inv, Move, SwitchTo;
    HeadQueued(m, p);
    MoveRelocates(m, x, c);
    SwitchMeans(n, x);
    NotReady(m, x);
    WithoutLast(Q(m, ReadyQueue), x);
    WithoutHead(Q(m, p));
  }

  lemma NotReady(k: State, x: Task)
    requires Inv(k) && x in k.tcb && !k.tcb[x].status.Ready?
    ensures x !in Q(k, ReadyQueue)
  {
    assert HousedAt(k, ReadyQueue, x);
  }

  // ---------------------------------------------------------------- letting a caller go

  /** The wait of `a` is over: it is ready, and `ipc` tells how the wait ended. */
  predicate LetGo(k: State, a: Task, ipc: IpcState, r: State)
    requires a in k.tcb
  {
    Is(r, a, k.tcb[a].(status := Ready, ipc := ipc, event := NoEvent, msg := Empty, endpoint := NONE, callee := NONE))
  }

  /**
   The caller of the current task, if it had one, was told that its call is cancelled; the tasks `some` are told of
   elsewhere; `end` joined the ready queue after the caller.
   */
  ghost predicate CallerTold(k: State, r: State, some: set<Task>, end: seq<Task>)
    requires Active(k)
  {
    var a := k.tcb[k.current].caller;
    if a == NONE then OthersKept(k, r, some) && Q(r, ReadyQueue) == Q(k, ReadyQueue) + end
    else
      && a in k.tcb && a !in some && LetGo(k, a, Canceled, r) && OthersKept(k, r, some + {a})
      && Q(r, ReadyQueue) == Q(k, ReadyQueue) + [a] + end
  }

  /** The current task is ready to receive: nothing but that happened, and its caller was told. */
  ghost predicate Opened(k: State, r: State)
    requires Active(k)
  {
    && Is(r, k.current, k.tcb[k.current].(caller := NONE, msg := LongMsg))
    && r.current == k.current && CallerTold(k, r, {k.current}, [])
    && QueuesKept(k, r, {ReadyQueue}) && r.taken == k.taken
  }

  lemma ReleaseMeans(k: State, ipc: IpcState, msg: MsgState)
    requires Inv(k) && Active(k) && k.tcb[k.current].caller != NONE
    ensures
      var t, a := k.current, k.tcb[k.current].caller;
      && a in k.tcb && a != t
      && var r := Release(k, ipc, msg);
         && LetGo(k, a, ipc, r) && Is(r, t, k.tcb[t].(caller := NONE, msg := msg)) && r.current == t
         && Q(r, ReadyQueue) == Q(k, ReadyQueue) + [a]
         && OthersKept(k, r, {t, a}) && QueuesKept(k, r, {ReadyQueue}) && r.taken == k.taken
  {
    hide Inv, Move;
    CallerAwaits(k);
    var a := k.tcb[k.current].caller;
    MoveRelocates(k, a, WokenSender(k.tcb[a], ipc).(callee := NONE));
  }

  lemma CallerAwaits(k: State)
    requires Inv(k) && Active(k) && k.tcb[k.current].caller != NONE
    ensures
      var a := k.tcb[k.current].caller;
      a in k.tcb && a != k.current && Awaiting(k.tcb[a]) && Home(k.tcb[a]).Nowhere?
  {
    CurrentOk(k);
  }

  /** What `ipc_receive` has done when it looks for a sender. */
  ghost function Opening(k: State): (m: State)
    requires Active(k) && (k.tcb[k.current].caller != NONE ==> k.tcb[k.current].caller in k.tcb)
  {
    var m := Put(k, k.current, k.tcb[k.current].(msg := LongMsg));
    if k.tcb[k.current].caller == NONE then m else Release(m, Canceled, LongMsg)
  }

  /** A receive first lets the caller go, if there is one, as cancelled. */
  lemma ReceiveCancelsCaller(k: State, blocking: bool, e: Endpoint, delivered: bool)
    requires Inv(k) && Active(k) && e != NONE && !CalledElsewhere(k, e)
    ensures k.tcb[k.current].caller != NONE ==> k.tcb[k.current].caller in k.tcb
    ensures
      var m := Opening(k);
      && Opened(k, m) && Inv(m) && Active(m) && m.tcb[m.current].caller == NONE && m.tcb[m.current].msg.LongMsg?
      && Receive(k, blocking, e, delivered) == TakeMessage(m, blocking, e, delivered)
  {
    hide Inv, Move, TakeMessage, Release;
    var t := k.current;
    CurrentOk(k);
    var m := Put(k, t, k.tcb[t].(msg := LongMsg));
    PutKeeps(k, t, k.tcb[t].(msg := LongMsg));
    if k.tcb[t].caller != NONE {
      CallerAwaits(k);
      CallerServed(m, e);
      ReleaseKeeps(m, Canceled, LongMsg);
      ReleaseMeans(m, Canceled, LongMsg);
    }
  }

  // ---------------------------------------------------------------- receiving

  /**
   With no sender, a blocking receive makes the current task wait as the last receiver, and frees the processor; one
   that does not block changes nothing but that the task is ready to receive.
   */
  lemma ReceiveWaits(k: State, blocking: bool, e: Endpoint, delivered: bool)
    requires Inv(k) && Active(k) && e != NONE && !CalledElsewhere(k, e) && Q(k, Senders(e)) == []
    ensures
      var r, t := Receive(k, blocking, e, delivered), k.current;
      var c := k.tcb[t].(caller := NONE, msg := LongMsg);
      && r.Ok?
      && if blocking then
           && Is(r.k, t, c.(status := Waiting, ipc := Receiving, endpoint := e, resume := InReceive))
           && r.k.current == NONE && Q(r.k, Receivers(e)) == Q(k, Receivers(e)) + [t] && CallerTold(k, r.k, {t}, [])
           && QueuesKept(k, r.k, {ReadyQueue, Receivers(e)}) && r.k.taken == k.taken
         else Opened(k, r.k)
  {
    hide Inv, Move, Opening;
    ReceiveCancelsCaller(k, blocking, e, delivered);
    var m, t := Opening(k), k.current;
    CurrentOk(m);
    MoveRelocates(m, t, m.tcb[t].(status := Waiting, ipc := Receiving, endpoint := e, resume := InReceive));
  }

  /**
   A receive takes the first sender's message: a caller goes on waiting, for the reply of the current task; any other
   sender gets the processor, with no error, and the current task is ready, last in the queue.
   */
  lemma ReceiveTakes(k: State, blocking: bool, e: Endpoint)
    requires Inv(k) && Active(k) && e != NONE && !CalledElsewhere(k, e) && Q(k, Senders(e)) != []
    ensures
      var r, s, t := Receive(k, blocking, e, true), Q(k, Senders(e))[0], k.current;
      && r.Ok? && s in k.tcb && s != t && Q(r.k, Senders(e)) == Q(k, Senders(e))[1..]
      && QueuesKept(k, r.k, {ReadyQueue, Senders(e)}) && r.k.taken == k.taken + [(e, k.tcb[s].stamp)]
      && if k.tcb[s].ipc.Calling? then
           && Is(r.k, s, k.tcb[s].(callee := t)) && r.k.current == t && t in r.k.tcb
           && Is(r.k, t, k.tcb[t].(caller := s, msg := LongMsg, since := r.k.tcb[t].since))
           && CallerTold(k, r.k, {t, s}, [])
         else
           && Is(r.k, s, k.tcb[s].(status := Running, ipc := NoIpc, event := NoEvent, msg := Empty, endpoint := NONE,
                                   resume := Nothing))
           && Is(r.k, t, k.tcb[t].(caller := NONE, msg := LongMsg, status := Ready, resume := InSwitch))
           && r.k.current == s && CallerTold(k, r.k, {t, s}, [t])
  {
    hide Inv, Move, Opening, SwitchTo, Accept;
    ReceiveCancelsCaller(k, blocking, e, true);
    var m, s := Opening(k), Q(k, Senders(e))[0];
    HeadQueued(k, Senders(e));
    if k.tcb[k.current].caller != NONE { CallerAwaits(k); }
    TakeMeans(m, blocking, e);
  }

  /** The same from the moment that no caller is pending. */
  lemma TakeMeans(m: State, blocking: bool, e: Endpoint)
    requires Inv(m) && Active(m) && e != NONE && Q(m, Senders(e)) != []
    requires m.tcb[m.current].caller == NONE && m.tcb[m.current].msg.LongMsg?
    ensures
      var r, s, t := TakeMessage(m, blocking, e, true), Q(m, Senders(e))[0], m.current;
      && r.Ok? && s in m.tcb && s != t && Q(r.k, Senders(e)) == Q(m, Senders(e))[1..]
      && OthersKept(m, r.k, {t, s})
      && QueuesKept(m, r.k, {ReadyQueue, Senders(e)}) && r.k.taken == m.taken + [(e, m.tcb[s].stamp)]
      && if m.tcb[s].ipc.Calling? then
           && Is(r.k, s, m.tcb[s].(callee := t)) && r.k.current == t && t in r.k.tcb
           && Is(r.k, t, m.tcb[t].(caller := s, since := r.k.tcb[t].since))
           && Q(r.k, ReadyQueue) == Q(m, ReadyQueue)
         else
           && Is(r.k, s, m.tcb[s].(status := Running, ipc := NoIpc, event := NoEvent, msg := Empty, endpoint := NONE,
                                   resume := Nothing))
           && Is(r.k, t, m.tcb[t].(status := Ready, resume := InSwitch))
           && r.k.current == s && Q(r.k, ReadyQueue) == Q(m, ReadyQueue) + [t]
  {
    hide Inv, Move, SwitchTo, Exclusive;
    OneSide(m, e);
    HeadQueued(m, Senders(e));
    var s := Q(m, Senders(e))[0];
    WithoutHead(Q(m, Senders(e)));
    CurrentOk(m);
    if m.tcb[s].ipc.Calling? {
      MoveRelocates(m, s, m.tcb[s].(callee := m.current));
    } else {
      var c := WokenSender(m.tcb[s], NoIpc);
      MoveKeeps(m, s, c);
      TakeFirst(m, e);
      LoggedHands(m, e, s, c, Move(m, s, c));
    }
  }

  /** As in `Hands`, with the record of the message between. */
  lemma LoggedHands(m: State, e: Endpoint, x: Task, c: Tcb, n: State)
    requires Inv(m) && Active(m) && Q(m, Senders(e)) != [] && x == Q(m, Senders(e))[0]
    requires x in m.tcb && c.status.Ready? && n == Move(m, x, c) && Inv(n)
    ensures
      var o := Log(n, e, m.tcb[x].stamp);
      && SwitchTo(o, x).Ok?
      && var r := SwitchTo(o, x).k;
         && HandedOver(m, m.current, m.tcb[m.current], x, c, r) && Q(r, Senders(e)) == Q(m, Senders(e))[1..]
         && QueuesKept(m, r, {ReadyQueue, Senders(e)}) && r.taken == m.taken + [(e, m.tcb[x].stamp)]
  {
    hide Inv, Move, SwitchTo;
    Hands(m, Senders(e), x, c, n);
    MoveRelocates(m, x, c);
    var o, r := Log(n, e, m.tcb[x].stamp), SwitchTo(n, x).k;
    LogCommutes(n, e, m.tcb[x].stamp, x);
    assert SwitchTo(o, x).k == Log(r, e, m.tcb[x].stamp);
    assert forall p :: Q(Log(r, e, m.tcb[x].stamp), p) == Q(r, p);
  }

  /** It does not matter whether the message is recorded before or after the switch. */
  lemma LogCommutes(k: State, e: Endpoint, n: nat, x: Task)
    requires x in k.tcb && SwitchTo(k, x).Ok?
    ensures SwitchTo(Log(k, e, n), x) == Ok(Log(SwitchTo(k, x).k, e, n))
  {
  }

  /** A long message that does not arrive leaves its sender waiting, in no queue: it is out of the endpoint's. */
  lemma ReceiveUndelivered(k: State, blocking: bool, e: Endpoint)
    requires Inv(k) && Active(k) && e != NONE && !CalledElsewhere(k, e) && Q(k, Senders(e)) != []
    ensures
      var r, t := Receive(k, blocking, e, false), k.current;
      && r.Ok? && Is(r.k, t, k.tcb[t].(caller := NONE, msg := LongMsg)) && r.k.current == t
      && Q(r.k, Senders(e)) == Q(k, Senders(e))[1..] && CallerTold(k, r.k, {t}, [])
      && QueuesKept(k, r.k, {ReadyQueue, Senders(e)}) && r.k.taken == k.taken
  {
    hide Inv, Move, Opening, Exclusive;
    ReceiveCancelsCaller(k, blocking, e, false);
    var m := Opening(k);
    OneSide(m, e);
    HeadQueued(m, Senders(e));
    WithoutHead(Q(m, Senders(e)));
  }

  // ---------------------------------------------------------------- replying and calling

  /**
   A reply that arrives wakes the caller, with no error, and leaves the current task running without one; one that does
   not arrive changes nothing but the message; without a caller nothing happens.
   */
  lemma ReplyAnswers(k: State, e: Endpoint, delivered: bool)
    requires Inv(k) && Active(k) && !CalledElsewhere(k, e)
    ensures
      var r, t, a := Reply(k, e, delivered), k.current, k.tcb[k.current].caller;
      && r.Ok?
      && if a == NONE then r.k == k
         else if !delivered then Rewritten(k, t, k.tcb[t].(msg := LongMsg), r.k)
         else
           && a in k.tcb && a != t && LetGo(k, a, NoIpc, r.k) && Is(r.k, t, k.tcb[t].(caller := NONE, msg := Empty))
           && r.k.current == t && Q(r.k, ReadyQueue) == Q(k, ReadyQueue) + [a]
           && OthersKept(k, r.k, {t, a}) && QueuesKept(k, r.k, {ReadyQueue}) && r.k.taken == k.taken
  {
    hide Inv, Move, Release;
    if k.tcb[k.current].caller != NONE {
      CallerServed(k, e);
      ReleaseMeans(k, NoIpc, Empty);
    }
  }

  /** The control block of a task that called through `e`, and waits. */
  function Waits(c: Tcb, e: Endpoint): (d: Tcb) {
    c.(msg := LongMsg, status := Waiting, ipc := Calling, event := SendEvent, endpoint := e)
  }

  /** With no receiver, a call makes the current task wait as the last sender, and frees the processor. */
  lemma CallWaits(k: State, e: Endpoint, delivered: bool)
    requires Inv(k) && Active(k) && e != NONE && Q(k, Receivers(e)) == []
    ensures
      var r, t := Call(k, e, delivered), k.current;
      && r.Ok? && Is(r.k, t, Waits(k.tcb[t], e).(resume := InCall))
      && r.k.current == NONE && Q(r.k, Senders(e)) == Q(k, Senders(e)) + [t]
      && OthersKept(k, r.k, {t}) && QueuesKept(k, r.k, {Senders(e)}) && r.k.taken == k.taken
  {
    hide Inv, Move;
    CurrentOk(k);
    MoveRelocates(k, k.current, CallerBlock(k.tcb[k.current], e));
  }

  /** A call that does not arrive marks the current task as waiting and leaves it running. */
  lemma CallUndelivered(k: State, e: Endpoint)
    requires Inv(k) && Active(k) && e != NONE && Q(k, Receivers(e)) != []
    ensures Call(k, e, false).Ok? && Rewritten(k, k.current, Waits(k.tcb[k.current], e), Call(k, e, false).k)
  {
    hide Inv, Exclusive;
    HeadQueued(k, Receivers(e));
    OneSide(k, e);
  }

  /**
   A call to a waiting receiver makes the first receiver ready, with the caller recorded; the caller waits for its
   reply, off the processor; nobody else is touched.
   */
  lemma CallConnects(k: State, e: Endpoint)
    requires Inv(k) && Active(k) && e != NONE && Q(k, Receivers(e)) != []
    ensures
      var r, x, t := Call(k, e, true), Q(k, Receivers(e))[0], k.current;
      && r.Ok? && x in k.tcb && x in r.k.tcb && x != t
      && Is(r.k, x, k.tcb[x].(status := Ready, ipc := NoIpc, msg := Empty, endpoint := NONE, caller := t,
                              since := r.k.tcb[x].since))
      && Is(r.k, t, Waits(k.tcb[t], e).(callee := x, resume := InCall))
      && r.k.current == NONE && OthersKept(k, r.k, {t, x})
      && Q(r.k, Receivers(e)) == Q(k, Receivers(e))[1..] && Q(r.k, ReadyQueue) == Q(k, ReadyQueue) + [x]
      && QueuesKept(k, r.k, {ReadyQueue, Receivers(e)}) && r.k.taken == k.taken
  {
    hide Inv, Move, Exclusive;
    var t, x := k.current, Q(k, Receivers(e))[0];
    CurrentOk(k);
    HeadQueued(k, Receivers(e));
    OneSide(k, e);
    var c := WokenReceiver(k.tcb[x], NoIpc).(caller := t, since := k.clock);
    MoveRelocates(k, x, c);
    WithoutHead(Q(k, Receivers(e)));
    var m := Move(k, x, c);
    MoveRelocates(m, t, CallerBlock(k.tcb[t], e).(callee := x));
  }

  // ---------------------------------------------------------------- cancelling, new tasks

  /** Cancelling tells every task that waited at the endpoint so; no other control block and no other queue changes. */
  lemma CancelTells(k: State, e: Endpoint, t: Task)
    requires Inv(k) && t in k.tcb
    ensures
      var r, c := Cancel(k, e), k.tcb[t];
      && r.current == k.current && r.taken == k.taken && QueuesKept(k, r, {ReadyQueue, Receivers(e), Senders(e)})
      && (forall x :: x in r.tcb <==> x in k.tcb)
      && if t in Q(k, Receivers(e)) then Is(r, t, c.(status := Ready, ipc := Canceled, msg := Empty, endpoint := NONE))
         else if t in Q(k, Senders(e)) then
           Is(r, t, c.(status := Ready, ipc := Canceled, event := NoEvent, msg := Empty, endpoint := NONE))
         else t in r.tcb && r.tcb[t] == c
  {
    var m := Drain(k, Receivers(e));
    var r := Drain(m, Senders(e));
    assert DrainedAt(k, Receivers(e), m, t) && DrainedAt(m, Senders(e), r, t);
    assert HousedAt(k, Receivers(e), t) && HousedAt(k, Senders(e), t);
    assert Q(m, Senders(e)) == Q(k, Senders(e)) && TaskOk(k, t);
  }

  /** A new task is suspended, waits for nothing and is called by nobody; nothing else changes. */
  lemma NewTaskMeans(k: State, t: Task)
    requires Inv(k) && t !in k.tcb
    ensures
      var r := AddTask(k, t);
      && Is(r, t, Tcb(Suspended, NoIpc, NoEvent, Empty, NONE, NONE, NONE, Nothing, 0, 0))
      && r.current == k.current && r.taken == k.taken && QueuesKept(k, r, {})
      && (forall x :: x in r.tcb <==> x in k.tcb || x == t) && (forall x :: x in k.tcb ==> r.tcb[x] == k.tcb[x])
      && (forall p :: IsQueue(p) ==> t !in Q(r, p))
  {
    forall p | IsQueue(p) ensures t !in Q(k, p) { assert HousedAt(k, p, t); }
  }
}
