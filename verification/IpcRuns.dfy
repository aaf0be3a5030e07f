/** Runs of the IPC and scheduling operations: what holds in every state that any sequence of them reaches. */
module IpcRuns {
  import opened Capability
  import opened Tasks
  import opened Ipc

  datatype Op =
    | SendOp(long: bool, blocking: bool, e: Endpoint, delivered: bool)
    | ReceiveOp(blocking: bool, e: Endpoint, delivered: bool)
    | ReplyOp(e: Endpoint, delivered: bool)
    | CallOp(e: Endpoint, delivered: bool)
    | CancelOp(e: Endpoint)
    | KillOp(t: Task)
    | SuspendOp(t: Task)
    | ResumeOp(t: Task)
    | SwitchOp(t: Task)
    | YieldOp
    | IdleOp
    | NewTaskOp(t: Task)

  /**
   The idle task runs when no other task does; all else is asked for by the current task, of tasks and endpoints that
   exist.
   */
  predicate Enabled(k: State, op: Op) {
    match op
    case IdleOp => k.current == NONE && Q(k, ReadyQueue) != []
    case SendOp(_, _, e, _) => Active(k) && e != NONE
    case ReceiveOp(_, e, _) => Active(k) && e != NONE
    case ReplyOp(e, _) => Active(k) && e != NONE
    case CallOp(e, _) => Active(k) && e != NONE
    case CancelOp(e) => Active(k) && e != NONE
    case KillOp(t) => Active(k) && t in k.tcb
    case SuspendOp(t) => Active(k) && t in k.tcb
    case ResumeOp(t) => Active(k) && t in k.tcb
    case SwitchOp(t) => Active(k) && t in k.tcb
    case YieldOp => Active(k)
    case NewTaskOp(t) => Active(k) && t != NONE && t !in k.tcb
  }

  ghost function Step(k: State, op: Op): (r: Result)
    requires Inv(k) && Enabled(k, op)
  {
    match op
    case SendOp(long, blocking, e, delivered) => Send(k, long, blocking, e, delivered)
    case ReceiveOp(blocking, e, delivered) => Receive(k, blocking, e, delivered)
    case ReplyOp(e, delivered) => Reply(k, e, delivered)
    case CallOp(e, delivered) => Call(k, e, delivered)
    case CancelOp(e) => Ok(Cancel(k, e))
    case KillOp(t) => Kill(k, t)
    case SuspendOp(t) => Ok(Suspend(k, t))
    case ResumeOp(t) => Ok(ResumeTask(k, t))
    case SwitchOp(t) => if k.tcb[t].status.Ready? then SwitchTo(k, t) else Ok(k)
    case YieldOp => Ok(Yield(k))
    case IdleOp =>
      HeadQueued(k, ReadyQueue);
      Dispatch(k, Q(k, ReadyQueue)[0])
    case NewTaskOp(t) => Ok(AddTask(k, t))
  }

  /** The operations that trip an assertion or follow a null pointer. */
  predicate Halts(k: State, op: Op)
    requires Enabled(k, op)
  {
    match op
    case ReceiveOp(_, e, _) => CalledElsewhere(k, e)
    case ReplyOp(e, _) => CalledElsewhere(k, e)
    case KillOp(t) => QueuedCaller(k.tcb[t])
    case _ => false
  }

  /** The operations that leave a task where its control block does not say. */
  predicate Strands(k: State, op: Op)
    requires Enabled(k, op)
  {
    match op
    case ReceiveOp(_, e, delivered) => !delivered && Q(k, Senders(e)) != []
    case CallOp(e, delivered) => !delivered && Q(k, Receivers(e)) != []
    case SuspendOp(t) => k.tcb[t].status.Waiting?
    case _ => false
  }

  /** An operation halts, or breaks the invariants, on exactly these states. */
  lemma StepExact(k: State, op: Op)
    requires Inv(k) && Enabled(k, op)
    ensures Step(k, op).Halt? <==> Halts(k, op)
    ensures Step(k, op).Ok? ==> (Inv(Step(k, op).k) <==> !Strands(k, op))
  {
    match op
    case SendOp(long, blocking, e, delivered) => SendKeeps(k, long, blocking, e, delivered);
    case ReceiveOp(blocking, e, delivered) => ReceiveExact(k, blocking, e, delivered);
    case ReplyOp(e, delivered) => ReplyKeeps(k, e, delivered);
    case CallOp(e, delivered) => CallExact(k, e, delivered);
    case CancelOp(e) =>
    case KillOp(t) => KillKeeps(k, t);
    case SuspendOp(t) => SuspendKeeps(k, t);
    case ResumeOp(t) => ResumeKeeps(k, t);
    case SwitchOp(t) => if k.tcb[t].status.Ready? { SwitchKeeps(k, t); }
    case YieldOp => YieldKeeps(k);
    case IdleOp =>
      HeadQueued(k, ReadyQueue);
      DispatchKeeps(k, Q(k, ReadyQueue)[0]);
    case NewTaskOp(t) =>
      assert OnProcessor(k, k.current);
      AddTaskKeeps(k, t);
  }

  lemma CallExact(k: State, e: Endpoint, delivered: bool)
    requires Inv(k) && Active(k) && e != NONE
    ensures Call(k, e, delivered).Ok?
    ensures Inv(Call(k, e, delivered).k) <==> delivered || Q(k, Receivers(e)) == []
  {
    CallKeeps(k, e);
    if !delivered && Q(k, Receivers(e)) != [] {
      var r := Call(k, e, delivered).k;
      assert !OnProcessor(r, k.current);
    }
  }

  lemma ReceiveExact(k: State, blocking: bool, e: Endpoint, delivered: bool)
    requires Inv(k) && Active(k) && e != NONE
    ensures Receive(k, blocking, e, delivered).Halt? <==> CalledElsewhere(k, e)
    ensures Receive(k, blocking, e, delivered).Ok? ==>
      (Inv(Receive(k, blocking, e, delivered).k) <==> delivered || Q(k, Senders(e)) == [])
  {
    ReceiveKeeps(k, blocking, e);
    if !delivered {
      var t := k.current;
      CurrentOk(k);
      var m := Put(k, t, k.tcb[t].(msg := LongMsg));
      PutKeeps(k, t, k.tcb[t].(msg := LongMsg));
      if k.tcb[t].caller == NONE {
        TakeExact(m, blocking, e);
      } else {
        CallerServed(m, e);
        if Served(m, t, e) {
          ReleaseKeeps(m, Canceled, LongMsg);
          ReleaseSenders(m, Canceled, LongMsg, e);
          TakeExact(Release(m, Canceled, LongMsg), blocking, e);
        }
      }
    }
  }

  /** Letting the caller go changes no waiting queue. */
  lemma ReleaseSenders(k: State, ipc: IpcState, msg: MsgState, e: Endpoint)
    requires Inv(k) && Active(k) && k.tcb[k.current].caller != NONE && k.tcb[k.current].caller in k.tcb
    ensures Q(Release(k, ipc, msg), Senders(e)) == Q(k, Senders(e))
  {
    CurrentOk(k);
    var a := k.tcb[k.current].caller;
    MoveQueue(k, a, WokenSender(k.tcb[a], ipc).(callee := NONE), Senders(e));
  }

  lemma TakeExact(k: State, blocking: bool, e: Endpoint)
    requires Inv(k) && Active(k) && e != NONE && k.tcb[k.current].caller == NONE && k.tcb[k.current].msg.LongMsg?
    ensures TakeMessage(k, blocking, e, false).Ok?
    ensures Inv(TakeMessage(k, blocking, e, false).k) <==> Q(k, Senders(e)) == []
  {
    TakeMessageKeeps(k, blocking, e);
    if Q(k, Senders(e)) != [] {
      assert Exclusive(k, e);
      HeadQueued(k, Senders(e));
      var s, r := Q(k, Senders(e))[0], TakeMessage(k, blocking, e, false).k;
      assert InOrder(k, Senders(e));
      InOrderDistinct(k, Senders(e));
      WithoutMember(Q(k, Senders(e)), s, s);
      assert !HousedAt(r, Senders(e), s);
    }
  }

  // ---------------------------------------------------------------- runs

  /** The kernel when the root task gets the processor. */
  function Boot(root: Task): (k: State) {
    State(map[root := NewTcb(0).(status := Running)], map[], root, 1, [])
  }

  lemma BootOk(root: Task)
    requires root != NONE
    ensures Inv(Boot(root))
  {
  }

  /** A run in which no operation is asked for that halts or strands a task. */
  ghost predicate Legal(k: State, ops: seq<Op>)
    requires Inv(k)
    decreases |ops|
  {
    ops != [] ==>
      && Enabled(k, ops[0]) && !Halts(k, ops[0]) && !Strands(k, ops[0])
      && (StepExact(k, ops[0]); Legal(Step(k, ops[0]).k, ops[1..]))
  }

  /** The state a run ends in: it never halts, and every invariant holds. */
  ghost function Run(k: State, ops: seq<Op>): (r: State)
    requires Inv(k) && Legal(k, ops)
    ensures Inv(r)
    decreases |ops|
  {
    if ops == [] then k
    else
      StepExact(k, ops[0]);
      Run(Step(k, ops[0]).k, ops[1..])
  }

  /** In every reachable state each task is in exactly the place its state fields name. */
  lemma PlacedByState(root: Task, ops: seq<Op>, t: Task)
    requires root != NONE && Inv(Boot(root)) && Legal(Boot(root), ops)
    requires t in Run(Boot(root), ops).tcb
    ensures
      var k := Run(Boot(root), ops);
      var c := k.tcb[t];
      && (t == k.current <==> c.status.Running?)
      && (t in Q(k, ReadyQueue) <==> c.status.Ready?)
      && (forall e :: t in Q(k, Receivers(e)) <==> c.status.Waiting? && c.ipc.Receiving? && c.endpoint == e)
      && (forall e :: t in Q(k, Senders(e)) <==>
            c.status.Waiting? && !c.ipc.Receiving? && !Awaiting(c) && c.endpoint == e)
      && (Awaiting(c) ==> c.callee in k.tcb && k.tcb[c.callee].caller == t)
  {
    var k := Run(Boot(root), ops);
    assert TaskOk(k, t) && OnProcessor(k, t) && HousedAt(k, ReadyQueue, t);
    forall e
      ensures t in Q(k, Receivers(e)) <==> Home(k.tcb[t]) == Receivers(e)
    {
      assert HousedAt(k, Receivers(e), t);
    }
    forall e ensures t in Q(k, Senders(e)) <==> Home(k.tcb[t]) == Senders(e) { assert HousedAt(k, Senders(e), t); }
  }

  // ---------------------------------------------------------------- chains of calls

  /** `n` steps from callee to callee. */
  ghost function Callee(k: State, t: Task, n: nat): (r: Task)
    decreases n
  {
    if n == 0 || t !in k.tcb then t else Callee(k, k.tcb[t].callee, n - 1)
  }

  /** The chain from `t` comes to `r` in `n` steps, over tasks that all wait for the reply of the next. */
  ghost predicate ChainTo(k: State, t: Task, n: nat, r: Task) {
    Callee(k, t, n) == r && forall i: nat :: i < n ==> Callee(k, t, i) in k.tcb && Awaiting(k.tcb[Callee(k, t, i)])
  }

  lemma ChainLonger(k: State, t: Task, n: nat, r: Task)
    requires t in k.tcb && Awaiting(k.tcb[t]) && ChainTo(k, k.tcb[t].callee, n, r)
    ensures ChainTo(k, t, n + 1, r)
  {
    forall i: nat | i < n + 1 ensures Callee(k, t, i) in k.tcb && Awaiting(k.tcb[Callee(k, t, i)]) {
      if i > 0 { assert Callee(k, t, i) == Callee(k, k.tcb[t].callee, i - 1); }
    }
  }

  /** The task at the end of the chain of received calls that starts at `t`. */
  ghost function ChainEnd(k: State, t: Task): (r: Task)
    requires Inv(k) && t in k.tcb && !k.tcb[t].status.Killed?
    ensures r in k.tcb && !Awaiting(k.tcb[r]) && exists n: nat :: ChainTo(k, t, n, r)
    decreases k.clock - k.tcb[t].since
  {
    assert TaskOk(k, t);
    var a := k.tcb[t].callee;
    if a == NONE then
      assert ChainTo(k, t, 0, t);
      t
    else
      assert TaskOk(k, a) && ChainTo(k, a, 0, a);
      var r := if k.tcb[a].status.Killed? then a else ChainEnd(k, a);
      assert exists n: nat :: ChainTo(k, t, n, r) by {
        var n: nat :| ChainTo(k, a, n, r);
        ChainLonger(k, t, n, r);
      }
      r
  }

  /** No chain of received calls comes back to a task on it. */
  lemma {:induction false} ChainAscends(k: State, t: Task, n: nat)
    requires Inv(k) && t in k.tcb && n > 0
    requires forall i :: 0 <= i < n ==> Callee(k, t, i) in k.tcb && Awaiting(k.tcb[Callee(k, t, i)])
    ensures Callee(k, t, n) in k.tcb && k.tcb[t].since < k.tcb[Callee(k, t, n)].since && Callee(k, t, n) != t
    decreases n
  {
    assert Callee(k, t, 0) == t;
    assert TaskOk(k, t);
    var a := k.tcb[t].callee;
    if n > 1 {
      forall i | 0 <= i < n - 1 ensures Callee(k, a, i) in k.tcb && Awaiting(k.tcb[Callee(k, a, i)]) {
        assert Callee(k, t, i + 1) == Callee(k, a, i);
      }
      ChainAscends(k, a, n - 1);
    } else {
      assert Callee(k, a, 0) == a;
    }
  }

  /** Between tasks that live, caller and callee are inverse; a running task has no callee. */
  lemma CallsInverse(k: State, t: Task, u: Task)
    requires Inv(k) && t in k.tcb && u in k.tcb && t != NONE && u != NONE && !k.tcb[t].status.Killed?
    ensures k.tcb[t].callee == u <==> k.tcb[u].caller == t
    ensures k.tcb[t].status.Running? ==> k.tcb[t].callee == NONE
  {
    assert TaskOk(k, t) && TaskOk(k, u);
  }

  // ---------------------------------------------------------------- order of service

  /**
   A receive on `e` takes the message of the first sender, who then either runs on or waits for the reply; nothing
   else takes one.
   */
  lemma TakesFirst(k: State, op: Op)
    requires Inv(k) && Enabled(k, op) && !Halts(k, op) && !Strands(k, op)
    ensures
      var r := Step(k, op);
      && r.Ok?
      && if op.ReceiveOp? && Q(k, Senders(op.e)) != [] then
           var s := Q(k, Senders(op.e))[0];
           && r.k.taken == k.taken + [(op.e, Stamp(k, s))] && s in r.k.tcb && k.current in r.k.tcb
           && if k.tcb[s].ipc.Calling? then
                r.k.tcb[s].callee == k.current && r.k.tcb[k.current].caller == s && r.k.current == k.current
              else r.k.current == s && r.k.tcb[s].ipc.NoIpc? && r.k.tcb[k.current].status.Ready?
         else r.k.taken == k.taken
  {
    StepExact(k, op);
    match op
    case ReceiveOp(blocking, e, delivered) => ReceiveTakes(k, blocking, e, delivered);
    case KillOp(t) => KillKeeps(k, t);
    case _ =>
  }

  /** What the taking of the first message leaves. */
  ghost predicate Took(k: State, e: Endpoint, r: Result) {
    && r.Ok?
    && if Q(k, Senders(e)) != [] then
         var s := Q(k, Senders(e))[0];
         && s in k.tcb && r.k.taken == k.taken + [(e, Stamp(k, s))] && s in r.k.tcb && k.current in r.k.tcb
         && if k.tcb[s].ipc.Calling? then
              r.k.tcb[s].callee == k.current && r.k.tcb[k.current].caller == s && r.k.current == k.current
            else r.k.current == s && r.k.tcb[s].ipc.NoIpc? && r.k.tcb[k.current].status.Ready?
       else r.k.taken == k.taken
  }

  lemma MessageTook(k: State, blocking: bool, e: Endpoint, delivered: bool)
    requires Inv(k) && Active(k) && e != NONE && k.tcb[k.current].caller == NONE && k.tcb[k.current].msg.LongMsg?
    requires delivered || Q(k, Senders(e)) == []
    ensures Took(k, e, TakeMessage(k, blocking, e, delivered))
  {
    TakeMessageKeeps(k, blocking, e);
    if Q(k, Senders(e)) != [] { HeadQueued(k, Senders(e)); }
  }

  lemma ReceiveTakes(k: State, blocking: bool, e: Endpoint, delivered: bool)
    requires Inv(k) && Active(k) && e != NONE && !CalledElsewhere(k, e) && (delivered || Q(k, Senders(e)) == [])
    ensures Took(k, e, Receive(k, blocking, e, delivered))
  {
    var t := k.current;
    CurrentOk(k);
    var m := Put(k, t, k.tcb[t].(msg := LongMsg));
    PutKeeps(k, t, k.tcb[t].(msg := LongMsg));
    if Q(k, Senders(e)) != [] { HeadQueued(k, Senders(e)); }
    if k.tcb[t].caller == NONE {
      MessageTook(m, blocking, e, delivered);
    } else {
      CallerServed(m, e);
      ReleaseKeeps(m, Canceled, LongMsg);
      ReleaseSenders(m, Canceled, LongMsg, e);
      var a := k.tcb[t].caller;
      assert TaskOk(k, t);
      MessageTook(Release(m, Canceled, LongMsg), blocking, e, delivered);
    }
  }

  /**
   In every run, the messages taken from an endpoint are taken in the order of arrival of their senders, none twice,
   and before all that still wait.
   */
  lemma MessagesInOrder(root: Task, ops: seq<Op>, i: nat)
    requires root != NONE && Inv(Boot(root)) && Legal(Boot(root), ops) && i < |Run(Boot(root), ops).taken|
    ensures
      var k := Run(Boot(root), ops);
      && (forall j :: i < j < |k.taken| && k.taken[j].0 == k.taken[i].0 ==> k.taken[i].1 < k.taken[j].1)
      && (forall t :: t in Q(k, Senders(k.taken[i].0)) ==> k.taken[i].1 < Stamp(k, t))
  {
    assert TakenOk(Run(Boot(root), ops), i);
  }

  /** In every reachable state no endpoint has both senders and receivers waiting. */
  lemma NeverBoth(root: Task, ops: seq<Op>, e: Endpoint)
    requires root != NONE && Inv(Boot(root)) && Legal(Boot(root), ops)
    ensures var k := Run(Boot(root), ops); Q(k, Senders(e)) == [] || Q(k, Receivers(e)) == []
  {
    assert Exclusive(Run(Boot(root), ops), e);
  }

  // ---------------------------------------------------------------- what goes wrong outside legal runs

  /** Two tasks and one endpoint: the caller of a call that nobody has received is killed. */
  lemma KillQueuedCallerHalts()
    ensures
      var k := Boot(1);
      && Inv(k)
      && var m := AddTask(k, 2);
         && Inv(m) && Active(m) && Call(m, 7, true).Ok?
         && var n := Call(m, 7, true).k;
            1 in n.tcb && Kill(n, 1).Halt?
  {
    BootOk(1);
    AddTaskKeeps(Boot(1), 2);
  }
}
