/**
 Tasks and endpoints as the kernel keeps them: control blocks linked into queues, changed in place.
 Every method is proved to do to that memory what the operations on states describe, and every assertion
 of the kernel function it models is an assertion here.
 */
module IpcSystem {
  import opened Capability
  import opened SlotLinks
  import opened Tasks
  import opened TaskLinks
  import opened Ipc
  import opened IpcRuns

  type Queues = map<Place, seq<Task>>

  class Kernel {
    var tcb: map<Task, Tcb>
    var current: Task
    var links: Memory

    // history; `clock` is no ghost because control blocks record it, and no decision reads what they record
    var clock: nat
    ghost var taken: seq<(Endpoint, nat)>
    ghost var queues: Queues
    ghost var home: map<Task, Place>

    /** The state that memory represents. */
    ghost function Now(): (k: State)
      reads this
    {
      State(tcb, queues, current, clock, taken)
    }

    ghost predicate Valid()
      reads this
    {
      Represents(links, queues, home) && forall t :: t in home <==> t in tcb
    }

    /** The root task gets the processor; all queues are empty. */
    constructor (root: Task)
      requires root != NONE
      ensures Valid() && Now() == Boot(root) && Inv(Now())
    {
      tcb, current, clock, taken := map[root := NewTcb(0).(status := Running)], root, 1, [];
      var none: Words := map[root := NONE];
      links := Memory(Links(none, none), Links(none, none), map[], map[]);
      queues, home := map[], map[root := Processor];
      new;
      BootOk(root);
    }

    /** The fields that `init_task` sets. */
    method InitTask(t: Task)
      requires Valid() && t != NONE && t !in tcb
      modifies this
      ensures Valid() && Now() == AddTask(old(Now()), t)
    {
      NewRepresents(links, queues, home, t);
      tcb := tcb[t := NewTcb(0)];
      var ready, waiting := links.ready, links.waiting;
      links := links.(ready := Links(ready.prev[t := NONE], ready.next[t := NONE]),
                      waiting := Links(waiting.prev[t := NONE], waiting.next[t := NONE]));
      home := home[t := Nowhere];
    }

    // -------------------------------------------------------------- queues

    /** `push_ready_queue`. */
    method PushReadyQueue(t: Task)
      requires Valid() && t in tcb && tcb[t].status.Ready? && t in home && !IsQueue(home[t])
      modifies this`links, this`queues, this`home
      ensures Valid() && queues == Join(old(queues), ReadyQueue, t) && home == old(home)[t := ReadyQueue]
    {
      hide Represents, Join;
      PushRepresents(links, queues, home, ReadyQueue, t);
      assert links.ready.prev[t] == NONE;
      assert links.ready.next[t] == NONE;
      var h, l := End(links.head, ReadyQueue), End(links.tail, ReadyQueue);
      if h == NONE {
        links := links.(head := links.head[ReadyQueue := t], tail := links.tail[ReadyQueue := t]);
      } else {
        links := links.(ready := Links(links.ready.prev[t := l], links.ready.next[l := t]),
          tail := links.tail[ReadyQueue := t]);
      }
      queues := Join(queues, ReadyQueue, t);
      home := home[t := ReadyQueue];
    }

    /** `push_waiting_queue`. */
    method PushWaitingQueue(p: Place, t: Task)
      requires Valid() && (p.Senders? || p.Receivers?) && t in tcb && tcb[t].status.Waiting? && t in home
      requires !IsQueue(home[t])
      modifies this`links, this`queues, this`home
      ensures Valid() && queues == Join(old(queues), p, t) && home == old(home)[t := p]
    {
      hide Represents, Join;
      PushRepresents(links, queues, home, p, t);
      assert links.waiting.prev[t] == NONE;
      assert links.waiting.next[t] == NONE;
      var h, l := End(links.head, p), End(links.tail, p);
      if h == NONE {
        links := links.(head := links.head[p := t], tail := links.tail[p := t]);
      } else {
        links := links.(waiting := Links(links.waiting.prev[t := l], links.waiting.next[l := t]),
          tail := links.tail[p := t]);
      }
      queues := Join(queues, p, t);
      home := home[t := p];
    }

    /** `remove_ready_queue`. */
    method RemoveReadyQueue(t: Task)
      requires Valid() && t in tcb && tcb[t].status.Ready? && t in home && home[t] == ReadyQueue
      modifies this`links, this`queues, this`home
      ensures Valid() && queues == Leave(old(queues), ReadyQueue, t) && home == old(home)[t := Nowhere]
    {
      hide Represents, Leave, RemoveLinks;
      RemoveRepresents(links, queues, home, ReadyQueue, t, Nowhere);
      RemoveAfter(links, queues, home, ReadyQueue, t);
      var heads, tails, words := Unlink(links.head, links.tail, links.ready, ReadyQueue, t);
      links := links.(ready := words, head := heads, tail := tails);
      queues := Leave(queues, ReadyQueue, t);
      home := home[t := Nowhere];
    }

    /** `remove_waiting_queue`. */
    method RemoveWaitingQueue(p: Place, t: Task)
      requires Valid() && (p.Senders? || p.Receivers?) && t in tcb && tcb[t].status.Waiting? && t in home
      requires home[t] == p
      modifies this`links, this`queues, this`home
      ensures Valid() && queues == Leave(old(queues), p, t) && home == old(home)[t := Nowhere]
    {
      hide Represents, Leave, RemoveLinks;
      RemoveRepresents(links, queues, home, p, t, Nowhere);
      RemoveAfter(links, queues, home, p, t);
      var heads, tails, words := Unlink(links.head, links.tail, links.waiting, p, t);
      links := links.(waiting := words, head := heads, tail := tails);
      queues := Leave(queues, p, t);
      home := home[t := Nowhere];
    }

    // -------------------------------------------------------------- the processor changes hands

    /** The rest of the kernel function in which `t` lost the processor. */
    method Resumed(t: Task)
      requires t in tcb && Resumable(tcb[t]) && tcb[t].status.Running? && current == t
      modifies this`tcb
      ensures tcb == old(tcb)[t := old(tcb)[t].(resume := Nothing)]
    {
      var c := tcb[t];
      match c.resume {
        case InSend =>
          assert c.ipc.NoIpc? || c.ipc.Canceled?;
          assert c.event.NoEvent?;
          assert c.msg.Empty?;
        case InReceive =>
          assert c.ipc.NoIpc? || c.ipc.Canceled?;
          assert c.msg.Empty?;
        case InCall =>
          assert c.ipc.NoIpc? || c.ipc.Canceled?;
          assert c.event.NoEvent?;
          assert c.msg.Empty?;
        case InSwitch =>
          assert c.status.Running?;
          assert current == t;
        case Nothing =>
      }
      tcb := tcb[t := c.(resume := Nothing)];
    }

    /** `switch_task`: `t`, ready and in no queue, gets the processor; in `k` it still is in the ready queue. */
    method SwitchTask(ghost k: State, t: Task)
      requires Valid() && Inv(k) && Active(k) && t in k.tcb && k.tcb[t].status.Ready? && t != k.current
      requires tcb == k.tcb && current == k.current && clock == k.clock && taken == k.taken
      requires Join(queues, ReadyQueue, current) == Leave(Join(k.queues, ReadyQueue, current), ReadyQueue, t)
      requires t in home && !IsQueue(home[t]) && current in home && !IsQueue(home[current])
      modifies this
      ensures Valid() && Ok(Now()) == SwitchTo(k, t)
    {
      hide Represents, Inv, Join, Leave, SwitchTo;
      SwitchSteps(k, t);
      var before := current;
      var a, b := tcb[t], tcb[before];
      tcb := tcb[t := a.(status := Running, stamp := clock + 1)];
      tcb := tcb[before := b.(status := Ready, resume := InSwitch, stamp := clock)];
      current := t;
      PushReadyQueue(before);
      Resumed(t);
      clock := clock + 2;
    }

    /** The current task, with the control block `c`, joins a waiting queue and gives the processor up. */
    method Block(p: Place, c: Tcb)
      requires Valid() && Inv(Now()) && Active(Now()) && (p.Senders? || p.Receivers?) && Home(c) == p
      modifies this
      ensures Valid() && Now() == Move(old(Now()), old(current), c)
    {
      hide Represents, Inv, Join;
      ghost var k := Now();
      var t := current;
      CurrentOk(k);
      OffQueues(k, links, home, t);
      assert links.waiting.prev[t] == NONE;
      assert links.waiting.next[t] == NONE;
      tcb := tcb[t := c.(stamp := clock)];
      PushWaitingQueue(p, t);
      current := NONE;
      clock := clock + 1;
    }

    /** The task `x` leaves its waiting queue and, with the control block `c`, joins the ready queue. */
    method WakeUp(p: Place, x: Task, c: Tcb)
      requires Valid() && Inv(Now()) && (p.Senders? || p.Receivers?) && x in tcb && Home(tcb[x]) == p && c.status.Ready?
      modifies this
      ensures Valid() && Now() == Move(old(Now()), x, c)
    {
      hide Represents, Inv, Join, Leave;
      ghost var k := Now();
      QueuedAt(k, links, home, x);
      RemoveWaitingQueue(p, x);
      tcb := tcb[x := c.(stamp := clock)];
      PushReadyQueue(x);
      clock := clock + 1;
    }

    // -------------------------------------------------------------- sending

    /** `ipc_send_short` and `ipc_send_long`. */
    method IpcSend(long: bool, blocking: bool, e: Endpoint, delivered: bool)
      requires Valid() && Inv(Now()) && Active(Now()) && e != NONE
      modifies this
      ensures Valid() && Ok(Now()) == Send(old(Now()), long, blocking, e, delivered)
    {
      hide Represents, Inv, Move, SwitchTo;
      ghost var k := Now();
      var t := current;
      CurrentOk(k);
      OffQueues(k, links, home, t);
      Ends(k, links, home, e);
      assert links.waiting.prev[t] == NONE;
      assert links.waiting.next[t] == NONE;
      assert tcb[t].callee == NONE;
      var c := tcb[t].(msg := if long then LongMsg else ShortMsg);
      if End(links.head, Receivers(e)) != NONE {
        assert End(links.head, Senders(e)) == NONE;
        var x := End(links.head, Receivers(e));
        assert tcb[x].msg.LongMsg?;
        tcb := tcb[t := c];
        if long && !delivered {
          return;
        }
        PutKeeps(k, t, c);
        SwitchToReceiver(e, x);
      } else if !blocking {
        tcb := tcb[t := c];
      } else {
        Block(Senders(e), c.(status := Waiting, ipc := Sending, event := SendEvent, endpoint := e, resume := InSend));
      }
    }

    /** The first receiver gets the message and the processor. */
    method SwitchToReceiver(e: Endpoint, x: Task)
      requires Valid() && Inv(Now()) && Active(Now()) && Q(Now(), Receivers(e)) != []
      requires x == Q(Now(), Receivers(e))[0] && x in tcb
      modifies this
      ensures Valid() && Ok(Now()) == SwitchTo(Move(old(Now()), x, WokenReceiver(old(tcb)[x], NoIpc)), x)
    {
      hide Represents, Inv, SwitchTo, Join, Leave;
      ghost var k := Now();
      var c := WokenReceiver(tcb[x], NoIpc);
      HeadQueued(k, Receivers(e));
      CurrentOk(k);
      OffQueues(k, links, home, current);
      QueuedAt(k, links, home, x);
      MoveKeeps(k, x, c);
      RemoveWaitingQueue(Receivers(e), x);
      tcb := tcb[x := c.(stamp := clock)];
      clock := clock + 1;
      WokenThenSwitched(links, queues, home, x, current);
      SwitchTask(Move(k, x, c), x);
    }

    /** The task `x`, in no queue, joins the ready queue with the control block `c`. */
    method MakeReady(x: Task, c: Tcb)
      requires Valid() && Inv(Now()) && x in tcb && !IsQueue(Home(tcb[x])) && c.status.Ready?
      modifies this
      ensures Valid() && Now() == Move(old(Now()), x, c)
    {
      hide Represents, Inv, Join;
      ghost var k := Now();
      OffQueues(k, links, home, x);
      tcb := tcb[x := c.(stamp := clock)];
      PushReadyQueue(x);
      clock := clock + 1;
      current := if current == x then NONE else current;
    }

    // -------------------------------------------------------------- receiving and replying

    /** The caller of the current task gets up. */
    method ReleaseCaller(ipc: IpcState, msg: MsgState)
      requires Valid() && Inv(Now()) && Active(Now()) && tcb[current].caller != NONE && tcb[current].caller in tcb
      modifies this
      ensures Valid() && Now() == Release(old(Now()), ipc, msg)
    {
      hide Represents, Inv;
      CallerAwaits(Now());
      var t := current;
      var a := tcb[t].caller;
      MakeReady(a, WokenSender(tcb[a], ipc).(callee := NONE));
      tcb := tcb[t := tcb[t].(caller := NONE, msg := msg)];
    }

    /** `ipc_receive`; a pending call must have come through the same endpoint. */
    method IpcReceive(blocking: bool, e: Endpoint, delivered: bool)
      requires Valid() && Inv(Now()) && Active(Now()) && e != NONE && !CalledElsewhere(Now(), e)
      modifies this
      ensures Valid() && Ok(Now()) == Receive(old(Now()), blocking, e, delivered)
    {
      hide Represents, Inv, Release, TakeMessage;
      ghost var k := Now();
      var t := current;
      CurrentOk(k);
      OffQueues(k, links, home, t);
      assert links.waiting.prev[t] == NONE;
      assert links.waiting.next[t] == NONE;
      assert tcb[t].callee == NONE;
      PutKeeps(k, t, tcb[t].(msg := LongMsg));
      tcb := tcb[t := tcb[t].(msg := LongMsg)];
      if tcb[t].caller != NONE {
        ghost var m := Now();
        CallerServed(m, e);
        ReleaseKeeps(m, Canceled, LongMsg);
        CallerAwaits(m);
        var a := tcb[t].caller;
        OffQueues(m, links, home, a);
        assert tcb[a].status.Waiting?;
        assert tcb[a].ipc.Calling?;
        assert tcb[a].event.SendEvent?;
        assert links.waiting.prev[a] == NONE;
        assert links.waiting.next[a] == NONE;
        assert tcb[a].callee == t;
        assert tcb[a].endpoint == e;
        ReleaseCaller(Canceled, LongMsg);
      }
      TakeFromQueue(blocking, e, delivered);
    }

    /** `ipc_receive` from the moment that no caller is pending. */
    method TakeFromQueue(blocking: bool, e: Endpoint, delivered: bool)
      requires Valid() && Inv(Now()) && Active(Now()) && e != NONE && tcb[current].caller == NONE
      requires tcb[current].msg.LongMsg?
      modifies this
      ensures Valid() && Ok(Now()) == TakeMessage(old(Now()), blocking, e, delivered)
    {
      hide Represents, Inv, Move, SwitchTo, Accept;
      ghost var k := Now();
      var t := current;
      Ends(k, links, home, e);
      if End(links.head, Senders(e)) != NONE {
        assert End(links.head, Receivers(e)) == NONE;
        var s := End(links.head, Senders(e));
        assert tcb[s].callee == NONE;
        assert tcb[s].event.SendEvent?;
        if !delivered {
          QueuedAt(k, links, home, s);
          RemoveWaitingQueue(Senders(e), s);
        } else if tcb[s].ipc.Calling? {
          assert tcb[s].status.Waiting?;
          var n := tcb[s].stamp;
          AcceptCall(e, s);
          taken := taken + [(e, n)];
        } else {
          SwitchToSender(e, s);
        }
      } else if blocking {
        Block(Receivers(e), tcb[t].(status := Waiting, ipc := Receiving, endpoint := e, resume := InReceive));
      }
    }

    /** The first sender's call is received: it waits for the reply. */
    method AcceptCall(e: Endpoint, s: Task)
      requires Valid() && Inv(Now()) && Active(Now()) && s in tcb && Home(tcb[s]) == Senders(e) && tcb[s].ipc.Calling?
      modifies this
      ensures Valid() && Now() == Accept(old(Now()), s)
    {
      hide Represents, Inv, Leave;
      ghost var k := Now();
      CurrentOk(k);
      OnProcessorNow(k);
      QueuedAt(k, links, home, s);
      RemoveWaitingQueue(Senders(e), s);
      var t := current;
      tcb := tcb[s := tcb[s].(callee := t, stamp := clock)];
      tcb := tcb[t := tcb[t].(caller := s, since := clock)];
      clock := clock + 1;
    }

    /** The first sender's message is received: it gets the processor. */
    method SwitchToSender(e: Endpoint, s: Task)
      requires Valid() && Inv(Now()) && Active(Now()) && Q(Now(), Senders(e)) != [] && s == Q(Now(), Senders(e))[0]
      requires s in tcb
      requires tcb[current].caller == NONE && tcb[s].ipc.Sending?
      modifies this
      ensures Valid()
      ensures Ok(Now()) == SwitchTo(Log(Move(old(Now()), s, WokenSender(old(tcb)[s], NoIpc)), e, old(tcb)[s].stamp), s)
    {
      hide Represents, Inv, SwitchTo, Join, Leave;
      ghost var k := Now();
      var c := WokenSender(tcb[s], NoIpc);
      HeadQueued(k, Senders(e));
      CurrentOk(k);
      OffQueues(k, links, home, current);
      QueuedAt(k, links, home, s);
      WokenKeeps(k, e);
      taken := taken + [(e, tcb[s].stamp)];
      RemoveWaitingQueue(Senders(e), s);
      tcb := tcb[s := c.(stamp := clock)];
      clock := clock + 1;
      WokenThenSwitched(links, queues, home, s, current);
      SwitchTask(Log(Move(k, s, c), e, k.tcb[s].stamp), s);
    }

    /** `ipc_reply`; a pending call must have come through the same endpoint. */
    method IpcReply(e: Endpoint, delivered: bool)
      requires Valid() && Inv(Now()) && Active(Now()) && e != NONE && !CalledElsewhere(Now(), e)
      modifies this
      ensures Valid() && Ok(Now()) == Reply(old(Now()), e, delivered)
    {
      hide Represents, Inv, Release;
      var t := current;
      if tcb[t].caller == NONE {
        return;
      }
      CallerServed(Now(), e);
      var a := tcb[t].caller;
      assert tcb[a].callee == t;
      assert tcb[a].status.Waiting?;
      assert tcb[a].ipc.Calling?;
      assert tcb[a].event.SendEvent?;
      assert tcb[a].msg.LongMsg?;
      assert tcb[a].endpoint == e;
      if !delivered {
        tcb := tcb[t := tcb[t].(msg := LongMsg)];
        return;
      }
      ReleaseCaller(NoIpc, Empty);
    }

    // -------------------------------------------------------------- calling

    /** `ipc_call`. */
    method IpcCall(e: Endpoint, delivered: bool)
      requires Valid() && Inv(Now()) && Active(Now()) && e != NONE
      modifies this
      ensures Valid() && Ok(Now()) == Call(old(Now()), e, delivered)
    {
      hide Represents, Inv, Move, Connect;
      ghost var k := Now();
      var t := current;
      CurrentOk(k);
      Ends(k, links, home, e);
      if End(links.head, Receivers(e)) != NONE {
        assert End(links.head, Senders(e)) == NONE;
        var x := End(links.head, Receivers(e));
        assert tcb[x].msg.LongMsg?;
        if !delivered {
          tcb := tcb[t := CallerBlock(tcb[t], e).(resume := tcb[t].resume)];
          return;
        }
        ConnectReceiver(e, x);
      } else {
        Block(Senders(e), CallerBlock(tcb[t], e));
      }
    }

    /** The first receiver gets the call; the current task waits for the reply. */
    method ConnectReceiver(e: Endpoint, x: Task)
      requires Valid() && Inv(Now()) && Active(Now()) && e != NONE && x in tcb && Home(tcb[x]) == Receivers(e)
      modifies this
      ensures Valid() && Now() == Connect(old(Now()), e, x)
    {
      hide Represents, Inv, Join, Leave;
      ghost var k := Now();
      ConnectSteps(k, e, x);
      var t := current;
      WakeUp(Receivers(e), x, WokenReceiver(tcb[x], NoIpc).(caller := t, since := clock));
      tcb := tcb[t := CallerBlock(tcb[t], e).(callee := x, stamp := clock)];
      current := NONE;
      clock := clock + 1;
    }

    // -------------------------------------------------------------- cancelling

    /** One loop of `ipc_cancel`. */
    method CancelQueue(p: Place)
      requires Valid() && Inv(Now()) && (p.Senders? || p.Receivers?)
      modifies this
      ensures Valid() && Inv(Now()) && Now() == Drain(old(Now()), p)
    {
      hide Represents, Inv, Move, Drained;
      EndIs(Now(), links, home, p);
      while End(links.head, p) != NONE
        invariant Valid() && Inv(Now()) && EndOk(Now(), links, p)
        invariant Drain(Now(), p) == Drain(old(Now()), p)
        decreases |Q(Now(), p)|
      {
        var x := End(links.head, p);
        DrainOneKeeps(Now(), p);
        DrainUnfolds(Now(), p);
        WakeUp(p, x, if p.Receivers? then WokenReceiver(tcb[x], Canceled) else WokenSender(tcb[x], Canceled));
        EndIs(Now(), links, home, p);
      }
    }

    /** `ipc_cancel`. */
    method IpcCancel(e: Endpoint)
      requires Valid() && Inv(Now())
      modifies this
      ensures Valid() && Now() == Cancel(old(Now()), e)
    {
      CancelQueue(Receivers(e));
      CancelQueue(Senders(e));
    }

    // -------------------------------------------------------------- task control

    /** `kill_task`; not of a caller whose call nobody has received. */
    method KillTask(t: Task)
      requires Valid() && Inv(Now()) && t in tcb && !QueuedCaller(tcb[t])
      modifies this
      ensures Valid() && Ok(Now()) == Kill(old(Now()), t)
    {
      hide Represents, Inv, Leave;
      ghost var k := Now();
      KillSteps(k, links, home, t);
      var c := tcb[t];
      match c.status {
        case Ready =>
          RemoveReadyQueue(t);
          tcb := tcb[t := c.(status := Killed, stamp := clock)];
          clock := clock + 1;
        case Waiting =>
          assert c.endpoint != NONE;
          if c.ipc.Sending? {
            RemoveWaitingQueue(Senders(c.endpoint), t);
            tcb := tcb[t := c.(status := Killed, stamp := clock)];
            clock := clock + 1;
          } else if c.ipc.Receiving? {
            RemoveWaitingQueue(Receivers(c.endpoint), t);
            tcb := tcb[t := c.(status := Killed, stamp := clock)];
            clock := clock + 1;
          } else {
            assert c.ipc.Calling?;
            assert tcb[c.callee].caller == t;
            tcb := tcb[c.callee := tcb[c.callee].(caller := NONE)];
            tcb := tcb[t := tcb[t].(status := Killed)];
          }
        case Running =>
          tcb := tcb[t := c.(status := Killed, stamp := clock)];
          clock := clock + 1;
          current := NONE;
        case _ =>
          tcb := tcb[t := c.(status := Killed)];
      }
    }

    /** `suspend_task`. */
    method SuspendTask(t: Task)
      requires Valid() && Inv(Now()) && t in tcb
      modifies this
      ensures Valid() && Now() == Suspend(old(Now()), t)
    {
      hide Represents, Inv;
      ghost var k := Now();
      SuspendSteps(k, links, home, t);
      var c := tcb[t];
      match c.status {
        case Running =>
          tcb := tcb[t := c.(status := Suspended, stamp := clock)];
          clock := clock + 1;
          current := NONE;
        case Ready =>
          RemoveReadyQueue(t);
          tcb := tcb[t := c.(status := Suspended, stamp := clock)];
          clock := clock + 1;
        case Waiting =>
          tcb := tcb[t := c.(status := Suspended)];
        case _ =>
      }
    }

    /** `resume_task`. */
    method Resume(t: Task)
      requires Valid() && Inv(Now()) && t in tcb
      modifies this
      ensures Valid() && Now() == ResumeTask(old(Now()), t)
    {
      hide Represents, Inv, Move;
      if tcb[t].status.Suspended? {
        MakeReady(t, tcb[t].(status := Ready));
      }
    }

    /** `yield`. */
    method YieldProcessor()
      requires Valid() && Inv(Now()) && Active(Now())
      modifies this
      ensures Valid() && Now() == Yield(old(Now()))
    {
      hide Represents, Inv, Move;
      CurrentOk(Now());
      MakeReady(current, tcb[current].(status := Ready));
    }

    /** `invoke_sys_task_cap_switch`. */
    method SwitchCap(t: Task)
      requires Valid() && Inv(Now()) && Active(Now()) && t in tcb
      modifies this
      ensures Valid() && Ok(Now()) == if old(tcb)[t].status.Ready? then SwitchTo(old(Now()), t) else Ok(old(Now()))
    {
      hide Represents, Inv, SwitchTo, Join, Leave;
      ghost var k := Now();
      if tcb[t].status.Ready? {
        CurrentOk(k);
        OffQueues(k, links, home, current);
        QueuedAt(k, links, home, t);
        LeaveThenJoin(links, queues, home, t, current);
        RemoveReadyQueue(t);
        SwitchTask(k, t);
      }
    }

    /** One round of `idle`, when a task is ready. */
    method IdleOnce()
      requires Valid() && Inv(Now()) && current == NONE && Q(Now(), ReadyQueue) != []
      modifies this
      ensures Valid() && Q(old(Now()), ReadyQueue)[0] in old(tcb)
      ensures Ok(Now()) == Dispatch(old(Now()), Q(old(Now()), ReadyQueue)[0])
    {
      hide Represents, Inv, Leave;
      ghost var k := Now();
      EndIs(k, links, home, ReadyQueue);
      var t := End(links.head, ReadyQueue);
      QueuedAt(k, links, home, t);
      RemoveReadyQueue(t);
      current := t;
      tcb := tcb[t := tcb[t].(status := Running, stamp := clock)];
      clock := clock + 1;
      Resumed(t);
    }
  }

  /** What both `remove_ready_queue` and `remove_waiting_queue` do to the words and the ends of a queue. */
  method Unlink(head: map<Place, Task>, tail: map<Place, Task>, l: Links, p: Place, t: Task)
    returns (head': map<Place, Task>, tail': map<Place, Task>, l': Links)
    requires t in l.prev && t in l.next
    requires (End(head, p) != t ==> l.prev[t] in l.next) && (End(tail, p) != t ==> l.next[t] in l.prev)
    ensures l' == RemoveLinks(l, End(head, p), End(tail, p), t)
    ensures head' == if End(head, p) == t then head[p := l.next[t]] else head
    ensures tail' == if End(tail, p) == t then tail[p := l.prev[t]] else tail
  {
    var prev, next := l.prev, l.next;
    head', tail' := head, tail;
    if End(head, p) == t {
      head' := head'[p := next[t]];
    } else {
      next := next[prev[t] := next[t]];
    }
    if End(tail, p) == t {
      tail' := tail'[p := prev[t]];
    } else {
      prev := prev[l.next[t] := prev[t]];
    }
    prev := prev[t := NONE];
    next := next[t := NONE];
    l' := Links(prev, next);
  }

  /**
   A task that is not the head has a predecessor; one that is not the tail has a successor: neither write goes to
   null.
   */
  lemma RemoveAfter(m: Memory, qs: Queues, home: map<Task, Place>, p: Place, t: Task)
    requires Represents(m, qs, home) && IsQueue(p) && t in home && home[t] == p
    ensures
      var l := LinksAt(m, p);
      && t in l.prev && t in l.next
      && (End(m.head, p) != t ==> l.prev[t] != NONE && l.prev[t] in l.next)
      && (End(m.tail, p) != t ==> l.next[t] != NONE && l.next[t] in l.prev)
  {
    assert StandsAt(qs, home, p, t) && QueueOk(m, qs, p);
    var q, l := Line(qs, p), LinksAt(m, p);
    var n := IndexOf(q, t);
    assert ChainAt(l, q, n);
    if n > 0 { assert ChainAt(l, q, n - 1); }
    if n + 1 < |q| { assert ChainAt(l, q, n + 1); }
  }

  /** Where a task stands is where its control block says. */
  lemma AtHome(k: State, m: Memory, home: map<Task, Place>, t: Task)
    requires Represents(m, k.queues, home) && Housed(k) && t in k.tcb && t in home
    ensures IsQueue(Home(k.tcb[t])) ==> home[t] == Home(k.tcb[t])
    ensures !IsQueue(Home(k.tcb[t])) ==> !IsQueue(home[t]) && Loose(m.ready, t) && Loose(m.waiting, t)
  {
    assert HousedAt(k, Home(k.tcb[t]), t) && StandsAt(k.queues, home, Home(k.tcb[t]), t);
    assert HousedAt(k, home[t], t) && StandsAt(k.queues, home, home[t], t);
    assert Q(k, home[t]) == Line(k.queues, home[t]) && Q(k, Home(k.tcb[t])) == Line(k.queues, Home(k.tcb[t]));
    assert WordsOk(m, home, t);
  }

  lemma SwitchSteps(k: State, t: Task)
    requires Inv(k) && Active(k) && t in k.tcb && k.tcb[t].status.Ready? && t != k.current
    ensures Resumable(k.tcb[t]) && k.tcb[k.current].status.Running?
    ensures
      var a, b := k.tcb[t].(status := Running, stamp := k.clock + 1),
        k.tcb[k.current].(status := Ready, resume := InSwitch, stamp := k.clock);
      SwitchTo(k, t) == Ok(State(k.tcb[t := a][k.current := b][t := a.(resume := Nothing)],
        Leave(Join(k.queues, ReadyQueue, k.current), ReadyQueue, t), t, k.clock + 2, k.taken))
  {
    assert TaskOk(k, t) && OnProcessor(k, k.current) && OnProcessor(k, t);
    var a, b := k.tcb[t].(status := Running, stamp := k.clock + 1),
      k.tcb[k.current].(status := Ready, resume := InSwitch, stamp := k.clock);
    assert k.tcb[t := a][k.current := b][t := a.(resume := Nothing)] ==
      k.tcb[k.current := b][t := a.(resume := Nothing)];
    assert Leave(k.queues, Processor, k.current) == k.queues;
  }

  lemma OffQueues(k: State, m: Memory, home: map<Task, Place>, t: Task)
    requires Represents(m, k.queues, home) && Inv(k) && t in k.tcb && t in home && !IsQueue(Home(k.tcb[t]))
    ensures !IsQueue(home[t]) && Loose(m.ready, t) && Loose(m.waiting, t)
  {
    AtHome(k, m, home, t);
  }

  lemma QueuedAt(k: State, m: Memory, home: map<Task, Place>, t: Task)
    requires Represents(m, k.queues, home) && Inv(k) && t in k.tcb && t in home && IsQueue(Home(k.tcb[t]))
    ensures home[t] == Home(k.tcb[t]) && t != k.current
  {
    AtHome(k, m, home, t);
    assert OnProcessor(k, t);
  }

  /** A head pointer is null exactly when its queue is empty; never are both heads of an endpoint set. */
  lemma Ends(k: State, m: Memory, home: map<Task, Place>, e: Endpoint)
    requires Represents(m, k.queues, home) && Inv(k)
    ensures EndOk(k, m, Receivers(e)) && EndOk(k, m, Senders(e))
    ensures End(m.head, Receivers(e)) == NONE || End(m.head, Senders(e)) == NONE
  {
    assert Exclusive(k, e);
    EndIs(k, m, home, Receivers(e));
    EndIs(k, m, home, Senders(e));
  }

  /** What a head pointer says about its queue. */
  ghost predicate EndOk(k: State, m: Memory, p: Place) {
    if Q(k, p) == [] then End(m.head, p) == NONE
    else
      var x := Q(k, p)[0];
      End(m.head, p) == x && x != NONE && x in k.tcb && x != k.current && Home(k.tcb[x]) == p && FieldsOk(k.tcb[x])
  }

  lemma EndIs(k: State, m: Memory, home: map<Task, Place>, p: Place)
    requires Represents(m, k.queues, home) && Inv(k) && IsQueue(p)
    ensures EndOk(k, m, p)
  {
    assert QueueOk(m, k.queues, p) && Q(k, p) == Line(k.queues, p);
    if Q(k, p) != [] {
      HeadQueued(k, p);
      assert ChainAt(LinksAt(m, p), Line(k.queues, p), 0);
    }
  }

  /** Joining the ready queue and then leaving it for the processor is not joining it. */
  lemma WokenThenSwitched(m: Memory, qs: Queues, home: map<Task, Place>, x: Task, c: Task)
    requires Represents(m, qs, home) && x in home && home[x] == Nowhere && x != c
    ensures Join(qs, ReadyQueue, c) == Leave(Join(Join(qs, ReadyQueue, x), ReadyQueue, c), ReadyQueue, x)
  {
    assert StandsAt(qs, home, ReadyQueue, x);
    LastWithout(Line(qs, ReadyQueue), x, c);
  }

  lemma CallerAwaits(k: State)
    requires Inv(k) && Active(k) && k.tcb[k.current].caller != NONE
    ensures k.tcb[k.current].caller in k.tcb && Awaiting(k.tcb[k.tcb[k.current].caller])
    ensures k.tcb[k.current].caller != k.current
  {
    CurrentOk(k);
  }

  lemma OnProcessorNow(k: State)
    requires Inv(k) && Active(k)
    ensures forall x :: x in k.tcb ==> (x == k.current <==> k.tcb[x].status.Running?)
  {
    forall x | x in k.tcb ensures x == k.current <==> k.tcb[x].status.Running? { assert OnProcessor(k, x); }
  }

  /** Taking the first sender's message and waking it keeps the invariants. */
  lemma WokenKeeps(k: State, e: Endpoint)
    requires Inv(k) && Q(k, Senders(e)) != [] && Q(k, Senders(e))[0] in k.tcb && k.tcb[Q(k, Senders(e))[0]].ipc.Sending?
    ensures var s := Q(k, Senders(e))[0]; Inv(Log(Move(k, s, WokenSender(k.tcb[s], NoIpc)), e, k.tcb[s].stamp))
  {
    HeadQueued(k, Senders(e));
    var s := Q(k, Senders(e))[0];
    var c := WokenSender(k.tcb[s], NoIpc);
    MoveKeeps(k, s, c);
    MoveQueue(k, s, c, Senders(e));
    TakenInOrder(k, e, Move(k, s, c));
    LogTasks(Move(k, s, c), e, k.tcb[s].stamp);
  }

  lemma ConnectSteps(k: State, e: Endpoint, x: Task)
    requires Inv(k) && Active(k) && x in k.tcb && Home(k.tcb[x]) == Receivers(e)
    ensures x != k.current && k.tcb[k.current].status.Running?
    ensures
      var m := Move(k, x, WokenReceiver(k.tcb[x], NoIpc).(caller := k.current, since := k.clock));
      && m.current == k.current && k.current in m.tcb && m.tcb[k.current] == k.tcb[k.current]
      && x != NONE
      && var c := CallerBlock(k.tcb[k.current], e).(callee := x, stamp := m.clock);
         Connect(k, e, x) == m.(tcb := m.tcb[k.current := c], current := NONE, clock := m.clock + 1)
  {
    assert OnProcessor(k, x) && OnProcessor(k, k.current);
  }

  lemma DrainUnfolds(k: State, p: Place)
    requires Inv(k) && (p.Senders? || p.Receivers?) && Q(k, p) != []
    ensures Q(k, p)[0] in k.tcb && Inv(DrainOne(k, p)) && Drain(k, p) == Drain(DrainOne(k, p), p)
  {
    DrainOneKeeps(k, p);
  }

  lemma KillSteps(k: State, m: Memory, home: map<Task, Place>, t: Task)
    requires Represents(m, k.queues, home) && Inv(k) && t in k.tcb && t in home && !QueuedCaller(k.tcb[t])
    ensures
      var c := k.tcb[t];
      && FieldsOk(c) && (t == k.current <==> c.status.Running?)
      && (IsQueue(Home(c)) ==> home[t] == Home(c))
      && (c.status.Waiting? && c.ipc.Calling? ==> c.callee in k.tcb && k.tcb[c.callee].caller == t)
      && Leave(k.queues, Processor, t) == k.queues
  {
    AtHome(k, m, home, t);
    assert TaskOk(k, t) && OnProcessor(k, t);
  }

  lemma SuspendSteps(k: State, m: Memory, home: map<Task, Place>, t: Task)
    requires Represents(m, k.queues, home) && Inv(k) && t in k.tcb && t in home
    ensures (t == k.current <==> k.tcb[t].status.Running?) && (IsQueue(Home(k.tcb[t])) ==> home[t] == Home(k.tcb[t]))
  {
    AtHome(k, m, home, t);
    assert OnProcessor(k, t);
  }

  /** A task may leave the ready queue before another joins it or after. */
  lemma LeaveThenJoin(m: Memory, qs: Queues, home: map<Task, Place>, t: Task, c: Task)
    requires Represents(m, qs, home) && t in home && home[t] == ReadyQueue
    ensures Join(Leave(qs, ReadyQueue, t), ReadyQueue, c) == Leave(Join(qs, ReadyQueue, c), ReadyQueue, t)
  {
    assert StandsAt(qs, home, ReadyQueue, t);
    FirstWithout(Line(qs, ReadyQueue), t, c);
  }

  lemma FirstWithout(q: seq<Task>, t: Task, c: Task)
    requires t in q
    ensures Without(q + [c], t) == Without(q, t) + [c]
  {
    SameIndex(q, t, c);
  }

  lemma {:induction false} SameIndex(q: seq<Task>, t: Task, c: Task)
    requires t in q
    ensures IndexOf(q + [c], t) == IndexOf(q, t)
  {
    if q[0] != t {
      assert (q + [c])[1..] == q[1..] + [c];
      SameIndex(q[1..], t, c);
    }
  }

  /** The null words of a task in no queue. */
  function AddWords(l: Links, t: Task): (r: Links) { Links(l.prev[t := NONE], l.next[t := NONE]) }

  lemma NewRepresents(m: Memory, qs: Queues, home: map<Task, Place>, t: Task)
    requires Represents(m, qs, home) && t != NONE && t !in home
    ensures Represents(m.(ready := AddWords(m.ready, t), waiting := AddWords(m.waiting, t)), qs, home[t := Nowhere])
  {
    var r, home' := m.(ready := AddWords(m.ready, t), waiting := AddWords(m.waiting, t)), home[t := Nowhere];
    forall p ensures QueueOk(r, qs, p) {
      assert QueueOk(m, qs, p) && StandsAt(qs, home, p, t);
      if IsQueue(p) {
        forall i | 0 <= i < |Line(qs, p)| ensures ChainAt(LinksAt(r, p), Line(qs, p), i) {
          assert ChainAt(LinksAt(m, p), Line(qs, p), i) && Line(qs, p)[i] in Line(qs, p);
        }
      }
    }
    forall p, x ensures StandsAt(qs, home', p, x) { assert StandsAt(qs, home, p, x); }
    forall x ensures WordsOk(r, home', x) { assert WordsOk(m, home, x); }
  }
}
