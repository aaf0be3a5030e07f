/**
 Interprocess communication and scheduling on one processor.  Each kernel operation is one step;
 a step that would trip an assertion or dereference a null pointer halts.
 */
module Ipc {
  import opened Capability
  import opened SlotLinks
  import opened Tasks

  // ---------------------------------------------------------------- invariants

  /** Blocked in a call that its callee has received. */
  predicate Awaiting(c: Tcb) { c.status.Waiting? && c.ipc.Calling? && c.callee != NONE }

  /** What the kernel functions assert of the current task after it got the processor back. */
  predicate Resumable(c: Tcb) {
    match c.resume
    case InSend => (c.ipc.NoIpc? || c.ipc.Canceled?) && c.event.NoEvent? && c.msg.Empty?
    case InCall => (c.ipc.NoIpc? || c.ipc.Canceled?) && c.event.NoEvent? && c.msg.Empty?
    case InReceive => (c.ipc.NoIpc? || c.ipc.Canceled?) && c.msg.Empty?
    case _ => true
  }

  /** What a waiting task waits for, in which kernel function. */
  predicate WaitsOk(c: Tcb) {
    match c.ipc
    case Sending => c.event.SendEvent? && !c.msg.Empty? && c.callee == NONE && c.resume.InSend?
    case Receiving => c.event.NoEvent? && c.msg.LongMsg? && c.callee == NONE && c.caller == NONE && c.resume.InReceive?
    case Calling => c.event.SendEvent? && c.msg.LongMsg? && c.resume.InCall?
    case _ => false
  }

  predicate FieldsOk(c: Tcb) {
    match c.status
    case Running => c.callee == NONE && c.event.NoEvent? && c.resume.Nothing?
    case Ready => c.callee == NONE && c.event.NoEvent? && Resumable(c)
    case Suspended => c.callee == NONE && c.event.NoEvent? && Resumable(c)
    case Waiting => c.endpoint != NONE && WaitsOk(c)
    case Killed => true
  }

  /** Caller and callee point to each other, and a callee was called after its caller was. */
  predicate LinksOk(k: State, t: Task)
    requires t in k.tcb
  {
    var c := k.tcb[t];
    && c.since < k.clock
    && (c.callee != NONE && !c.status.Killed? ==>
          Awaiting(c) && c.callee in k.tcb && k.tcb[c.callee].caller == t && c.since < k.tcb[c.callee].since)
    && (c.caller != NONE ==> c.caller in k.tcb && Awaiting(k.tcb[c.caller]) && k.tcb[c.caller].callee == t)
  }

  predicate TaskOk(k: State, t: Task) {
    t in k.tcb ==> FieldsOk(k.tcb[t]) && LinksOk(k, t)
  }

  /** An endpoint does not have both senders and receivers waiting. */
  predicate Exclusive(k: State, e: Endpoint) {
    Q(k, Senders(e)) == [] || Q(k, Receivers(e)) == []
  }

  /** Messages are taken in the order of their senders' arrival, and before those still waiting. */
  predicate TakenOk(k: State, i: nat) {
    i < |k.taken| ==>
      && k.taken[i].1 < k.clock
      && (forall j :: i < j < |k.taken| && k.taken[j].0 == k.taken[i].0 ==> k.taken[i].1 < k.taken[j].1)
      && (forall n :: 0 <= n < |Q(k, Senders(k.taken[i].0))| ==>
            k.taken[i].1 < Stamp(k, Q(k, Senders(k.taken[i].0))[n]))
  }

  ghost predicate Queued(k: State) {
    && Housed(k)
    && (forall e :: Exclusive(k, e))
    && (forall i: nat :: TakenOk(k, i))
  }

  ghost predicate Inv(k: State) {
    Queued(k) && forall t :: TaskOk(k, t)
  }

  // ---------------------------------------------------------------- what moves keep

  /** The queue that must be empty when a task joins `p`. */
  function Opposite(p: Place): (o: Place) {
    match p
    case Senders(e) => Receivers(e)
    case Receivers(e) => Senders(e)
    case _ => Nowhere
  }

  predicate MayJoin(k: State, c: Tcb) {
    (Home(c).Senders? || Home(c).Receivers?) ==> Q(k, Opposite(Home(c))) == []
  }

  lemma MoveQueued(k: State, t: Task, c: Tcb)
    requires Queued(k) && t in k.tcb && MayJoin(k, c) && (Home(c).Processor? ==> k.current == NONE || k.current == t)
    ensures Queued(Move(k, t, c))
  {
    MoveHoused(k, t, c);
    forall e ensures Exclusive(Move(k, t, c), e) {
      assert Exclusive(k, e);
      MoveQueue(k, t, c, Senders(e));
      MoveQueue(k, t, c, Receivers(e));
    }
    forall i: nat ensures TakenOk(Move(k, t, c), i) { if i < |k.taken| { MoveTaken(k, t, c, i); } }
  }

  lemma MoveTaken(k: State, t: Task, c: Tcb, i: nat)
    requires Queued(k) && t in k.tcb && i < |k.taken|
    ensures TakenOk(Move(k, t, c), i)
  {
    assert TakenOk(k, i);
    var r, p := Move(k, t, c), Senders(k.taken[i].0);
    var q, q' := Q(k, p), Q(r, p);
    MoveQueue(k, t, c, p);
    assert InOrder(k, p) && HousedAt(k, p, t);
    InOrderDistinct(k, p);
    forall n | 0 <= n < |q'| ensures k.taken[i].1 < Stamp(r, q'[n]) {
      WithoutMember(q, t, q'[n]);
      if q'[n] != t { assert q'[n] in q; }
    }
  }

  lemma PutQueued(k: State, t: Task, c: Tcb)
    requires Queued(k) && t in k.tcb && Home(c) == Home(k.tcb[t]) && c.stamp == k.tcb[t].stamp
    ensures Queued(Put(k, t, c))
  {
    PutHoused(k, t, c);
    var r := Put(k, t, c);
    assert forall x :: Stamp(r, x) == Stamp(k, x);
    assert forall p :: Q(r, p) == Q(k, p);
    forall e ensures Exclusive(r, e) { assert Exclusive(k, e); }
    forall i: nat ensures TakenOk(r, i) { assert TakenOk(k, i); }
  }

  /** The message of the task with stamp `n`, now gone from the queue, was taken. */
  function Log(k: State, e: Endpoint, n: nat): (r: State) {
    k.(taken := k.taken + [(e, n)])
  }

  lemma LogQueued(k: State, e: Endpoint, n: nat)
    requires Queued(k) && n < k.clock
    requires forall i :: 0 <= i < |k.taken| && k.taken[i].0 == e ==> k.taken[i].1 < n
    requires forall i :: 0 <= i < |Q(k, Senders(e))| ==> n < Stamp(k, Q(k, Senders(e))[i])
    ensures Queued(Log(k, e, n))
  {
    var r := Log(k, e, n);
    assert forall x :: Stamp(r, x) == Stamp(k, x);
    assert forall p :: Q(r, p) == Q(k, p);
    forall p, t ensures HousedAt(r, p, t) { assert HousedAt(k, p, t); }
    forall t ensures OnProcessor(r, t) { assert OnProcessor(k, t); }
    forall p ensures InOrder(r, p) { assert InOrder(k, p); }
    forall e' ensures Exclusive(r, e') { assert Exclusive(k, e'); }
    forall i: nat ensures TakenOk(r, i) {
      if i < |k.taken| { assert TakenOk(k, i); }
    }
  }

  /** A change of one control block that touches neither links nor history. */
  predicate SameLinks(c: Tcb, d: Tcb) {
    && d.caller == c.caller && d.callee == c.callee && d.since == c.since
    && (Awaiting(d) <==> Awaiting(c)) && (c.status.Killed? ==> d.status.Killed?)
  }

  lemma UpdateTasks(k: State, t: Task, c: Tcb, r: State)
    requires (forall x :: TaskOk(k, x)) && t in k.tcb && SameLinks(k.tcb[t], c) && FieldsOk(c)
    requires r.tcb == k.tcb[t := c] && k.clock <= r.clock
    ensures forall x :: TaskOk(r, x)
  {
    forall x ensures TaskOk(r, x) {
      assert TaskOk(k, x) && TaskOk(k, t);
    }
  }

  lemma MoveKeeps(k: State, t: Task, c: Tcb)
    requires Inv(k) && t in k.tcb && SameLinks(k.tcb[t], c) && FieldsOk(c) && MayJoin(k, c)
    requires Home(c).Processor? ==> k.current == NONE || k.current == t
    ensures Inv(Move(k, t, c))
  {
    MoveQueued(k, t, c);
    UpdateTasks(k, t, c.(stamp := k.clock), Move(k, t, c));
  }

  lemma PutKeeps(k: State, t: Task, c: Tcb)
    requires Inv(k) && t in k.tcb && SameLinks(k.tcb[t], c) && FieldsOk(c)
    requires Home(c) == Home(k.tcb[t]) && c.stamp == k.tcb[t].stamp
    ensures Inv(Put(k, t, c))
  {
    PutQueued(k, t, c);
    UpdateTasks(k, t, c, Put(k, t, c));
  }

  // ---------------------------------------------------------------- the processor changes hands

  datatype Result = Ok(k: State) | Halt

  /** The current task exists. */
  predicate Active(k: State) { k.current != NONE && k.current in k.tcb }

  /** `t` gets the free processor and first of all finishes the kernel function it is in. */
  function Dispatch(k: State, t: Task): (r: Result)
    requires t in k.tcb
  {
    if !Resumable(k.tcb[t]) then Halt
    else Ok(Move(k, t, k.tcb[t].(status := Running, resume := Nothing)))
  }

  /** `switch_task`, together with taking `t` out of the ready queue. */
  function SwitchTo(k: State, t: Task): (r: Result)
    requires t in k.tcb
  {
    if !Active(k) then Halt
    else if t == k.current then Ok(k)
    else Dispatch(Move(k, k.current, k.tcb[k.current].(status := Ready, resume := InSwitch)), t)
  }

  lemma DispatchKeeps(k: State, t: Task)
    requires Inv(k) && k.current == NONE && t in k.tcb && k.tcb[t].status.Ready?
    ensures Dispatch(k, t).Ok? && Inv(Dispatch(k, t).k)
  {
    assert TaskOk(k, t);
    MoveKeeps(k, t, k.tcb[t].(status := Running, resume := Nothing));
  }

  lemma SwitchKeeps(k: State, t: Task)
    requires Inv(k) && Active(k) && t in k.tcb && k.tcb[t].status.Ready?
    ensures SwitchTo(k, t).Ok? && Inv(SwitchTo(k, t).k)
  {
    var c := k.tcb[k.current].(status := Ready, resume := InSwitch);
    assert TaskOk(k, k.current) && OnProcessor(k, k.current) && OnProcessor(k, t);
    MoveKeeps(k, k.current, c);
    DispatchKeeps(Move(k, k.current, c), t);
  }

  // ---------------------------------------------------------------- ipc_send_short, ipc_send_long

  /** A receiver that gets up; `ipc_state` says whether with a message. */
  function WokenReceiver(c: Tcb, ipc: IpcState): (d: Tcb) {
    c.(status := Ready, ipc := ipc, msg := Empty, endpoint := NONE)
  }

  function WokenSender(c: Tcb, ipc: IpcState): (d: Tcb) {
    c.(status := Ready, ipc := ipc, event := NoEvent, msg := Empty, endpoint := NONE)
  }

  /** Both of `ipc_send_short` and `ipc_send_long`; only the latter looks at whether the transfer succeeded. */
  function Send(k: State, long: bool, blocking: bool, e: Endpoint, delivered: bool): (r: Result)
    requires Active(k)
  {
    var t := k.current;
    var c := k.tcb[t].(msg := if long then LongMsg else ShortMsg);
    if c.callee != NONE then Halt
    else if Q(k, Receivers(e)) != [] then
      var x := Q(k, Receivers(e))[0];
      if Q(k, Senders(e)) != [] || x !in k.tcb || !k.tcb[x].msg.LongMsg? then Halt
      else if long && !delivered then Ok(Put(k, t, c))
      else
        var m := Put(k, t, c);
        SwitchTo(Move(m, x, WokenReceiver(m.tcb[x], NoIpc)), x)
    else if !blocking then Ok(Put(k, t, c))
    else Ok(Move(k, t, c.(status := Waiting, ipc := Sending, event := SendEvent, endpoint := e, resume := InSend)))
  }

  /** The facts about the current task that every operation starts from. */
  lemma CurrentOk(k: State)
    requires Inv(k) && Active(k)
    ensures k.tcb[k.current].status.Running? && FieldsOk(k.tcb[k.current]) && LinksOk(k, k.current)
  {
    assert OnProcessor(k, k.current) && TaskOk(k, k.current);
  }

  /** The first task of a queue. */
  lemma HeadQueued(k: State, p: Place)
    requires Inv(k) && IsQueue(p) && Q(k, p) != []
    ensures
      var x := Q(k, p)[0];
      x in k.tcb && x != NONE && x != k.current && Home(k.tcb[x]) == p && FieldsOk(k.tcb[x]) && LinksOk(k, x)
  {
    var x := Q(k, p)[0];
    assert HousedAt(k, p, x) && OnProcessor(k, x) && TaskOk(k, x);
  }

  lemma SendKeeps(k: State, long: bool, blocking: bool, e: Endpoint, delivered: bool)
    requires Inv(k) && Active(k) && e != NONE
    ensures Send(k, long, blocking, e, delivered).Ok? && Inv(Send(k, long, blocking, e, delivered).k)
  {
    var t := k.current;
    var c := k.tcb[t].(msg := if long then LongMsg else ShortMsg);
    CurrentOk(k);
    PutKeeps(k, t, c);
    if Q(k, Receivers(e)) != [] {
      SendWakes(k, c, e);
    } else if blocking {
      MoveKeeps(k, t, c.(status := Waiting, ipc := Sending, event := SendEvent, endpoint := e, resume := InSend));
    }
  }

  lemma SendWakes(k: State, c: Tcb, e: Endpoint)
    requires Inv(k) && Active(k) && Inv(Put(k, k.current, c)) && Q(k, Receivers(e)) != []
    ensures Q(k, Senders(e)) == []
    ensures
      var x, m := Q(k, Receivers(e))[0], Put(k, k.current, c);
      && x in k.tcb && x in m.tcb && k.tcb[x].msg.LongMsg?
      && var r := SwitchTo(Move(m, x, WokenReceiver(m.tcb[x], NoIpc)), x);
         r.Ok? && Inv(r.k)
  {
    var x, m := Q(k, Receivers(e))[0], Put(k, k.current, c);
    assert Exclusive(k, e);
    HeadQueued(k, Receivers(e));
    MoveKeeps(m, x, WokenReceiver(m.tcb[x], NoIpc));
    SwitchKeeps(Move(m, x, WokenReceiver(m.tcb[x], NoIpc)), x);
  }

  // ---------------------------------------------------------------- ipc_receive, ipc_reply

  /** What both functions assert of the caller they let go: `t` has received its call on `e`. */
  predicate Served(k: State, t: Task, e: Endpoint)
    requires t in k.tcb
  {
    var a := k.tcb[t].caller;
    && a in k.tcb && a != t && k.tcb[a].callee == t && k.tcb[a].endpoint == e
    && k.tcb[a].status.Waiting? && k.tcb[a].ipc.Calling? && k.tcb[a].event.SendEvent?
  }

  /** The caller of the current task gets up, with or without a reply. */
  function Release(k: State, ipc: IpcState, msg: MsgState): (r: State)
    requires k.current in k.tcb && k.tcb[k.current].caller in k.tcb
  {
    var t := k.current;
    var a := k.tcb[t].caller;
    Put(Move(k, a, WokenSender(k.tcb[a], ipc).(callee := NONE)), t, k.tcb[t].(caller := NONE, msg := msg))
  }

  lemma ReleaseKeeps(k: State, ipc: IpcState, msg: MsgState)
    requires Inv(k) && Active(k) && k.tcb[k.current].caller != NONE && (ipc.NoIpc? || ipc.Canceled?)
    ensures k.tcb[k.current].caller in k.tcb && Inv(Release(k, ipc, msg))
    ensures Active(Release(k, ipc, msg)) && Release(k, ipc, msg).current == k.current
    ensures Release(k, ipc, msg).tcb[k.current] == k.tcb[k.current].(caller := NONE, msg := msg)
  {
    var t := k.current;
    var a := k.tcb[t].caller;
    CurrentOk(k);
    var c := WokenSender(k.tcb[a], ipc).(callee := NONE);
    assert OnProcessor(k, a);
    MoveQueued(k, a, c);
    PutQueued(Move(k, a, c), t, k.tcb[t].(caller := NONE, msg := msg));
    var r := Release(k, ipc, msg);
    forall x ensures TaskOk(r, x) {
      assert TaskOk(k, x) && TaskOk(k, a) && TaskOk(k, t);
    }
  }

  /** The first sender's call reaches the current task: it leaves the queue and waits for the reply. */
  function Accept(k: State, s: Task): (r: State)
    requires k.current in k.tcb && s in k.tcb
  {
    Put(Move(k, s, k.tcb[s].(callee := k.current)), k.current, k.tcb[k.current].(caller := s, since := k.clock))
  }

  lemma AcceptKeeps(k: State, s: Task)
    requires Inv(k) && Active(k) && s in k.tcb && k.tcb[s].status.Waiting? && k.tcb[s].ipc.Calling?
    requires k.tcb[s].callee == NONE
    requires k.tcb[k.current].caller == NONE
    ensures Inv(Accept(k, s))
  {
    var t := k.current;
    CurrentOk(k);
    assert OnProcessor(k, s);
    MoveQueued(k, s, k.tcb[s].(callee := t));
    PutQueued(Move(k, s, k.tcb[s].(callee := t)), t, k.tcb[t].(caller := s, since := k.clock));
    var r := Accept(k, s);
    forall x ensures TaskOk(r, x) {
      assert TaskOk(k, x) && TaskOk(k, s) && TaskOk(k, t) && OnProcessor(k, x);
    }
  }

  /** `ipc_receive` from the moment that no caller is pending. */
  function TakeMessage(k: State, blocking: bool, e: Endpoint, delivered: bool): (r: Result)
    requires Active(k)
  {
    var t := k.current;
    if Q(k, Senders(e)) != [] then
      var s := Q(k, Senders(e))[0];
      if Q(k, Receivers(e)) != [] || s !in k.tcb || k.tcb[s].callee != NONE then Halt
      else if !delivered then Ok(k.(queues := Leave(k.queues, Senders(e), s)))
      else if k.tcb[s].ipc.Calling? then Ok(Log(Accept(k, s), e, k.tcb[s].stamp))
      else SwitchTo(Log(Move(k, s, WokenSender(k.tcb[s], NoIpc)), e, k.tcb[s].stamp), s)
    else if !blocking then Ok(k)
    else Ok(Move(k, t, k.tcb[t].(status := Waiting, ipc := Receiving, endpoint := e, resume := InReceive)))
  }

  function Receive(k: State, blocking: bool, e: Endpoint, delivered: bool): (r: Result)
    requires Active(k)
  {
    var t := k.current;
    var m := Put(k, t, k.tcb[t].(msg := LongMsg));
    if k.tcb[t].callee != NONE then Halt
    else if k.tcb[t].caller == NONE then TakeMessage(m, blocking, e, delivered)
    else if !Served(m, t, e) then Halt
    else TakeMessage(Release(m, Canceled, LongMsg), blocking, e, delivered)
  }

  /** `ipc_reply`. */
  function Reply(k: State, e: Endpoint, delivered: bool): (r: Result)
    requires Active(k)
  {
    var t := k.current;
    if k.tcb[t].caller == NONE then Ok(k)
    else if !Served(k, t, e) || !k.tcb[k.tcb[t].caller].msg.LongMsg? then Halt
    else if !delivered then Ok(Put(k, t, k.tcb[t].(msg := LongMsg)))
    else Ok(Release(k, NoIpc, Empty))
  }

  /** Taking the first sender's message records a stamp above all recorded and below all that wait. */
  lemma TakenInOrder(k: State, e: Endpoint, m: State)
    requires Inv(k) && Q(k, Senders(e)) != [] && Queued(m) && m.taken == k.taken && k.clock <= m.clock
    requires var q := Q(k, Senders(e)); q[0] in k.tcb && Q(m, Senders(e)) == Without(q, q[0])
    requires forall x :: x != Q(k, Senders(e))[0] ==> Stamp(m, x) == Stamp(k, x)
    ensures Queued(Log(m, e, k.tcb[Q(k, Senders(e))[0]].stamp))
  {
    var q, p := Q(k, Senders(e)), Senders(e);
    var n := k.tcb[q[0]].stamp;
    assert OnProcessor(k, q[0]) && InOrder(k, p);
    InOrderDistinct(k, p);
    assert IndexOf(q, q[0]) == 0;
    forall i | 0 <= i < |k.taken| && k.taken[i].0 == e ensures k.taken[i].1 < n { assert TakenOk(k, i); }
    LogQueued(m, e, n);
  }

  lemma TakeMessageKeeps(k: State, blocking: bool, e: Endpoint)
    requires Inv(k) && Active(k) && e != NONE && k.tcb[k.current].caller == NONE && k.tcb[k.current].msg.LongMsg?
    ensures TakeMessage(k, blocking, e, true).Ok? && Inv(TakeMessage(k, blocking, e, true).k)
  {
    var t := k.current;
    CurrentOk(k);
    if Q(k, Senders(e)) != [] {
      assert Exclusive(k, e);
      HeadQueued(k, Senders(e));
      TakeFirst(k, e);
    } else if blocking {
      MoveKeeps(k, t, k.tcb[t].(status := Waiting, ipc := Receiving, endpoint := e, resume := InReceive));
    }
  }

  lemma LogTasks(k: State, e: Endpoint, n: nat)
    requires forall x :: TaskOk(k, x)
    ensures forall x :: TaskOk(Log(k, e, n), x)
  {
    forall x ensures TaskOk(Log(k, e, n), x) { assert TaskOk(k, x); }
  }

  lemma TakeFirst(k: State, e: Endpoint)
    requires Inv(k) && Active(k) && k.tcb[k.current].caller == NONE && Q(k, Senders(e)) != []
    requires
      var s := Q(k, Senders(e))[0];
      s in k.tcb && s != NONE && s != k.current && Home(k.tcb[s]) == Senders(e) && FieldsOk(k.tcb[s])
    ensures
      var s := Q(k, Senders(e))[0];
      if k.tcb[s].ipc.Calling? then Inv(Log(Accept(k, s), e, k.tcb[s].stamp))
      else
        var r := SwitchTo(Log(Move(k, s, WokenSender(k.tcb[s], NoIpc)), e, k.tcb[s].stamp), s);
        r.Ok? && Inv(r.k)
  {
    var s := Q(k, Senders(e))[0];
    var n := k.tcb[s].stamp;
    if k.tcb[s].ipc.Calling? {
      AcceptKeeps(k, s);
      MoveQueue(k, s, k.tcb[s].(callee := k.current), Senders(e));
      TakenInOrder(k, e, Accept(k, s));
      LogTasks(Accept(k, s), e, n);
    } else {
      var c := WokenSender(k.tcb[s], NoIpc);
      MoveKeeps(k, s, c);
      MoveQueue(k, s, c, Senders(e));
      TakenInOrder(k, e, Move(k, s, c));
      LogTasks(Move(k, s, c), e, n);
      SwitchKeeps(Log(Move(k, s, c), e, n), s);
    }
  }

  /** The current task has a caller, on an endpoint other than `e`. */
  predicate CalledElsewhere(k: State, e: Endpoint)
    requires Active(k)
  {
    var a := k.tcb[k.current].caller;
    a != NONE && a in k.tcb && k.tcb[a].endpoint != e
  }

  /** `ipc_receive` trips an assertion exactly when a call is pending that came through another endpoint. */
  lemma ReceiveKeeps(k: State, blocking: bool, e: Endpoint)
    requires Inv(k) && Active(k) && e != NONE
    ensures Receive(k, blocking, e, true).Halt? <==> CalledElsewhere(k, e)
    ensures Receive(k, blocking, e, true).Ok? ==> Inv(Receive(k, blocking, e, true).k)
  {
    var t := k.current;
    CurrentOk(k);
    var m := Put(k, t, k.tcb[t].(msg := LongMsg));
    PutKeeps(k, t, k.tcb[t].(msg := LongMsg));
    if k.tcb[t].caller == NONE {
      TakeMessageKeeps(m, blocking, e);
    } else {
      CallerServed(m, e);
      if Served(m, t, e) {
        ReleaseKeeps(m, Canceled, LongMsg);
        TakeMessageKeeps(Release(m, Canceled, LongMsg), blocking, e);
      }
    }
  }

  lemma CallerServed(k: State, e: Endpoint)
    requires Inv(k) && Active(k) && k.tcb[k.current].caller != NONE
    ensures Served(k, k.current, e) <==> !CalledElsewhere(k, e)
    ensures k.tcb[k.current].caller in k.tcb && k.tcb[k.tcb[k.current].caller].msg.LongMsg?
  {
    CurrentOk(k);
    assert TaskOk(k, k.tcb[k.current].caller);
  }

  lemma ReplyKeeps(k: State, e: Endpoint, delivered: bool)
    requires Inv(k) && Active(k)
    ensures Reply(k, e, delivered).Halt? <==> CalledElsewhere(k, e)
    ensures Reply(k, e, delivered).Ok? ==> Inv(Reply(k, e, delivered).k)
  {
    var t := k.current;
    CurrentOk(k);
    PutKeeps(k, t, k.tcb[t].(msg := LongMsg));
    if k.tcb[t].caller != NONE {
      CallerServed(k, e);
      ReleaseKeeps(k, NoIpc, Empty);
    }
  }

  // ---------------------------------------------------------------- ipc_call

  /** The control block of a task that calls through `e`. */
  function CallerBlock(c: Tcb, e: Endpoint): (d: Tcb) {
    c.(msg := LongMsg, status := Waiting, ipc := Calling, event := SendEvent, endpoint := e, resume := InCall)
  }

  /** The waiting receiver `x` gets the call of the current task, which waits for the reply. */
  function Connect(k: State, e: Endpoint, x: Task): (r: State)
    requires k.current in k.tcb && x in k.tcb
  {
    var t := k.current;
    var m := Move(k, x, WokenReceiver(k.tcb[x], NoIpc).(caller := t, since := k.clock));
    Move(m, t, CallerBlock(k.tcb[t], e).(callee := x))
  }

  /** `ipc_call`. */
  function Call(k: State, e: Endpoint, delivered: bool): (r: Result)
    requires Active(k)
  {
    var t := k.current;
    if Q(k, Receivers(e)) != [] then
      var x := Q(k, Receivers(e))[0];
      if Q(k, Senders(e)) != [] || x !in k.tcb || !k.tcb[x].msg.LongMsg? then Halt
      else if !delivered then Ok(Put(k, t, CallerBlock(k.tcb[t], e).(resume := k.tcb[t].resume)))
      else Ok(Connect(k, e, x))
    else Ok(Move(k, t, CallerBlock(k.tcb[t], e)))
  }

  lemma ConnectKeeps(k: State, e: Endpoint, x: Task)
    requires Inv(k) && Active(k) && e != NONE && x in k.tcb && k.tcb[x].status.Waiting? && k.tcb[x].ipc.Receiving?
    ensures Inv(Connect(k, e, x))
  {
    var t := k.current;
    CurrentOk(k);
    assert TaskOk(k, x) && OnProcessor(k, x);
    var c := WokenReceiver(k.tcb[x], NoIpc).(caller := t, since := k.clock);
    MoveQueued(k, x, c);
    MoveQueued(Move(k, x, c), t, CallerBlock(k.tcb[t], e).(callee := x));
    var r := Connect(k, e, x);
    forall y ensures TaskOk(r, y) {
      assert TaskOk(k, y) && TaskOk(k, x) && TaskOk(k, t) && OnProcessor(k, y);
    }
  }

  lemma CallKeeps(k: State, e: Endpoint)
    requires Inv(k) && Active(k) && e != NONE
    ensures Call(k, e, true).Ok? && Inv(Call(k, e, true).k)
  {
    var t := k.current;
    CurrentOk(k);
    if Q(k, Receivers(e)) != [] {
      assert Exclusive(k, e);
      HeadQueued(k, Receivers(e));
      ConnectKeeps(k, e, Q(k, Receivers(e))[0]);
    } else {
      MoveKeeps(k, t, CallerBlock(k.tcb[t], e));
    }
  }

  // ---------------------------------------------------------------- ipc_cancel

  function Cancelled(c: Tcb): (d: Tcb) {
    if c.ipc.Receiving? then WokenReceiver(c, Canceled) else WokenSender(c, Canceled)
  }

  /** Exactly the tasks of queue `p` got up, and went to the end of the ready queue in their order. */
  ghost predicate Drained(k: State, p: Place, r: State) {
    && r.current == k.current && r.taken == k.taken
    && (forall x :: x in r.tcb <==> x in k.tcb)
    && (forall x :: x in k.tcb ==> DrainedAt(k, p, r, x))
    && Q(r, p) == [] && Q(r, ReadyQueue) == Q(k, ReadyQueue) + Q(k, p)
    && (forall o :: IsQueue(o) && o != p && o != ReadyQueue ==> Q(r, o) == Q(k, o))
  }

  predicate DrainedAt(k: State, p: Place, r: State, x: Task)
    requires x in k.tcb
  {
    x in r.tcb && r.tcb[x] == if x in Q(k, p) then Cancelled(k.tcb[x]).(stamp := r.tcb[x].stamp) else k.tcb[x]
  }

  /** One round of a loop of `ipc_cancel`. */
  function DrainOne(k: State, p: Place): (m: State)
    requires Q(k, p) != [] && Q(k, p)[0] in k.tcb
  {
    var x := Q(k, p)[0];
    Move(k, x, Cancelled(k.tcb[x]))
  }

  lemma DrainOneKeeps(k: State, p: Place)
    requires Inv(k) && (p.Senders? || p.Receivers?) && Q(k, p) != []
    ensures Q(k, p)[0] in k.tcb && Inv(DrainOne(k, p))
    ensures
      var m := DrainOne(k, p);
      && Q(m, p) == Q(k, p)[1..] && Q(m, ReadyQueue) == Q(k, ReadyQueue) + [Q(k, p)[0]]
      && m.current == k.current && Q(k, p)[0] !in Q(m, p)
  {
    HeadQueued(k, p);
    var x := Q(k, p)[0];
    var c := Cancelled(k.tcb[x]);
    MoveKeeps(k, x, c);
    MoveQueue(k, x, c, p);
    MoveQueue(k, x, c, ReadyQueue);
    assert InOrder(k, p);
    assert IndexOf(Q(k, p), x) == 0;
  }

  /** One of the loops of `ipc_cancel`: the tasks of a waiting queue get up, first one first. */
  ghost function Drain(k: State, p: Place): (r: State)
    requires Inv(k) && (p.Senders? || p.Receivers?)
    ensures Inv(r) && Drained(k, p, r)
    decreases |Q(k, p)|
  {
    if Q(k, p) == [] then k
    else
      DrainOneKeeps(k, p);
      var m := DrainOne(k, p);
      var r := Drain(m, p);
      DrainedMore(k, p, m, r);
      r
  }

  lemma DrainedMore(k: State, p: Place, m: State, r: State)
    requires Q(k, p) != [] && Q(k, p)[0] in k.tcb && m == DrainOne(k, p) && Drained(m, p, r)
    requires (p.Senders? || p.Receivers?)
    requires Q(m, p) == Q(k, p)[1..] && Q(m, ReadyQueue) == Q(k, ReadyQueue) + [Q(k, p)[0]] && Q(k, p)[0] !in Q(m, p)
    requires m.current == k.current && Home(k.tcb[Q(k, p)[0]]) == p
    ensures Drained(k, p, r)
  {
    hide DrainedAt, TakenOk, WaitsOk, Resumable;
    var x := Q(k, p)[0];
    DrainedReady(Q(k, ReadyQueue), Q(k, p), Q(m, p));
    assert Home(Cancelled(k.tcb[x])) == ReadyQueue;
    forall o | IsQueue(o) && o != p && o != ReadyQueue ensures Q(r, o) == Q(k, o) {
      MoveQueue(k, x, Cancelled(k.tcb[x]), o);
    }
    forall y | y in k.tcb ensures DrainedAt(k, p, r, y) { DrainedMoreAt(k, p, m, r, y); }
  }

  lemma DrainedReady(ready: seq<Task>, q: seq<Task>, rest: seq<Task>)
    requires q != [] && rest == q[1..]
    ensures ready + [q[0]] + rest == ready + q
  {
  }

  lemma DrainedMoreAt(k: State, p: Place, m: State, r: State, y: Task)
    requires Q(k, p) != [] && Q(k, p)[0] in k.tcb && m == DrainOne(k, p) && y in k.tcb && DrainedAt(m, p, r, y)
    requires Q(m, p) == Q(k, p)[1..] && Q(k, p)[0] !in Q(m, p)
    ensures DrainedAt(k, p, r, y)
  {
    assert Q(k, p) == [Q(k, p)[0]] + Q(m, p);
  }

  /** `ipc_cancel`. */
  ghost function Cancel(k: State, e: Endpoint): (r: State)
    requires Inv(k)
    ensures Inv(r)
    ensures Q(r, Receivers(e)) == [] && Q(r, Senders(e)) == []
    ensures Q(r, ReadyQueue) == Q(k, ReadyQueue) + Q(k, Receivers(e)) + Q(k, Senders(e))
  {
    Drain(Drain(k, Receivers(e)), Senders(e))
  }

  // ---------------------------------------------------------------- kill_task, suspend_task, resume_task, yield

  /** A queued caller: no callee yet. */
  predicate QueuedCaller(c: Tcb) { c.status.Waiting? && c.ipc.Calling? && c.callee == NONE }

  /** `kill_task`; a caller whose call nobody has received has no callee to look into. */
  function Kill(k: State, t: Task): (r: Result)
    requires t in k.tcb
  {
    var c := k.tcb[t];
    if c.status.Waiting? && c.endpoint != NONE && (c.ipc.NoIpc? || c.ipc.Canceled?) then Halt
    else if c.status.Waiting? && c.endpoint != NONE && c.ipc.Calling? then
      if c.callee !in k.tcb || k.tcb[c.callee].caller != t then Halt
      else
        var m := Put(k, c.callee, k.tcb[c.callee].(caller := NONE));
        Ok(Put(m, t, m.tcb[t].(status := Killed)))
    else if Home(c) == Nowhere || (c.status.Waiting? && c.endpoint == NONE) then Ok(Put(k, t, c.(status := Killed)))
    else Ok(Move(k, t, c.(status := Killed)))
  }

  lemma KillKeeps(k: State, t: Task)
    requires Inv(k) && t in k.tcb
    ensures Kill(k, t).Halt? <==> QueuedCaller(k.tcb[t])
    ensures Kill(k, t).Ok? ==> Inv(Kill(k, t).k)
  {
    var c := k.tcb[t];
    assert TaskOk(k, t);
    if c.status.Waiting? && c.ipc.Calling? {
      assert OnProcessor(k, c.callee);
      if c.callee != NONE { KillCaller(k, t); }
    } else if Home(c) == Nowhere {
      PutKeeps(k, t, c.(status := Killed));
    } else {
      MoveKeeps(k, t, c.(status := Killed));
    }
  }

  lemma KillCaller(k: State, t: Task)
    requires Inv(k) && t in k.tcb && Awaiting(k.tcb[t])
    ensures Kill(k, t).Ok? && Inv(Kill(k, t).k)
  {
    var a := k.tcb[t].callee;
    assert TaskOk(k, t) && TaskOk(k, a);
    var m := Put(k, a, k.tcb[a].(caller := NONE));
    PutQueued(k, a, k.tcb[a].(caller := NONE));
    PutQueued(m, t, m.tcb[t].(status := Killed));
    var r := Kill(k, t).k;
    forall x ensures TaskOk(r, x) {
      assert TaskOk(k, x) && OnProcessor(k, x);
    }
  }

  /** `suspend_task`; a waiting task changes its state and stays in its queue. */
  function Suspend(k: State, t: Task): (r: State)
    requires t in k.tcb
  {
    var c := k.tcb[t];
    match c.status
    case Running => Move(k, t, c.(status := Suspended))
    case Ready => Move(k, t, c.(status := Suspended))
    case Waiting => Put(k, t, c.(status := Suspended))
    case _ => k
  }

  /** Suspending keeps the invariants exactly when the task does not wait. */
  lemma SuspendKeeps(k: State, t: Task)
    requires Inv(k) && t in k.tcb
    ensures Inv(Suspend(k, t)) <==> !k.tcb[t].status.Waiting?
  {
    var c, r := k.tcb[t], Suspend(k, t);
    assert TaskOk(k, t) && HousedAt(k, Home(c), t) && OnProcessor(k, t);
    if c.status.Running? || c.status.Ready? {
      MoveKeeps(k, t, c.(status := Suspended));
    } else if c.status.Waiting? {
      assert !HousedAt(r, Home(c), t) || !TaskOk(r, t);
    }
  }

  /** `resume_task`. */
  function ResumeTask(k: State, t: Task): (r: State)
    requires t in k.tcb
  {
    if k.tcb[t].status.Suspended? then Move(k, t, k.tcb[t].(status := Ready)) else k
  }

  lemma ResumeKeeps(k: State, t: Task)
    requires Inv(k) && t in k.tcb
    ensures Inv(ResumeTask(k, t))
  {
    assert TaskOk(k, t);
    if k.tcb[t].status.Suspended? { MoveKeeps(k, t, k.tcb[t].(status := Ready)); }
  }

  /** `yield`. */
  function Yield(k: State): (r: State)
    requires Active(k)
  {
    Move(k, k.current, k.tcb[k.current].(status := Ready))
  }

  lemma YieldKeeps(k: State)
    requires Inv(k) && Active(k)
    ensures Inv(Yield(k))
  {
    CurrentOk(k);
    MoveKeeps(k, k.current, k.tcb[k.current].(status := Ready));
  }

  /** What `init_task` sets. */
  function NewTcb(now: nat): (c: Tcb) {
    Tcb(Suspended, NoIpc, NoEvent, Empty, NONE, NONE, NONE, Nothing, now, 0)
  }

  function AddTask(k: State, t: Task): (r: State) { k.(tcb := k.tcb[t := NewTcb(0)]) }

  lemma AddTaskKeeps(k: State, t: Task)
    requires Inv(k) && t !in k.tcb && t != NONE && k.clock > 0
    ensures Inv(AddTask(k, t))
  {
    var r := AddTask(k, t);
    assert forall p :: Q(r, p) == Q(k, p);
    assert forall x :: x in k.tcb ==> Stamp(r, x) == Stamp(k, x);
    forall p, x ensures HousedAt(r, p, x) { assert HousedAt(k, p, x); }
    forall x ensures OnProcessor(r, x) { assert OnProcessor(k, x); }
    forall p ensures InOrder(r, p) { AddTaskInOrder(k, t, p); }
    forall e ensures Exclusive(r, e) { assert Exclusive(k, e); }
    forall i: nat ensures TakenOk(r, i) {
      assert TakenOk(k, i);
      if i < |k.taken| {
        forall n | 0 <= n < |Q(k, Senders(k.taken[i].0))| ensures Q(k, Senders(k.taken[i].0))[n] in k.tcb {
          assert HousedAt(k, Senders(k.taken[i].0), Q(k, Senders(k.taken[i].0))[n]);
        }
      }
    }
    forall x ensures TaskOk(r, x) { assert TaskOk(k, x); }
  }

  lemma AddTaskInOrder(k: State, t: Task, p: Place)
    requires Housed(k) && t !in k.tcb
    ensures InOrder(AddTask(k, t), p)
  {
    assert InOrder(k, p);
    assert Q(AddTask(k, t), p) == Q(k, p);
    if IsQueue(p) {
      forall i | 0 <= i < |Q(k, p)| ensures Q(k, p)[i] in k.tcb { assert HousedAt(k, p, Q(k, p)[i]); }
    }
  }
}
