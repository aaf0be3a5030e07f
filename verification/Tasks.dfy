/**
 Tasks, the queues they stand in, and the moves of tasks between them: the part of `task.h`,
 `task.cpp` and `ipc.cpp` that says where a task is.
 */
module Tasks {
  import opened Arith
  import opened Capability
  import opened SlotLinks

  type Endpoint = nat

  /** No task, no endpoint; as the current task, the idle task. */
  const NONE: nat := 0

  datatype Status = Running | Ready | Waiting | Suspended | Killed
  datatype IpcState = NoIpc | Sending | Receiving | Calling | Canceled
  datatype Event = NoEvent | SendEvent
  datatype MsgState = Empty | ShortMsg | LongMsg

  /**
   The kernel function in which a task lost the processor; its remaining assertions are due when the task runs again.
   */
  datatype Resume = Nothing | InSend | InReceive | InCall | InSwitch

  /**
   A task control block.  `stamp` and `since` are history: when the task last joined a queue, and when it
   was last handed a call.
   */
  datatype Tcb = Tcb(
    status: Status, ipc: IpcState, event: Event, msg: MsgState, endpoint: Endpoint,
    caller: Task, callee: Task, resume: Resume, stamp: nat, since: nat)

  datatype Place = Processor | ReadyQueue | Senders(e: Endpoint) | Receivers(e: Endpoint) | Nowhere

  /** `taken` records which message each receive took: the endpoint and the sender's stamp. */
  datatype State = State(
    tcb: map<Task, Tcb>, queues: map<Place, seq<Task>>, current: Task, clock: nat, taken: seq<(Endpoint, nat)>)

  /** Where a task is, as its control block tells. */
  function Home(c: Tcb): (p: Place) {
    match c.status
    case Running => Processor
    case Ready => ReadyQueue
    case Waiting =>
      if c.ipc.Receiving? then Receivers(c.endpoint)
      else if c.ipc.Sending? || c.callee == NONE then Senders(c.endpoint)
      else Nowhere
    case _ => Nowhere
  }

  predicate IsQueue(p: Place) { !p.Processor? && !p.Nowhere? }

  function Q(k: State, p: Place): (q: seq<Task>) { if p in k.queues then k.queues[p] else [] }

  function Stamp(k: State, t: Task): (n: nat) { if t in k.tcb then k.tcb[t].stamp else 0 }

  // ---------------------------------------------------------------- every task is where its control block says

  predicate HousedAt(k: State, p: Place, t: Task) {
    IsQueue(p) ==> (t in Q(k, p) <==> t in k.tcb && Home(k.tcb[t]) == p)
  }

  predicate OnProcessor(k: State, t: Task) {
    t in k.tcb ==> t != NONE && (Home(k.tcb[t]).Processor? <==> k.current == t) && k.tcb[t].stamp < k.clock
  }

  /** Tasks stand in a queue in the order in which they joined it. */
  predicate InOrder(k: State, p: Place) {
    IsQueue(p) ==> forall i, j :: 0 <= i < j < |Q(k, p)| ==> Stamp(k, Q(k, p)[i]) < Stamp(k, Q(k, p)[j])
  }

  ghost predicate Housed(k: State) {
    && (forall p, t :: HousedAt(k, p, t))
    && (forall t :: OnProcessor(k, t))
    && (forall p :: InOrder(k, p))
    && (k.current != NONE ==> k.current in k.tcb)
  }

  /** No task stands in two places, or twice in one queue. */
  lemma OnePlace(k: State, p: Place, r: Place, i: nat, j: nat)
    requires Housed(k) && IsQueue(p) && IsQueue(r) && i < |Q(k, p)| && j < |Q(k, r)| && Q(k, p)[i] == Q(k, r)[j]
    ensures p == r && i == j
  {
    assert HousedAt(k, p, Q(k, p)[i]) && HousedAt(k, r, Q(k, r)[j]);
    assert InOrder(k, p);
  }

  // ---------------------------------------------------------------- moving a task

  /** The first place of `t` in `q`. */
  function IndexOf(q: seq<Task>, t: Task): (i: nat)
    requires t in q
    ensures i < |q| && q[i] == t
  {
    if q[0] == t then 0 else 1 + IndexOf(q[1..], t)
  }

  /** `q` without `t`. */
  function Without(q: seq<Task>, t: Task): (r: seq<Task>) {
    if t in q then RemoveAt(q, IndexOf(q, t)) else q
  }

  function Leave(qs: map<Place, seq<Task>>, p: Place, t: Task): (r: map<Place, seq<Task>>) {
    if IsQueue(p) && p in qs then qs[p := Without(qs[p], t)] else qs
  }

  function Join(qs: map<Place, seq<Task>>, p: Place, t: Task): (r: map<Place, seq<Task>>) {
    if IsQueue(p) then qs[p := (if p in qs then qs[p] else []) + [t]] else qs
  }

  /** `t` gets the control block `c`, leaves its queue and joins, at the tail, the queue it now belongs to. */
  function Move(k: State, t: Task, c: Tcb): (r: State)
    requires t in k.tcb
  {
    State(k.tcb[t := c.(stamp := k.clock)],
          Join(Leave(k.queues, Home(k.tcb[t]), t), Home(c), t),
          if Home(c).Processor? then t else if k.current == t then NONE else k.current,
          k.clock + 1,
          k.taken)
  }

  /** `t` gets the control block `c` and stays where it is. */
  function Put(k: State, t: Task, c: Tcb): (r: State) {
    k.(tcb := k.tcb[t := c])
  }

  /** The queue `q` after `t` moved out of it, into it, or neither. */
  function Moved(q: seq<Task>, t: Task, leaves: bool, joins: bool): (r: seq<Task>) {
    var m := if leaves then Without(q, t) else q;
    if joins then m + [t] else m
  }

  lemma MoveQueue(k: State, t: Task, c: Tcb, p: Place)
    requires t in k.tcb && IsQueue(p)
    ensures Q(Move(k, t, c), p) == Moved(Q(k, p), t, Home(k.tcb[t]) == p, Home(c) == p)
  {
  }

  lemma WithoutMember(q: seq<Task>, t: Task, x: Task)
    requires Distinct(q)
    ensures x in Without(q, t) <==> x in q && x != t
  {
    if t in q {
      var n, r := IndexOf(q, t), Without(q, t);
      if x in r {
        var i :| 0 <= i < |r| && r[i] == x;
        assert q[if i < n then i else i + 1] == x;
      }
      if x in q && x != t {
        var i :| 0 <= i < |q| && q[i] == x;
        assert r[if i < n then i else i - 1] == x;
      }
    }
  }

  lemma LastWithout(q: seq<Task>, x: Task, c: Task)
    requires x !in q && x != c
    ensures Without(q + [x] + [c], x) == q + [c]
  {
    assert (q + [x] + [c])[|q|] == x;
  }

  lemma InOrderDistinct(k: State, p: Place)
    requires InOrder(k, p) && IsQueue(p)
    ensures Distinct(Q(k, p))
  {
  }

  /** A moved task is where its control block says, behind all others, and nobody else moved. */
  lemma MoveHoused(k: State, t: Task, c: Tcb)
    requires Housed(k) && t in k.tcb && (Home(c).Processor? ==> k.current == NONE || k.current == t)
    ensures Housed(Move(k, t, c))
  {
    var r := Move(k, t, c);
    forall p, x ensures HousedAt(r, p, x) { if IsQueue(p) { MoveHousedAt(k, t, c, p, x); } }
    forall x ensures OnProcessor(r, x) { assert OnProcessor(k, x) && OnProcessor(k, t); }
    forall p ensures InOrder(r, p) { if IsQueue(p) { MoveInOrder(k, t, c, p); } }
  }

  lemma MoveHousedAt(k: State, t: Task, c: Tcb, p: Place, x: Task)
    requires Housed(k) && t in k.tcb && IsQueue(p)
    ensures HousedAt(Move(k, t, c), p, x)
  {
    MoveQueue(k, t, c, p);
    assert HousedAt(k, p, x) && HousedAt(k, p, t) && InOrder(k, p);
    InOrderDistinct(k, p);
    WithoutMember(Q(k, p), t, x);
  }

  lemma MoveInOrder(k: State, t: Task, c: Tcb, p: Place)
    requires Housed(k) && t in k.tcb && IsQueue(p)
    ensures InOrder(Move(k, t, c), p)
  {
    var r, q := Move(k, t, c), Q(k, p);
    MoveQueue(k, t, c, p);
    assert HousedAt(k, p, t) && InOrder(k, p);
    InOrderDistinct(k, p);
    var m := if Home(k.tcb[t]) == p then Without(q, t) else q;
    forall i | 0 <= i < |m| ensures m[i] != t && m[i] in k.tcb && Stamp(r, m[i]) == Stamp(k, m[i]) < k.clock {
      WithoutMember(q, t, m[i]);
      assert m[i] in q && HousedAt(k, p, m[i]) && OnProcessor(k, m[i]);
    }
  }

  /** Changes to a control block that leave the task where it is move nobody. */
  lemma PutHoused(k: State, t: Task, c: Tcb)
    requires Housed(k) && t in k.tcb && Home(c) == Home(k.tcb[t]) && c.stamp == k.tcb[t].stamp
    ensures Housed(Put(k, t, c))
  {
    var r := Put(k, t, c);
    forall p, x ensures HousedAt(r, p, x) { assert HousedAt(k, p, x); }
    forall x ensures OnProcessor(r, x) { assert OnProcessor(k, x); }
    assert forall x :: Stamp(r, x) == Stamp(k, x);
    assert forall p :: Q(r, p) == Q(k, p);
    forall p ensures InOrder(r, p) { assert InOrder(k, p); }
  }
}
