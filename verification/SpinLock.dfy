/**
 The recursive spinlock as a protocol of tasks that each take one step at a time: a read or a write of one
 shared variable, or one `test_and_set`.  Every interleaving is a schedule.
 */
module SpinLock {

  /** Task identifiers; 0 is "no owner". */
  type Tid = nat

  const NOBODY: Tid := 0

  /** `count` is an unsigned number of 32 bits. */
  const WORD: nat := 0x1_0000_0000

  datatype Call = Lock | Unlock | TryLock

  /** The next step of a task, by the line of the function it is in. */
  datatype Pc =
    | Idle
    | ReadOwner(call: Call)
    | ReadCount(call: Call)
    | WriteCount(call: Call)
    | TestAndSet(call: Call)
    | CheckOwner(call: Call)
    | TakeOwner(call: Call)
    | SetCount(call: Call)
    | TestCount
    | ClearOwner
    | ClearFlag

  /**
   `reg` holds a value read from memory; `depth` is how many times the task has the lock: one more with each lock or
   try_lock that returns with it, one less from the owner check of an unlock on; `got` is what the last try_lock
   returned.
   */
  datatype Thread = Thread(pc: Pc, reg: nat, depth: nat, got: bool)

  /** `winner` is history: the task whose `test_and_set` found the flag clear, until the flag is cleared. */
  datatype State = State(flag: bool, owner: Tid, count: nat, threads: map<Tid, Thread>, winner: Tid, halted: bool)

  function Put(s: State, t: Tid, th: Thread): (r: State) { s.(threads := s.threads[t := th]) }

  /** One step of task `t`; `call` is the function it enters when it is in none. */
  function Step(s: State, t: Tid, call: Call): (r: State)
    requires t in s.threads
  {
    var th := s.threads[t];
    match th.pc
    case Idle => Put(s, t, th.(pc := ReadOwner(call)))
    case ReadOwner(c) =>
      if c.Unlock? then
        if s.owner != t then s.(halted := true)
        else Put(s, t, th.(pc := ReadCount(c), depth := if th.depth > 0 then th.depth - 1 else 0))
      else if s.owner == t then Put(s, t, th.(pc := ReadCount(c)))
      else Put(s, t, th.(pc := TestAndSet(c)))
    case ReadCount(c) => Put(s, t, th.(pc := WriteCount(c), reg := s.count))
    case WriteCount(c) =>
      if c.Unlock? then Put(s.(count := (th.reg + WORD - 1) % WORD), t, th.(pc := TestCount))
      else Put(s.(count := (th.reg + 1) % WORD), t, th.(pc := Idle, depth := th.depth + 1, got := true))
    case TestAndSet(c) =>
      if s.flag then Put(s, t, if c.TryLock? then th.(pc := Idle, got := false) else th)
      else Put(s.(flag := true, winner := t), t, th.(pc := CheckOwner(c)))
    case CheckOwner(c) =>
      if s.owner == NOBODY then Put(s, t, th.(pc := TakeOwner(c)))
      else if c.TryLock? then Put(s, t, th.(pc := Idle, got := true))
      else Put(s, t, th.(pc := TestAndSet(c)))
    case TakeOwner(c) => Put(s.(owner := t), t, th.(pc := SetCount(c)))
    case SetCount(c) => Put(s.(count := 1), t, th.(pc := Idle, depth := 1, got := true))
    case TestCount => Put(s, t, th.(pc := if s.count == 0 then ClearOwner else Idle))
    case ClearOwner => Put(s.(owner := NOBODY), t, th.(pc := ClearFlag))
    case ClearFlag => Put(s.(flag := false, winner := NOBODY), t, th.(pc := Idle))
  }

  // ---------------------------------------------------------------- the invariant

  /** The task is between setting and clearing the flag. */
  predicate Inside(th: Thread) {
    || th.depth > 0
    || th.pc.CheckOwner? || th.pc.TakeOwner? || th.pc.SetCount?
    || th.pc.TestCount? || th.pc.ClearOwner? || th.pc.ClearFlag?
    || (th.pc.ReadCount? && th.pc.call.Unlock?) || (th.pc.WriteCount? && th.pc.call.Unlock?)
  }

  /** What the shared variables are while task `t`, inside, is at its step. */
  predicate InsideOk(s: State, t: Tid, th: Thread) {
    match th.pc
    case Idle => s.owner == t && s.count == th.depth
    case ReadOwner(_) => s.owner == t && s.count == th.depth
    case ReadCount(c) => s.owner == t && s.count == th.depth + (if c.Unlock? then 1 else 0)
    case WriteCount(c) => s.owner == t && s.count == th.reg && th.reg == th.depth + (if c.Unlock? then 1 else 0)
    case TestAndSet(_) => false
    case CheckOwner(c) => s.owner == NOBODY && th.depth == 0 && !c.Unlock?
    case TakeOwner(c) => s.owner == NOBODY && th.depth == 0 && !c.Unlock?
    case SetCount(c) => s.owner == t && th.depth == 0 && !c.Unlock?
    case TestCount => s.owner == t && s.count == th.depth
    case ClearOwner => s.owner == t && th.depth == 0
    case ClearFlag => s.owner == NOBODY && th.depth == 0
  }

  predicate ThreadOk(s: State, t: Tid) {
    t in s.threads ==>
      var th := s.threads[t];
      && t != NOBODY && th.depth < WORD
      && (Inside(th) <==> s.winner == t)
      && (Inside(th) ==> InsideOk(s, t, th))
      && (!Inside(th) ==> th.pc.Idle? || th.pc.ReadOwner? || (th.pc.TestAndSet? && !th.pc.call.Unlock?))
  }

  ghost predicate Inv(s: State) {
    && (forall t :: ThreadOk(s, t))
    && (s.flag <==> s.winner != NOBODY)
    && (s.winner == NOBODY ==> s.owner == NOBODY)
    && (s.winner != NOBODY ==> s.winner in s.threads && (s.owner == NOBODY || s.owner == s.winner))
  }

  /** The step is an unlock by a task that does not have the lock. */
  predicate BadUnlock(s: State, t: Tid)
    requires t in s.threads
  {
    s.threads[t].pc == ReadOwner(Unlock) && s.threads[t].depth == 0
  }

  /** The step is the increment that takes the nesting depth to 2^32. */
  predicate TooDeep(s: State, t: Tid)
    requires t in s.threads
  {
    var th := s.threads[t];
    th.pc.WriteCount? && !th.pc.call.Unlock? && th.depth + 1 == WORD
  }

  /** A step of a task keeps the invariant exactly when it does not overflow the count, and only a bad unlock panics. */
  lemma StepKeeps(s: State, t: Tid, call: Call)
    requires Inv(s) && t in s.threads && !s.halted
    ensures Inv(Step(s, t, call)) <==> !TooDeep(s, t)
    ensures Step(s, t, call).halted <==> BadUnlock(s, t)
  {
    var r := Step(s, t, call);
    assert ThreadOk(s, t);
    if TooDeep(s, t) {
      assert !ThreadOk(r, t);
    } else {
      forall u ensures ThreadOk(r, u) { if u == t { StepOwn(s, t, call); } else { StepOther(s, t, call, u); } }
    }
  }

  lemma StepOther(s: State, t: Tid, call: Call, u: Tid)
    requires Inv(s) && t in s.threads && u != t
    ensures ThreadOk(Step(s, t, call), u)
  {
    assert ThreadOk(s, t) && ThreadOk(s, u);
  }

  lemma StepOwn(s: State, t: Tid, call: Call)
    requires Inv(s) && t in s.threads && !TooDeep(s, t)
    ensures ThreadOk(Step(s, t, call), t)
  {
    var pc := s.threads[t].pc;
    if pc.ReadCount? || pc.WriteCount? || pc.TestCount? {
      StepCounts(s, t, call);
    } else if pc.CheckOwner? || pc.TakeOwner? || pc.SetCount? || pc.TestAndSet? {
      StepTakes(s, t, call);
    } else {
      assert ThreadOk(s, t);
    }
  }

  lemma StepCounts(s: State, t: Tid, call: Call)
    requires Inv(s) && t in s.threads && !TooDeep(s, t)
    requires var pc := s.threads[t].pc; pc.ReadCount? || pc.WriteCount? || pc.TestCount?
    ensures ThreadOk(Step(s, t, call), t)
  {
    assert ThreadOk(s, t);
  }

  lemma StepTakes(s: State, t: Tid, call: Call)
    requires Inv(s) && t in s.threads
    requires var pc := s.threads[t].pc; pc.CheckOwner? || pc.TakeOwner? || pc.SetCount? || pc.TestAndSet?
    ensures ThreadOk(Step(s, t, call), t)
  {
    assert ThreadOk(s, t);
  }

  // ---------------------------------------------------------------- every interleaving

  ghost predicate Initial(s: State) {
    && !s.flag && s.owner == NOBODY && s.winner == NOBODY && !s.halted && NOBODY !in s.threads
    && forall t :: t in s.threads ==> s.threads[t] == Thread(Idle, 0, 0, false)
  }

  /** A schedule whose tasks exist, unlock only what they have, and nest fewer than 2^32 times. */
  ghost predicate Legal(s: State, schedule: seq<(Tid, Call)>)
    decreases |schedule|
  {
    schedule == [] ||
    (var (t, call) := schedule[0];
     t in s.threads && !BadUnlock(s, t) && !TooDeep(s, t) && Legal(Step(s, t, call), schedule[1..]))
  }

  ghost function Run(s: State, schedule: seq<(Tid, Call)>): (r: State)
    requires Legal(s, schedule)
    decreases |schedule|
  {
    if schedule == [] then s else Run(Step(s, schedule[0].0, schedule[0].1), schedule[1..])
  }

  lemma {:induction false} RunKeeps(s: State, schedule: seq<(Tid, Call)>)
    requires Inv(s) && !s.halted && Legal(s, schedule)
    ensures Inv(Run(s, schedule)) && !Run(s, schedule).halted
    decreases |schedule|
  {
    if schedule != [] {
      StepKeeps(s, schedule[0].0, schedule[0].1);
      RunKeeps(Step(s, schedule[0].0, schedule[0].1), schedule[1..]);
    }
  }

  lemma InitialOk(s: State)
    requires Initial(s)
    ensures Inv(s)
  {
  }

  /** In every interleaving at most one task has the lock, and it alone is between taking and clearing the flag. */
  lemma MutualExclusion(s: State, schedule: seq<(Tid, Call)>, t: Tid, u: Tid)
    requires Initial(s) && Legal(s, schedule)
    requires var r := Run(s, schedule); t in r.threads && u in r.threads && Inside(r.threads[t]) && Inside(r.threads[u])
    ensures t == u
  {
    InitialOk(s);
    RunKeeps(s, schedule);
    assert ThreadOk(Run(s, schedule), t) && ThreadOk(Run(s, schedule), u);
  }

  /**
   Whenever the task that has the lock is in no lock function, it is the recorded owner and `count` is its nesting
   depth.
   */
  lemma CountIsDepth(s: State, schedule: seq<(Tid, Call)>, t: Tid)
    requires Initial(s) && Legal(s, schedule)
    requires var r := Run(s, schedule); t in r.threads && r.threads[t].depth > 0 && r.threads[t].pc.Idle?
    ensures var r := Run(s, schedule); r.flag && r.owner == t && r.count == r.threads[t].depth
  {
    InitialOk(s);
    RunKeeps(s, schedule);
    assert ThreadOk(Run(s, schedule), t);
  }

  /** A `test_and_set` that finds the flag clear leaves a state in which there is no owner. */
  lemma WonSeesNoOwner(s: State, schedule: seq<(Tid, Call)>, t: Tid)
    requires Initial(s) && Legal(s, schedule)
    requires var r := Run(s, schedule); t in r.threads && r.threads[t].pc.CheckOwner?
    ensures Run(s, schedule).owner == NOBODY
  {
    InitialOk(s);
    RunKeeps(s, schedule);
    assert ThreadOk(Run(s, schedule), t);
  }

  /** The step with which a try_lock returns true leaves the caller the owner, one level deeper. */
  lemma TryLockTrueOwns(s: State, t: Tid, call: Call)
    requires Inv(s) && t in s.threads && !s.threads[t].pc.Idle? && !TooDeep(s, t)
    requires Step(s, t, call).threads[t].pc.Idle? && s.threads[t].pc != TestCount && s.threads[t].pc != ClearFlag
    ensures
      var r := Step(s, t, call);
      && (r.threads[t].got <==> s.threads[t].pc != TestAndSet(TryLock))
      && (r.threads[t].got ==>
            r.owner == t && r.threads[t].depth == s.threads[t].depth + 1 && r.count == r.threads[t].depth)
  {
    assert ThreadOk(s, t);
  }

  // ---------------------------------------------------------------- whole calls, undisturbed

  /** `n` steps of task `t`, with none of another task between. */
  function Alone(s: State, t: Tid, call: Call, n: nat): (r: State)
    requires t in s.threads
    ensures t in r.threads
    decreases n
  {
    StepAlone(s, t, call);
    if n == 0 then s else Alone(Step(s, t, call), t, call, n - 1)
  }

  lemma StepAlone(s: State, t: Tid, call: Call)
    requires t in s.threads
    ensures t in Step(s, t, call).threads
  {
  }

  /** Task `t` is in no call, `depth` levels deep; the flag, the owner and the count say so when that is not 0. */
  predicate Has(s: State, t: Tid, depth: nat) {
    && t in s.threads && s.threads[t].pc.Idle? && s.threads[t].depth == depth
    && (if depth > 0 then s.flag && s.owner == t && s.count == depth else s.owner != t)
  }

  /** A `test_and_set` that finds the flag clear sets it, and is the first of four steps to the lock. */
  lemma ClearFlagTaken(s: State, t: Tid, call: Call)
    requires Inv(s) && t in s.threads && s.threads[t].pc.TestAndSet? && !s.flag
    ensures Step(s, t, call).flag && Step(s, t, call).winner == t
    ensures Has(Alone(s, t, call, 4), t, 1) && Alone(s, t, call, 4).threads[t].got
  {
    assert ThreadOk(s, t);
    Unfold(s, t, call);
  }

  /** One that finds it set leaves everything shared as it is: `lock` tries again, `try_lock` returns false. */
  lemma SetFlagWaits(s: State, t: Tid, call: Call)
    requires Inv(s) && t in s.threads && s.threads[t].pc.TestAndSet? && s.flag
    ensures
      var r := Step(s, t, call);
      if s.threads[t].pc.call.TryLock? then
        r == s.(threads := r.threads) && Has(r, t, 0) && !r.threads[t].got
      else r == s
  {
    assert ThreadOk(s, t);
  }

  /** A lock or try_lock of a free lock takes it. */
  lemma FreeIsTaken(s: State, t: Tid, call: Call)
    requires Inv(s) && t in s.threads && s.threads[t].pc.Idle? && !call.Unlock? && !s.flag
    ensures Has(Alone(s, t, call, 6), t, 1) && Alone(s, t, call, 6).threads[t].got
  {
    hide Step;
    assert ThreadOk(s, t);
    AloneAdds(s, t, call, 2, 4);
    Unfold(s, t, call);
    Tries(s, t, call);
    ClearFlagTaken(Alone(s, t, call, 2), t, call);
  }

  lemma Tries(s: State, t: Tid, call: Call)
    requires Inv(s) && t in s.threads && s.threads[t].pc.Idle? && !call.Unlock? && s.owner != t
    ensures
      var r := Step(Step(s, t, call), t, call);
      Inv(r) && r == s.(threads := r.threads) && r.threads[t] == s.threads[t].(pc := TestAndSet(call))
  {
    assert ThreadOk(s, t);
    var m := Step(s, t, call);
    forall u ensures ThreadOk(m, u) { if u == t { StepOwn(s, t, call); } else { StepOther(s, t, call, u); } }
    forall u ensures ThreadOk(Step(m, t, call), u) {
      if u == t { StepOwn(m, t, call); } else { StepOther(m, t, call, u); }
    }
  }

  /** A lock or try_lock by the task that has the lock takes it one level deeper. */
  lemma OwnIsNested(s: State, t: Tid, call: Call, depth: nat)
    requires Inv(s) && Has(s, t, depth) && 0 < depth && depth + 1 < WORD && !call.Unlock?
    ensures Has(Alone(s, t, call, 4), t, depth + 1) && Alone(s, t, call, 4).threads[t].got
  {
    Unfold(s, t, call);
  }

  /** An unlock gives one level back; the last one frees the lock. */
  lemma UnlockReleases(s: State, t: Tid, depth: nat)
    requires Inv(s) && Has(s, t, depth) && 0 < depth
    ensures
      var r := Alone(s, t, Unlock, if depth == 1 then 7 else 5);
      Has(r, t, depth - 1) && r.halted == s.halted && (depth == 1 ==> !r.flag && r.owner == NOBODY)
  {
    hide Step, Alone;
    assert ThreadOk(s, t);
    AloneAdds(s, t, Unlock, 4, if depth == 1 then 3 else 1);
    GivesBack(s, t, depth);
    Releases(Alone(s, t, Unlock, 4), t, depth - 1);
  }

  /** The count is one less, and about to be compared with 0. */
  predicate Giving(s: State, t: Tid, depth: nat) {
    && t in s.threads && s.threads[t].pc == TestCount && s.threads[t].depth == depth
    && s.flag && s.owner == t && s.count == depth
  }

  lemma GivesBack(s: State, t: Tid, depth: nat)
    requires Inv(s) && Has(s, t, depth) && 0 < depth
    ensures Giving(Alone(s, t, Unlock, 4), t, depth - 1) && Alone(s, t, Unlock, 4).halted == s.halted
  {
    assert ThreadOk(s, t);
    Unfold(s, t, Unlock);
  }

  lemma Releases(s: State, t: Tid, depth: nat)
    requires Giving(s, t, depth) && t != NOBODY
    ensures
      var r := Alone(s, t, Unlock, if depth == 0 then 3 else 1);
      Has(r, t, depth) && r.halted == s.halted && (depth == 0 ==> !r.flag && r.owner == NOBODY)
  {
    Unfold(s, t, Unlock);
  }

  lemma Unfold(s: State, t: Tid, call: Call)
    requires t in s.threads
    ensures Alone(s, t, call, 1) == Step(s, t, call)
    ensures Alone(s, t, call, 2) == Step(Alone(s, t, call, 1), t, call)
    ensures Alone(s, t, call, 3) == Step(Alone(s, t, call, 2), t, call)
    ensures Alone(s, t, call, 4) == Step(Alone(s, t, call, 3), t, call)
  {
    hide Step;
    OneMore(s, t, call, 0);
    OneMore(s, t, call, 1);
    OneMore(s, t, call, 2);
    OneMore(s, t, call, 3);
  }

  lemma OneMore(s: State, t: Tid, call: Call, n: nat)
    requires t in s.threads
    ensures Alone(s, t, call, n + 1) == Step(Alone(s, t, call, n), t, call)
  {
    hide Step;
    AloneAdds(s, t, call, n, 1);
    var m := Alone(s, t, call, n);
    assert Alone(Step(m, t, call), t, call, 0) == Step(m, t, call);
  }

  lemma {:induction false} AloneAdds(s: State, t: Tid, call: Call, n: nat, m: nat)
    requires t in s.threads
    ensures Alone(s, t, call, n + m) == Alone(Alone(s, t, call, n), t, call, m)
    decreases n
  {
    hide Step;
    if n > 0 {
      StepAlone(s, t, call);
      AloneAdds(Step(s, t, call), t, call, n - 1, m);
    }
  }
}
