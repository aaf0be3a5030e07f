/** The linked queues of tasks: head and tail pointers, and the `prev` and `next` words in the control blocks. */
module TaskLinks {
  import opened Arith
  import opened Capability
  import opened SlotLinks
  import opened Tasks

  /** One pair of link words per task: those for the ready queue, or those for waiting queues. */
  datatype Links = Links(prev: Words, next: Words)

  predicate ChainAt(l: Links, q: seq<Task>, i: int)
    requires 0 <= i < |q|
  {
    && q[i] != NONE && q[i] in l.prev && q[i] in l.next
    && l.prev[q[i]] == (if i == 0 then NONE else q[i - 1])
    && l.next[q[i]] == (if i + 1 < |q| then q[i + 1] else NONE)
  }

  /** The words link the tasks of `q`, from `head` to `tail`. */
  ghost predicate Chain(l: Links, head: Task, tail: Task, q: seq<Task>) {
    && head == (if q == [] then NONE else q[0])
    && tail == (if q == [] then NONE else q[|q| - 1])
    && forall i :: 0 <= i < |q| ==> ChainAt(l, q, i)
  }

  /** `t` is in no queue that uses these words. */
  predicate Loose(l: Links, t: Task) {
    t in l.prev && t in l.next && l.prev[t] == NONE && l.next[t] == NONE
  }

  // ---------------------------------------------------------------- push_*_queue

  function PushLinks(l: Links, head: Task, tail: Task, t: Task): (r: Links) {
    if head == NONE then l else Links(l.prev[t := tail], l.next[tail := t])
  }

  lemma PushChain(l: Links, head: Task, tail: Task, q: seq<Task>, t: Task)
    requires Chain(l, head, tail, q) && Distinct(q) && t !in q && t != NONE && Loose(l, t)
    ensures Chain(PushLinks(l, head, tail, t), if head == NONE then t else head, t, q + [t])
  {
    var r, q' := PushLinks(l, head, tail, t), q + [t];
    if q != [] { assert ChainAt(l, q, 0); }
    forall i | 0 <= i < |q'| ensures ChainAt(r, q', i) {
      if i < |q| { assert ChainAt(l, q, i); assert q[i] in q; }
      if q != [] { assert ChainAt(l, q, |q| - 1); }
    }
  }

  /** Only words of `t` and of the tail changed. */
  lemma PushElsewhere(l: Links, head: Task, tail: Task, q: seq<Task>, t: Task, h: Task, tl: Task, o: seq<Task>)
    requires Chain(l, head, tail, q) && Chain(l, h, tl, o) && t !in o && (forall x :: x in q ==> x !in o)
    ensures Chain(PushLinks(l, head, tail, t), h, tl, o)
  {
    var r := PushLinks(l, head, tail, t);
    forall i | 0 <= i < |o| ensures ChainAt(r, o, i) {
      assert ChainAt(l, o, i) && o[i] in o;
      if q != [] { assert ChainAt(l, q, 0) && q[|q| - 1] in q; }
    }
  }

  // ---------------------------------------------------------------- remove_*_queue

  function RemoveLinks(l: Links, head: Task, tail: Task, t: Task): (r: Links)
    requires t in l.prev && t in l.next
  {
    var p, n := l.prev[t], l.next[t];
    var next := if head == t then l.next else l.next[p := n];
    var prev := if tail == t then l.prev else l.prev[n := p];
    Links(prev[t := NONE], next[t := NONE])
  }

  lemma RemoveChain(l: Links, head: Task, tail: Task, q: seq<Task>, k: nat)
    requires Chain(l, head, tail, q) && Distinct(q) && k < |q|
    ensures q[k] in l.prev && q[k] in l.next
    ensures
      var t := q[k];
      && Loose(RemoveLinks(l, head, tail, t), t)
      && Chain(RemoveLinks(l, head, tail, t), if head == t then l.next[t] else head,
               if tail == t then l.prev[t] else tail, RemoveAt(q, k))
  {
    var t := q[k];
    assert ChainAt(l, q, k) && ChainAt(l, q, 0) && ChainAt(l, q, |q| - 1);
    var r, q' := RemoveLinks(l, head, tail, t), RemoveAt(q, k);
    forall i | 0 <= i < |q'| ensures ChainAt(r, q', i) { RemoveChainAt(l, head, tail, q, k, i); }
  }

  lemma RemoveChainAt(l: Links, head: Task, tail: Task, q: seq<Task>, k: nat, i: nat)
    requires Chain(l, head, tail, q) && Distinct(q) && k < |q| && i < |q| - 1 && q[k] in l.prev && q[k] in l.next
    ensures ChainAt(RemoveLinks(l, head, tail, q[k]), RemoveAt(q, k), i)
  {
    var j := if i < k then i else i + 1;
    assert ChainAt(l, q, k) && ChainAt(l, q, j);
  }

  lemma RemoveElsewhere(l: Links, head: Task, tail: Task, q: seq<Task>, k: nat, h: Task, tl: Task, o: seq<Task>)
    requires Chain(l, head, tail, q) && k < |q| && Chain(l, h, tl, o) && (forall x :: x in q ==> x !in o)
    ensures q[k] in l.prev && q[k] in l.next && Chain(RemoveLinks(l, head, tail, q[k]), h, tl, o)
  {
    assert ChainAt(l, q, k) && q[k] in q;
    var r := RemoveLinks(l, head, tail, q[k]);
    forall i | 0 <= i < |o| ensures ChainAt(r, o, i) {
      assert ChainAt(l, o, i) && o[i] in o;
      if k > 0 { assert q[k - 1] in q; }
      if k + 1 < |q| { assert q[k + 1] in q; }
    }
  }

  // ---------------------------------------------------------------- all queues together

  function Line(qs: map<Place, seq<Task>>, p: Place): (q: seq<Task>) { if p in qs then qs[p] else [] }

  /** A head or tail pointer; those of queues never used are null. */
  function End(m: map<Place, Task>, p: Place): (t: Task) { if p in m then m[p] else NONE }

  datatype Memory = Memory(ready: Links, waiting: Links, head: map<Place, Task>, tail: map<Place, Task>)

  function LinksAt(m: Memory, p: Place): (l: Links) { if p.ReadyQueue? then m.ready else m.waiting }

  predicate StandsAt(qs: map<Place, seq<Task>>, home: map<Task, Place>, p: Place, t: Task) {
    IsQueue(p) ==> (t in Line(qs, p) <==> t in home && home[t] == p)
  }

  ghost predicate QueueOk(m: Memory, qs: map<Place, seq<Task>>, p: Place) {
    IsQueue(p) ==> Chain(LinksAt(m, p), End(m.head, p), End(m.tail, p), Line(qs, p)) && Distinct(Line(qs, p))
  }

  /** A task in no queue has null words; one in a queue has null words of the other kind. */
  predicate WordsOk(m: Memory, home: map<Task, Place>, t: Task) {
    t in home ==>
      && t != NONE
      && (home[t] != ReadyQueue ==> Loose(m.ready, t))
      && (!home[t].Senders? && !home[t].Receivers? ==> Loose(m.waiting, t))
  }

  /** Memory holds the queues `qs`, and `home` says in which queue each task is. */
  ghost predicate Represents(m: Memory, qs: map<Place, seq<Task>>, home: map<Task, Place>) {
    && (forall p :: QueueOk(m, qs, p))
    && (forall p, t :: StandsAt(qs, home, p, t))
    && (forall t :: WordsOk(m, home, t))
  }

  function SetLinks(m: Memory, p: Place, l: Links): (r: Memory) {
    if p.ReadyQueue? then m.(ready := l) else m.(waiting := l)
  }

  /** What `push_ready_queue` and `push_waiting_queue` leave. */
  function PushMemory(m: Memory, p: Place, t: Task): (r: Memory) {
    var h := End(m.head, p);
    SetLinks(m, p, PushLinks(LinksAt(m, p), h, End(m.tail, p), t)).(
      head := if h == NONE then m.head[p := t] else m.head, tail := m.tail[p := t])
  }

  /** What `remove_ready_queue` and `remove_waiting_queue` leave. */
  function RemoveMemory(m: Memory, p: Place, t: Task): (r: Memory)
    requires t in LinksAt(m, p).prev && t in LinksAt(m, p).next
  {
    var l, h, tl := LinksAt(m, p), End(m.head, p), End(m.tail, p);
    SetLinks(m, p, RemoveLinks(l, h, tl, t)).(
      head := if h == t then m.head[p := l.next[t]] else m.head,
      tail := if tl == t then m.tail[p := l.prev[t]] else m.tail)
  }

  lemma PushRepresents(m: Memory, qs: map<Place, seq<Task>>, home: map<Task, Place>, p: Place, t: Task)
    requires Represents(m, qs, home) && IsQueue(p) && t in home && !IsQueue(home[t])
    ensures Loose(LinksAt(m, p), t) && Represents(PushMemory(m, p, t), Join(qs, p, t), home[t := p])
  {
    assert WordsOk(m, home, t) && StandsAt(qs, home, p, t) && QueueOk(m, qs, p);
    var r, qs', home' := PushMemory(m, p, t), Join(qs, p, t), home[t := p];
    PushChain(LinksAt(m, p), End(m.head, p), End(m.tail, p), Line(qs, p), t);
    forall o ensures QueueOk(r, qs', o) { PushQueueOk(m, qs, home, p, t, o); }
    forall o, x ensures StandsAt(qs', home', o, x) { assert StandsAt(qs, home, o, x); }
    forall x ensures WordsOk(r, home', x) { PushWords(m, qs, home, p, t, x); }
  }

  lemma PushQueueOk(m: Memory, qs: map<Place, seq<Task>>, home: map<Task, Place>, p: Place, t: Task, o: Place)
    requires Represents(m, qs, home) && IsQueue(p) && t in home && !IsQueue(home[t])
    requires Chain(PushLinks(LinksAt(m, p), End(m.head, p), End(m.tail, p), t),
                   if End(m.head, p) == NONE then t else End(m.head, p), t, Line(qs, p) + [t])
    ensures QueueOk(PushMemory(m, p, t), Join(qs, p, t), o)
  {
    assert QueueOk(m, qs, p) && StandsAt(qs, home, p, t);
    if IsQueue(o) && o != p {
      assert QueueOk(m, qs, o) && StandsAt(qs, home, o, t);
      if LinksAt(m, o) == LinksAt(m, p) && o.ReadyQueue? == p.ReadyQueue? {
        forall x | x in Line(qs, p)
          ensures x !in Line(qs, o)
        {
          assert StandsAt(qs, home, p, x) && StandsAt(qs, home, o, x);
        }
        PushElsewhere(LinksAt(m, p), End(m.head, p), End(m.tail, p), Line(qs, p), t, End(m.head, o), End(m.tail, o),
          Line(qs, o));
      }
    }
  }

  lemma PushWords(m: Memory, qs: map<Place, seq<Task>>, home: map<Task, Place>, p: Place, t: Task, x: Task)
    requires Represents(m, qs, home) && IsQueue(p) && t in home && !IsQueue(home[t])
    ensures WordsOk(PushMemory(m, p, t), home[t := p], x)
  {
    assert WordsOk(m, home, x) && WordsOk(m, home, t) && QueueOk(m, qs, p);
    var q := Line(qs, p);
    if q != [] {
      assert ChainAt(LinksAt(m, p), q, 0) && q[|q| - 1] in q;
      assert StandsAt(qs, home, p, q[|q| - 1]);
    }
  }

  lemma RemoveRepresents(m: Memory, qs: map<Place, seq<Task>>, home: map<Task, Place>, p: Place, t: Task, to: Place)
    requires Represents(m, qs, home) && IsQueue(p) && t in home && home[t] == p && !IsQueue(to)
    ensures t in LinksAt(m, p).prev && t in LinksAt(m, p).next
    ensures Represents(RemoveMemory(m, p, t), Leave(qs, p, t), home[t := to])
  {
    hide RemoveLinks, Loose, RemoveMemory, Chain, Leave;
    assert StandsAt(qs, home, p, t) && QueueOk(m, qs, p);
    var q := Line(qs, p);
    var n := IndexOf(q, t);
    RemoveChain(LinksAt(m, p), End(m.head, p), End(m.tail, p), q, n);
    var r, qs', home' := RemoveMemory(m, p, t), Leave(qs, p, t), home[t := to];
    forall o ensures QueueOk(r, qs', o) { RemoveQueueOk(m, qs, home, p, t, o, n); }
    forall o, x ensures StandsAt(qs', home', o, x) { RemoveStands(m, qs, home, p, t, to, o, x); }
    forall x ensures WordsOk(r, home', x) { RemoveWords(m, qs, home, p, t, to, n, x); }
  }

  lemma RemoveStands(m: Memory, qs: map<Place, seq<Task>>, home: map<Task, Place>, p: Place, t: Task, to: Place,
      o: Place, x: Task)
    requires Represents(m, qs, home) && IsQueue(p) && t in home && home[t] == p && !IsQueue(to)
    ensures StandsAt(Leave(qs, p, t), home[t := to], o, x)
  {
    assert StandsAt(qs, home, o, x) && StandsAt(qs, home, p, t) && QueueOk(m, qs, p);
    WithoutMember(Line(qs, p), t, x);
  }

  lemma DistinctRest(q: seq<Task>, n: nat)
    requires Distinct(q) && n < |q|
    ensures Distinct(RemoveAt(q, n))
  {
  }

  lemma RemoveQueueOk(m: Memory, qs: map<Place, seq<Task>>, home: map<Task, Place>, p: Place, t: Task, o: Place, n: nat)
    requires Represents(m, qs, home) && IsQueue(p) && t in Line(qs, p) && n == IndexOf(Line(qs, p), t)
    requires
      var l, h, tl := LinksAt(m, p), End(m.head, p), End(m.tail, p);
      && t in l.prev && t in l.next
      && Chain(RemoveLinks(l, h, tl, t), if h == t then l.next[t] else h, if tl == t then l.prev[t] else tl,
               RemoveAt(Line(qs, p), n))
    ensures QueueOk(RemoveMemory(m, p, t), Leave(qs, p, t), o)
  {
    hide RemoveLinks, Chain, IndexOf;
    assert QueueOk(m, qs, p);
    DistinctRest(Line(qs, p), n);
    if IsQueue(o) && o != p {
      assert QueueOk(m, qs, o);
      if o.ReadyQueue? == p.ReadyQueue? {
        forall x | x in Line(qs, p)
          ensures x !in Line(qs, o)
        {
          assert StandsAt(qs, home, p, x) && StandsAt(qs, home, o, x);
        }
        RemoveElsewhere(LinksAt(m, p), End(m.head, p), End(m.tail, p), Line(qs, p), n, End(m.head, o), End(m.tail, o),
          Line(qs, o));
      }
    }
  }

  lemma RemoveWords(m: Memory, qs: map<Place, seq<Task>>, home: map<Task, Place>, p: Place, t: Task, to: Place,
      n: nat, x: Task)
    requires Represents(m, qs, home) && IsQueue(p) && t in home && home[t] == p && !IsQueue(to)
    requires t in Line(qs, p) && n == IndexOf(Line(qs, p), t) && t in LinksAt(m, p).prev && t in LinksAt(m, p).next
    requires Loose(RemoveLinks(LinksAt(m, p), End(m.head, p), End(m.tail, p), t), t)
    ensures WordsOk(RemoveMemory(m, p, t), home[t := to], x)
  {
    var q := Line(qs, p);
    NeighboursStand(m, qs, home, p, t, n);
    assert WordsOk(m, home, x) && WordsOk(m, home, t);
    OtherWords(m, home, p, t, to, x);
  }

  /** The neighbours of a task in a queue are in that queue. */
  lemma NeighboursStand(m: Memory, qs: map<Place, seq<Task>>, home: map<Task, Place>, p: Place, t: Task, n: nat)
    requires Represents(m, qs, home) && IsQueue(p) && t in Line(qs, p) && n == IndexOf(Line(qs, p), t)
    requires t in LinksAt(m, p).prev && t in LinksAt(m, p).next
    ensures
      var l := LinksAt(m, p);
      && (End(m.head, p) != t ==> l.prev[t] in home && home[l.prev[t]] == p)
      && (End(m.tail, p) != t ==> l.next[t] in home && home[l.next[t]] == p)
  {
    assert QueueOk(m, qs, p);
    var q := Line(qs, p);
    assert ChainAt(LinksAt(m, p), q, n);
    if n > 0 { assert q[n - 1] in q && StandsAt(qs, home, p, q[n - 1]); }
    if n + 1 < |q| { assert q[n + 1] in q && StandsAt(qs, home, p, q[n + 1]); }
  }

  lemma OtherWords(m: Memory, home: map<Task, Place>, p: Place, t: Task, to: Place, x: Task)
    requires IsQueue(p) && t in home && home[t] == p && !IsQueue(to) && WordsOk(m, home, x) && WordsOk(m, home, t)
    requires t in LinksAt(m, p).prev && t in LinksAt(m, p).next
    requires
      var l := LinksAt(m, p);
      && (End(m.head, p) != t ==> l.prev[t] in home && home[l.prev[t]] == p)
      && (End(m.tail, p) != t ==> l.next[t] in home && home[l.next[t]] == p)
    requires Loose(RemoveLinks(LinksAt(m, p), End(m.head, p), End(m.tail, p), t), t)
    ensures WordsOk(RemoveMemory(m, p, t), home[t := to], x)
  {
  }
}
