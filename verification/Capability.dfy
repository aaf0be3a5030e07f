/** Capabilities, and the stretch of physical memory each one stands for. */
module Capability {

  /** A task, named by the address of its control block. */
  type Task = nat

  const PAGE_SIZE: nat := 4096
  const MAX_LEVEL: nat := 2
  const WORD: nat := 0x1_0000_0000_0000_0000
  const MAX_PHYSICAL_ADDRESS: nat := 0x10_0000_0000
  const ENDPOINT_SIZE: nat := 64

  datatype Cap =
    | NullCap
    | MemCap(device: bool, base: nat, size: nat, used: nat)
    | TaskCap(task: Task, rights: nat)
    | EndpointCap(endpoint: nat)
    | PageTableCap(table: nat)
    | VirtPageCap(page: nat, level: nat)
    | CapSpaceCap(space: nat)
    | IdCap(val1: nat, val2: nat, val3: nat)
    | ZombieCap

  function PageSize(level: nat): (n: nat)
    ensures n >= PAGE_SIZE
  {
    if level == 0 then PAGE_SIZE else 512 * PageSize(level - 1)
  }

  /** A capability that is held, not delegated away. */
  predicate Live(c: Cap) { !c.NullCap? && !c.ZombieCap? }

  /** Capabilities that stand for a stretch of physical memory. */
  predicate Placed(c: Cap) { Live(c) && !c.IdCap? }

  function Lo(c: Cap): (a: nat)
    requires Placed(c)
  {
    match c
    case MemCap(_, base, _, _) => base
    case TaskCap(task, _) => task
    case EndpointCap(endpoint) => endpoint
    case PageTableCap(table) => table
    case VirtPageCap(page, _) => page
    case CapSpaceCap(space) => space
  }

  function Size(c: Cap): (n: nat)
    requires Placed(c)
  {
    match c
    case MemCap(_, _, size, _) => size
    case EndpointCap(_) => ENDPOINT_SIZE
    case VirtPageCap(_, level) => PageSize(level)
    case _ => PAGE_SIZE
  }

  function Hi(c: Cap): (a: nat)
    requires Placed(c)
  {
    Lo(c) + Size(c)
  }

  /** The kernel objects that several capabilities may share. */
  predicate Shared(c: Cap) { c.TaskCap? || c.EndpointCap? }

  /** Two capabilities for one shared kernel object. */
  predicate SameShared(a: Cap, b: Cap) {
    || (a.TaskCap? && b.TaskCap? && a.task == b.task)
    || (a.EndpointCap? && b.EndpointCap? && a.endpoint == b.endpoint)
  }

  /** Two capabilities, neither delegated, that `is_same_object` takes for one object in different slots. */
  predicate SameCopy(a: Cap, b: Cap) {
    SameShared(a, b) || (a.IdCap? && a == b)
  }

  predicate Apart(a: Cap, b: Cap)
    requires Placed(a) && Placed(b)
  {
    Hi(a) <= Lo(b) || Hi(b) <= Lo(a)
  }

  /** `a` lies in the part of memory capability `b` that has been given out. */
  predicate Within(a: Cap, b: Cap)
    requires Placed(a)
  {
    b.MemCap? && b.base <= Lo(a) && Hi(a) <= b.base + b.used
  }

  /** A memory capability accounts for no more than it has; the others are what their type says. */
  predicate WellSized(c: Cap) {
    c.MemCap? ==> 0 < c.size < MAX_PHYSICAL_ADDRESS && c.used <= c.size && c.base + c.size <= MAX_PHYSICAL_ADDRESS
  }
}
