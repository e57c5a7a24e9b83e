/**
 * The toy kernel (kernel.py): a logger shared by a page-based memory
 * manager with an LRU-ish index and swapping, a FIFO task scheduler, a
 * module table, and the kernel object whose `syscall` dispatches through
 * a fixed five-entry table and mirrors its parts into a `state` dict.
 *
 * The clock (`time.time`) and the identifiers drawn from `uuid4` are
 * parameters of the operations that use them.
 */
module Kernel {
  import opened Values

  // ---------------------------------------------------------------------
  // Logger

  datatype LogEntry = LogEntry(ts: int, level: string, msg: string)

  class Logger {
    var logs: seq<LogEntry>

    constructor ()
      ensures logs == []
    {
      logs := [];
    }

    method Write(level: string, msg: string, now: int)
      modifies this
      ensures logs == old(logs) + [LogEntry(now, level, msg)]
    {
      logs := logs + [LogEntry(now, level, msg)];
    }

    /** `dump()`: every entry written, oldest first. */
    function Dump(): (r: seq<LogEntry>)
      reads this
      ensures r == logs
    {
      logs
    }
  }

  // ---------------------------------------------------------------------
  // Memory pages

  const Active: string := "active"
  const Swapped: string := "swapped"
  const SummaryLength: int := 120

  datatype Page = Page(pageId: string, processId: Value, content: string, status: string,
                       ts: int, usageCount: nat)

  /** `MemoryPage.summary(maxlen)`: the content cut to `maxlen` characters
      with "..." appended when it is longer; a negative `maxlen` cuts from
      the end, as Python's slice does. */
  function Summary(content: string, maxlen: int): (r: string)
    ensures 0 <= maxlen && |content| <= maxlen ==> r == content
    ensures 0 <= maxlen < |content| ==>
              |r| == maxlen + 3 && r[..maxlen] == content[..maxlen] && r[maxlen..] == "..."
    ensures maxlen < 0 ==>
              |r| >= 3 && r[|r| - 3..] == "..." && |r| - 3 == SliceBound(|content|, maxlen) &&
              r[..|r| - 3] == content[..|r| - 3]
  {
    if |content| > maxlen then PyUpTo(content, maxlen) + "..." else content
  }

  datatype PageInfo = PageInfo(processId: Value, status: string, summary: string)

  /** `list_pages`. */
  function ListPages(pages: map<string, Page>): (r: map<string, PageInfo>)
    ensures r.Keys == pages.Keys
    ensures forall id :: id in pages ==>
              r[id].status == pages[id].status && r[id].processId == pages[id].processId
  {
    map id | id in pages :: PageInfo(pages[id].processId, pages[id].status, Summary(pages[id].content, SummaryLength))
  }

  /** `list.remove`: the first occurrence of `x` deleted. */
  function RemoveFirst(s: seq<string>, x: string): (r: seq<string>)
    ensures x in s ==> |r| == |s| - 1 && multiset(r) == multiset(s) - multiset{x}
    ensures x !in s ==> r == s
  {
    if s == [] then []
    else
      assert s == [s[0]] + s[1..];
      if s[0] == x then s[1..] else [s[0]] + RemoveFirst(s[1..], x)
  }

  /** `swap_out` on the page table. */
  function SwapOutPage(pages: map<string, Page>, id: string): map<string, Page>
  {
    if id in pages && pages[id].status == Active then pages[id := pages[id].(status := Swapped)] else pages
  }

  /** What `_ensure_limit` leaves: the page table, the index, the log
      entries written, and whether it finished (`false` when `pop(0)` hit
      an empty index, which happens exactly for a negative limit). */
  datatype Eviction = Eviction(pages: map<string, Page>, index: seq<string>, written: seq<LogEntry>, ok: bool)

  function Evict(pages: map<string, Page>, index: seq<string>, maxPages: int, now: int): Eviction
    decreases |index|
  {
    if |index| <= maxPages then Eviction(pages, index, [], true)
    else if index == [] then Eviction(pages, index, [], false)
    else
      var id := index[0];
      var said := if id in pages && pages[id].status == Active
                  then [LogEntry(now, "INFO", "Swapped out page " + id)] else [];
      var e := Evict(SwapOutPage(pages, id), index[1..], maxPages, now);
      e.(written := said + e.written)
  }

  /** The page a successful `new_page` adds before eviction. */
  function FreshPage(pid: string, processId: Value, content: string, now: int): Page
  {
    Page(pid, processId, content, Active, now, 0)
  }

  function CreatedEntry(pid: string, processId: Value, now: int): LogEntry
  {
    LogEntry(now, "INFO", "Created page " + pid + " for process " + PyStr(processId))
  }

  class MemoryManager {
    const logger: Logger
    const maxPages: int
    var pages: map<string, Page>
    var index: seq<string>

    /** Every indexed id has a page; pages are never deleted. */
    predicate Valid()
      reads this
    {
      forall id :: id in index ==> id in pages
    }

    constructor (logger: Logger, maxPages: int)
      ensures this.logger == logger && this.maxPages == maxPages
      ensures pages == map[] && index == [] && Valid()
    {
      this.logger := logger;
      this.maxPages := maxPages;
      pages := map[];
      index := [];
    }

    /** `get_page(id)`: `dict.get`, None for an unknown id. */
    function GetPage(id: string): (r: Option<Page>)
      reads this
      ensures r.Some? <==> id in pages
      ensures r.Some? ==> r.value == pages[id]
    {
      if id in pages then Some(pages[id]) else None
    }

    function List(): map<string, PageInfo>
      reads this
    {
      ListPages(pages)
    }

    method SwapOut(id: string, now: int) returns (done: bool)
      modifies this, logger
      ensures done <==> id in old(pages) && old(pages)[id].status == Active
      ensures pages == SwapOutPage(old(pages), id) && index == old(index)
      ensures logger.logs == old(logger.logs) +
                (if done then [LogEntry(now, "INFO", "Swapped out page " + id)] else [])
    {
      if id in pages && pages[id].status == Active {
        pages := pages[id := pages[id].(status := Swapped)];
        logger.Write("INFO", "Swapped out page " + id, now);
        return true;
      }
      return false;
    }

    method SwapIn(id: string, now: int) returns (done: bool)
      modifies this, logger
      ensures done <==> id in old(pages) && old(pages)[id].status == Swapped
      ensures done ==> pages == old(pages)[id := old(pages)[id].(status := Active)]
      ensures !done ==> pages == old(pages)
      ensures index == old(index)
      ensures logger.logs == old(logger.logs) +
                (if done then [LogEntry(now, "INFO", "Swapped in page " + id)] else [])
    {
      if id in pages && pages[id].status == Swapped {
        pages := pages[id := pages[id].(status := Active)];
        logger.Write("INFO", "Swapped in page " + id, now);
        return true;
      }
      return false;
    }

    /** `_ensure_limit`: returns `false` where Python raises IndexError. */
    method EnsureLimit(now: int) returns (ok: bool)
      modifies this, logger
      ensures var e := Evict(old(pages), old(index), maxPages, now);
              pages == e.pages && index == e.index && ok == e.ok &&
              logger.logs == old(logger.logs) + e.written
    {
      ghost var e0 := Evict(pages, index, maxPages, now);
      ghost var logs0 := logger.logs;
      while |index| > maxPages
        invariant var e := Evict(pages, index, maxPages, now);
                  e.pages == e0.pages && e.index == e0.index && e.ok == e0.ok &&
                  logger.logs + e.written == logs0 + e0.written
        decreases |index|
      {
        if index == [] {
          return false;
        }
        var oldest := index[0];
        index := index[1..];
        var _ := SwapOut(oldest, now);
      }
      return true;
    }

    /** `new_page` with the identifier `pid` drawn by the caller: `None`
        where `_ensure_limit` raises. */
    method NewPage(processId: Value, content: string, pid: string, now: int) returns (r: Option<string>)
      modifies this, logger
      requires Valid()
      ensures Valid()
      ensures var e := Evict(old(pages)[pid := FreshPage(pid, processId, content, now)],
                             old(index) + [pid], maxPages, now);
              pages == e.pages && index == e.index &&
              logger.logs == old(logger.logs) + [CreatedEntry(pid, processId, now)] + e.written &&
              r == (if e.ok then Some(pid) else None)
    {
      pages := pages[pid := FreshPage(pid, processId, content, now)];
      index := index + [pid];
      logger.Write("INFO", "Created page " + pid + " for process " + PyStr(processId), now);
      ghost var before := pages;
      ghost var order := index;
      var ok := EnsureLimit(now);
      EvictKeepsPages(before, order, maxPages, now);
      r := if ok then Some(pid) else None;
    }

    /** `touch`: a known id moves to the most recent end of the index and
        its page is used once more; an unknown id changes nothing. */
    method Touch(id: string, now: int)
      modifies this
      requires Valid()
      ensures Valid()
      ensures id in old(index) ==>
                index == RemoveFirst(old(index), id) + [id] &&
                pages == old(pages)[id := old(pages)[id].(usageCount := old(pages)[id].usageCount + 1, ts := now)]
      ensures id !in old(index) ==> index == old(index) && pages == old(pages)
    {
      if id in index {
        index := RemoveFirst(index, id) + [id];
        pages := pages[id := pages[id].(usageCount := pages[id].usageCount + 1, ts := now)];
        forall x | x in index ensures x in pages {
          if x != id {
            assert x in multiset(index);
          }
        }
      }
    }
  }

  /** Eviction never deletes a page, and only ever moves pages from
      active to swapped. */
  lemma {:induction false} EvictKeepsPages(pages: map<string, Page>, index: seq<string>, maxPages: int, now: int)
    ensures var e := Evict(pages, index, maxPages, now);
            e.pages.Keys == pages.Keys &&
            forall id :: id in e.index ==> id in index
    ensures var e := Evict(pages, index, maxPages, now);
            forall id :: id in pages && pages[id].status != Active ==> e.pages[id] == pages[id]
    decreases |index|
  {
    if |index| > maxPages && index != [] {
      EvictKeepsPages(SwapOutPage(pages, index[0]), index[1..], maxPages, now);
    }
  }

  /** `_ensure_limit` finishes exactly when the limit is not negative, and
      then the index holds at most `maxPages` ids: the most recent ones, in
      order. */
  lemma {:induction false} EvictBounds(pages: map<string, Page>, index: seq<string>, maxPages: int, now: int)
    ensures var e := Evict(pages, index, maxPages, now);
            e.ok <==> maxPages >= 0
    ensures var e := Evict(pages, index, maxPages, now);
            e.ok ==> |e.index| == (if |index| <= maxPages then |index| else maxPages) &&
                     e.index == index[|index| - |e.index|..]
    decreases |index|
  {
    if |index| > maxPages && index != [] {
      EvictBounds(SwapOutPage(pages, index[0]), index[1..], maxPages, now);
      var e := Evict(SwapOutPage(pages, index[0]), index[1..], maxPages, now);
      if e.ok {
        assert index[1..][|index[1..]| - |e.index|..] == index[|index| - |e.index|..];
      }
    }
  }

  /** Every id evicted from the index that has a page is no longer active;
      pages whose id was not evicted are untouched. */
  lemma {:induction false} EvictSwapsOut(pages: map<string, Page>, index: seq<string>, maxPages: int, now: int, k: nat)
    requires maxPages >= 0 && |index| > maxPages && k == |index| - maxPages
    ensures var e := Evict(pages, index, maxPages, now);
            forall id :: id in index[..k] && id in pages ==> id in e.pages && e.pages[id].status != Active
    ensures var e := Evict(pages, index, maxPages, now);
            forall id :: id in pages && id !in index[..k] ==> id in e.pages && e.pages[id] == pages[id]
    decreases |index|
  {
    var next := SwapOutPage(pages, index[0]);
    EvictKeepsPages(next, index[1..], maxPages, now);
    if k > 1 {
      EvictSwapsOut(next, index[1..], maxPages, now, k - 1);
      assert index[..k] == [index[0]] + index[1..][..k - 1];
    } else {
      assert index[1..] == index[k..];
      assert index[..k] == [index[0]];
    }
  }

  /** With a limit of zero, a new page is swapped out as soon as it is
      created, and the index ends empty. */
  lemma ZeroLimitSwapsNewPage(pages: map<string, Page>, index: seq<string>, pid: string,
                              processId: Value, content: string, now: int)
    ensures var e := Evict(pages[pid := FreshPage(pid, processId, content, now)], index + [pid], 0, now);
            e.ok && e.index == [] && pid in e.pages && e.pages[pid].status == Swapped
  {
    var start := pages[pid := FreshPage(pid, processId, content, now)];
    var e := Evict(start, index + [pid], 0, now);
    EvictBounds(start, index + [pid], 0, now);
    EvictSwapsOut(start, index + [pid], 0, now, |index| + 1);
    EvictKeepsPages(start, index + [pid], 0, now);
    assert (index + [pid])[..|index| + 1] == index + [pid];
    assert e.pages[pid].status != Active;
    SwappedStays(start, index + [pid], 0, now, pid);
  }

  /** A page's status after eviction is the one it started with or
      "swapped". */
  lemma {:induction false} SwappedStays(pages: map<string, Page>, index: seq<string>, maxPages: int, now: int, id: string)
    requires id in pages
    ensures var e := Evict(pages, index, maxPages, now);
            id in e.pages && (e.pages[id].status == pages[id].status || e.pages[id].status == Swapped)
    decreases |index|
  {
    if |index| > maxPages && index != [] {
      SwappedStays(SwapOutPage(pages, index[0]), index[1..], maxPages, now, id);
    }
  }

  /** Below the limit a new page is simply appended, active, to the most
      recent end of the index. */
  lemma NewPageBelowLimit(pages: map<string, Page>, index: seq<string>, pid: string,
                          processId: Value, content: string, maxPages: int, now: int)
    requires |index| + 1 <= maxPages
    ensures var e := Evict(pages[pid := FreshPage(pid, processId, content, now)], index + [pid], maxPages, now);
            e.ok && e.index == index + [pid] && e.written == [] &&
            e.pages[pid].status == Active
  {
  }

  // ---------------------------------------------------------------------
  // Tasks

  datatype Task = Task(taskId: string, payload: Value, metadata: Value, status: string)

  /** `Task(task_id, payload, metadata)`: a falsy metadata becomes `{}`. */
  function NewTask(tid: string, payload: Value, metadata: Value): (t: Task)
    ensures t.status == "pending" && t.taskId == tid && t.payload == payload
    ensures PyTruthy(t.metadata) || t.metadata == Obj([])
  {
    Task(tid, payload, if PyTruthy(metadata) then metadata else Obj([]), "pending")
  }

  class TaskScheduler {
    const logger: Logger
    var queue: seq<Task>

    constructor (logger: Logger)
      ensures this.logger == logger && queue == []
    {
      this.logger := logger;
      queue := [];
    }

    method Submit(t: Task, now: int)
      modifies this, logger
      ensures queue == old(queue) + [t]
      ensures logger.logs == old(logger.logs) + [LogEntry(now, "INFO", "Task " + t.taskId + " submitted")]
    {
      queue := queue + [t];
      logger.Write("INFO", "Task " + t.taskId + " submitted", now);
    }

    method Fetch(now: int) returns (r: Option<Task>)
      modifies this, logger
      ensures Served(old(queue)) == (queue, r)
      ensures r.Some? ==> logger.logs == old(logger.logs) + [LogEntry(now, "INFO", "Task " + r.value.taskId + " fetched")]
      ensures r.None? ==> logger.logs == old(logger.logs)
    {
      if queue == [] {
        return None;
      }
      var t := queue[0];
      queue := queue[1..];
      logger.Write("INFO", "Task " + t.taskId + " fetched", now);
      r := Some(t);
    }

    /** `qsize()`: the number of tasks waiting. */
    function Qsize(): (r: nat)
      reads this
      ensures r == |queue|
    {
      |queue|
    }
  }

  /** `fetch` on a queue: the front task and the rest, or nothing. */
  function Served(q: seq<Task>): (seq<Task>, Option<Task>)
  {
    if q == [] then (q, None) else (q[1..], Some(q[0]))
  }

  datatype QueueOp = SubmitOp(t: Task) | FetchOp

  /** The queue after `ops`, and the tasks the fetches returned, in order. */
  function Replay(q: seq<Task>, ops: seq<QueueOp>): (seq<Task>, seq<Task>)
    decreases |ops|
  {
    if ops == [] then (q, [])
    else
      var (q', out) := Replay(q, ops[..|ops| - 1]);
      match ops[|ops| - 1]
      case SubmitOp(t) => (q' + [t], out)
      case FetchOp => if q' == [] then (q', out) else (q'[1..], out + [q'[0]])
  }

  function SubmittedTasks(ops: seq<QueueOp>): seq<Task>
    decreases |ops|
  {
    if ops == [] then []
    else SubmittedTasks(ops[..|ops| - 1]) + (if ops[|ops| - 1].SubmitOp? then [ops[|ops| - 1].t] else [])
  }

  /** First in, first out: the tasks fetched so far followed by those still
      queued are exactly the starting queue followed by the submitted
      tasks, in submission order. */
  lemma {:induction false} FetchedInOrder(q: seq<Task>, ops: seq<QueueOp>)
    ensures Replay(q, ops).1 + Replay(q, ops).0 == q + SubmittedTasks(ops)
    decreases |ops|
  {
    if ops != [] {
      var init := ops[..|ops| - 1];
      FetchedInOrder(q, init);
      var (q', out) := Replay(q, init);
      assert out + q' == q + SubmittedTasks(init);
      match ops[|ops| - 1]
      case SubmitOp(t) =>
        assert SubmittedTasks(ops) == SubmittedTasks(init) + [t];
        assert Replay(q, ops) == (q' + [t], out);
        assert out + (q' + [t]) == (out + q') + [t];
      case FetchOp =>
        assert SubmittedTasks(ops) == SubmittedTasks(init) + [];
        if q' != [] {
          assert Replay(q, ops) == (q'[1..], out + [q'[0]]);
          assert out + [q'[0]] + q'[1..] == out + q';
        }
    }
  }

  // ---------------------------------------------------------------------
  // Modules

  /** A registered module: its handler's identity and its description. */
  datatype ModuleEntry = ModuleEntry(handler: nat, description: Value)

  datatype ModuleCall = Dispatched(handler: nat) | NotRegistered(message: string)

  class ModuleManager {
    const logger: Logger
    /** The dict's keys in insertion order. */
    var names: seq<string>
    var modules: map<string, ModuleEntry>

    ghost predicate Valid()
      reads this
    {
      (forall i, j :: 0 <= i < j < |names| ==> names[i] != names[j]) &&
      (forall n :: n in names <==> n in modules)
    }

    constructor (logger: Logger)
      ensures this.logger == logger && names == [] && modules == map[] && Valid()
    {
      this.logger := logger;
      names := [];
      modules := map[];
    }

    /** `register`: a new name goes last; an existing one keeps its place
        and its entry is replaced. */
    method Register(name: string, handler: nat, description: Value, now: int)
      modifies this, logger
      requires Valid()
      ensures Valid()
      ensures modules == old(modules)[name := ModuleEntry(handler, description)]
      ensures names == if name in old(modules) then old(names) else old(names) + [name]
      ensures logger.logs == old(logger.logs) + [LogEntry(now, "INFO", "Module '" + name + "' registered")]
    {
      if name !in modules {
        names := names + [name];
      }
      modules := modules[name := ModuleEntry(handler, description)];
      logger.Write("INFO", "Module '" + name + "' registered", now);
    }

    /** `unregister`: a missing name changes nothing. */
    method Unregister(name: string, now: int)
      modifies this, logger
      requires Valid()
      ensures Valid()
      ensures modules == old(modules) - {name}
      ensures names == RemoveFirst(old(names), name)
      ensures logger.logs == old(logger.logs) +
                (if name in old(modules) then [LogEntry(now, "INFO", "Module '" + name + "' unregistered")] else [])
    {
      if name in modules {
        NamesAfterRemove(names, name);
        names := RemoveFirst(names, name);
        modules := modules - {name};
        logger.Write("INFO", "Module '" + name + "' unregistered", now);
      }
    }

    /** `call`: raises for an unregistered name, else invokes its handler. */
    function Call(name: string): (r: ModuleCall)
      reads this
      ensures r.NotRegistered? <==> name !in modules
      ensures r.Dispatched? ==> r.handler == modules[name].handler
      ensures r.NotRegistered? ==> r.message == "Module " + name + " not registered"
    {
      if name !in modules then NotRegistered("Module " + name + " not registered")
      else Dispatched(modules[name].handler)
    }
  }

  /** Removing a name from a list without repeats removes exactly that
      name and keeps the list free of repeats. */
  lemma {:induction false} NamesAfterRemove(s: seq<string>, x: string)
    requires forall i, j :: 0 <= i < j < |s| ==> s[i] != s[j]
    ensures var r := RemoveFirst(s, x);
            (forall i, j :: 0 <= i < j < |r| ==> r[i] != r[j]) &&
            (forall n :: n in r <==> n in s && n != x)
    decreases |s|
  {
    if s != [] && s[0] != x {
      NamesAfterRemove(s[1..], x);
      assert s[0] !in s[1..];
    } else if s != [] {
      assert x !in s[1..];
    }
  }

  // ---------------------------------------------------------------------
  // The kernel

  /** The argument shapes of the five syscalls. */
  datatype SysArgs =
    | RegisterArgs(name: string, handler: nat, description: Value)
    | SubmitArgs(payload: Value, metadata: Value)
    | LogArgs(level: string, msg: string)
    | NoArgs

  datatype SysResult =
    | Registered(moduleName: string)
    | Submitted(taskId: string)
    | NoTask
    | Fetched(task: Task)
    | LogWritten
    | Summarised(pages: map<string, PageInfo>, recentLogs: seq<LogEntry>)
    | Raises(error: string)

  function SyscallNames(): set<string>
  {
    {"register_module", "submit_task", "fetch_task", "write_log", "get_summary"}
  }

  /** Whether `args` can bind to the handler of syscall `name`; Python
      raises TypeError otherwise. */
  predicate Fits(name: string, args: SysArgs)
  {
    match args
    case RegisterArgs(_, _, _) => name == "register_module"
    case SubmitArgs(_, _) => name == "submit_task"
    case LogArgs(_, _) => name == "write_log"
    case NoArgs => name == "fetch_task" || name == "get_summary"
  }

  /** The log entries a syscall's handler adds after the DEBUG entry:
      those its component writes, and none when the call raises. */
  function HandlerLogs(name: string, args: SysArgs, taskId: string, queue: seq<Task>,
                       modules: map<string, ModuleEntry>, now: int): (r: seq<LogEntry>)
    ensures !Fits(name, args) ==> r == []
    ensures |r| <= 1
  {
    if !Fits(name, args) then []
    else match args
      case RegisterArgs(n, _, _) => [LogEntry(now, "INFO", "Module '" + n + "' registered")]
      case SubmitArgs(_, _) => [LogEntry(now, "INFO", "Task " + taskId + " submitted")]
      case LogArgs(level, msg) => [LogEntry(now, level, msg)]
      case NoArgs =>
        if name == "fetch_task" && queue != [] then [LogEntry(now, "INFO", "Task " + queue[0].taskId + " fetched")]
        else []
  }

  function DebugEntry(name: string, now: int): LogEntry
  {
    LogEntry(now, "DEBUG", "Kernel received syscall: " + name)
  }

  class Kernel {
    const logger: Logger
    const mem: MemoryManager
    const scheduler: TaskScheduler
    const modules: ModuleManager
    /** The `state` dict. A field still holding its initial empty list is
        `None` (for "modules", the empty list itself). */
    var stateModules: seq<string>
    var stateTaskQueue: Option<nat>
    var stateMemoryPages: Option<map<string, PageInfo>>
    var stateLogs: Option<nat>

    ghost predicate Valid()
      reads this, mem, modules
    {
      mem.logger == logger && scheduler.logger == logger && modules.logger == logger &&
      mem.Valid() && modules.Valid()
    }

    constructor (maxPages: int)
      ensures Valid() && fresh(logger) && fresh(mem) && fresh(scheduler) && fresh(modules)
      ensures logger.logs == [] && mem.maxPages == maxPages && mem.pages == map[] && mem.index == []
      ensures scheduler.queue == [] && modules.modules == map[]
      ensures stateModules == [] && stateTaskQueue.None? && stateMemoryPages.None? && stateLogs.None?
    {
      var l := new Logger();
      logger := l;
      mem := new MemoryManager(l, maxPages);
      scheduler := new TaskScheduler(l);
      modules := new ModuleManager(l);
      stateModules := [];
      stateTaskQueue := None;
      stateMemoryPages := None;
      stateLogs := None;
    }

    /** `syscall`: the request is always logged at DEBUG level first; a
        name outside the table raises, changing nothing else. Each handler
        changes only its own component and state entry, and adds the log
        entries its component writes. */
    method Syscall(name: string, args: SysArgs, taskId: string, now: int) returns (r: SysResult)
      modifies this, logger, scheduler, modules
      requires Valid()
      ensures Valid()
      ensures logger.logs == old(logger.logs) + [DebugEntry(name, now)] +
                             HandlerLogs(name, args, taskId, old(scheduler.queue), old(modules.modules), now)
      ensures name !in SyscallNames() ==> r == Raises("Invalid syscall: " + name)
      ensures name in SyscallNames() && !Fits(name, args) ==> r == Raises("TypeError")
      ensures r.Raises? <==> !Fits(name, args)
      ensures !(args.RegisterArgs? && Fits(name, args)) ==>
                modules.modules == old(modules.modules) && modules.names == old(modules.names) &&
                stateModules == old(stateModules)
      ensures !(args.SubmitArgs? && Fits(name, args)) && !(name == "fetch_task" && args.NoArgs?) ==>
                scheduler.queue == old(scheduler.queue) && stateTaskQueue == old(stateTaskQueue)
      ensures !(args.LogArgs? && Fits(name, args)) ==> stateLogs == old(stateLogs)
      ensures args.RegisterArgs? && Fits(name, args) ==>
                r == Registered(args.name) &&
                modules.modules == old(modules.modules)[args.name := ModuleEntry(args.handler, args.description)] &&
                modules.names == (if args.name in old(modules.modules) then old(modules.names) else old(modules.names) + [args.name]) &&
                stateModules == modules.names
      ensures args.SubmitArgs? && Fits(name, args) ==>
                r == Submitted(taskId) &&
                scheduler.queue == old(scheduler.queue) + [NewTask(taskId, args.payload, args.metadata)] &&
                stateTaskQueue == Some(|scheduler.queue|)
      ensures name == "fetch_task" && args.NoArgs? ==>
                (old(scheduler.queue) == [] ==> r == NoTask && scheduler.queue == [] && stateTaskQueue == old(stateTaskQueue)) &&
                (old(scheduler.queue) != [] ==>
                   r == Fetched(old(scheduler.queue)[0]) && scheduler.queue == old(scheduler.queue)[1..] &&
                   stateTaskQueue == Some(|scheduler.queue|))
      ensures args.LogArgs? && Fits(name, args) ==> r == LogWritten && stateLogs == Some(|logger.logs|)
      ensures name == "get_summary" && args.NoArgs? ==>
                r == Summarised(ListPages(mem.pages), PyFrom(old(logger.logs) + [DebugEntry(name, now)], -10))
      ensures unchanged(mem) && stateMemoryPages == old(stateMemoryPages)
    {
      logger.Write("DEBUG", "Kernel received syscall: " + name, now);
      if name !in SyscallNames() {
        return Raises("Invalid syscall: " + name);
      }
      if !Fits(name, args) {
        return Raises("TypeError");
      }
      match args
      case RegisterArgs(n, h, d) =>
        r := SysRegisterModule(n, h, d, now);
      case SubmitArgs(payload, metadata) =>
        r := SysSubmitTask(payload, metadata, taskId, now);
      case LogArgs(level, msg) =>
        r := SysWriteLog(level, msg, now);
      case NoArgs =>
        if name == "fetch_task" {
          r := SysFetchTask(now);
        } else {
          r := Summarised(mem.List(), PyFrom(logger.Dump(), -10));
        }
    }

    /** `_sys_register_module`. */
    method SysRegisterModule(n: string, h: nat, d: Value, now: int) returns (r: SysResult)
      modifies this, logger, modules
      requires Valid()
      ensures Valid() && r == Registered(n)
      ensures modules.modules == old(modules.modules)[n := ModuleEntry(h, d)]
      ensures modules.names == (if n in old(modules.modules) then old(modules.names) else old(modules.names) + [n])
      ensures stateModules == modules.names
      ensures logger.logs == old(logger.logs) + [LogEntry(now, "INFO", "Module '" + n + "' registered")]
      ensures stateTaskQueue == old(stateTaskQueue) && stateLogs == old(stateLogs) &&
              stateMemoryPages == old(stateMemoryPages)
    {
      modules.Register(n, h, d, now);
      stateModules := modules.names;
      r := Registered(n);
    }

    /** `_sys_submit_task`; the task id is a parameter. */
    method SysSubmitTask(payload: Value, metadata: Value, taskId: string, now: int) returns (r: SysResult)
      modifies this, logger, scheduler
      requires Valid()
      ensures Valid() && r == Submitted(taskId)
      ensures scheduler.queue == old(scheduler.queue) + [NewTask(taskId, payload, metadata)]
      ensures stateTaskQueue == Some(|scheduler.queue|)
      ensures logger.logs == old(logger.logs) + [LogEntry(now, "INFO", "Task " + taskId + " submitted")]
      ensures stateModules == old(stateModules) && stateLogs == old(stateLogs) &&
              stateMemoryPages == old(stateMemoryPages)
    {
      scheduler.Submit(NewTask(taskId, payload, metadata), now);
      stateTaskQueue := Some(scheduler.Qsize());
      r := Submitted(taskId);
    }

    /** `_sys_fetch_task`: None, with the state untouched, on an empty
        queue. */
    method SysFetchTask(now: int) returns (r: SysResult)
      modifies this, logger, scheduler
      requires Valid()
      ensures Valid()
      ensures old(scheduler.queue) == [] ==>
                r == NoTask && scheduler.queue == [] && logger.logs == old(logger.logs) &&
                stateTaskQueue == old(stateTaskQueue)
      ensures old(scheduler.queue) != [] ==>
                r == Fetched(old(scheduler.queue)[0]) && scheduler.queue == old(scheduler.queue)[1..] &&
                logger.logs == old(logger.logs) + [LogEntry(now, "INFO", "Task " + old(scheduler.queue)[0].taskId + " fetched")] &&
                stateTaskQueue == Some(|scheduler.queue|)
      ensures stateModules == old(stateModules) && stateLogs == old(stateLogs) &&
              stateMemoryPages == old(stateMemoryPages)
    {
      var t := scheduler.Fetch(now);
      if t.None? {
        return NoTask;
      }
      stateTaskQueue := Some(scheduler.Qsize());
      r := Fetched(t.value);
    }

    /** `_sys_write_log`. */
    method SysWriteLog(level: string, msg: string, now: int) returns (r: SysResult)
      modifies this, logger
      requires Valid()
      ensures Valid() && r == LogWritten
      ensures logger.logs == old(logger.logs) + [LogEntry(now, level, msg)]
      ensures stateLogs == Some(|logger.logs|)
      ensures stateModules == old(stateModules) && stateTaskQueue == old(stateTaskQueue) &&
              stateMemoryPages == old(stateMemoryPages)
    {
      logger.Write(level, msg, now);
      stateLogs := Some(|logger.logs|);
      r := LogWritten;
    }

    /** `new_context_page`: the page table is mirrored into the state
        after a successful `new_page`. */
    method NewContextPage(processId: Value, content: string, pid: string, now: int) returns (r: Option<string>)
      modifies mem, logger, this
      requires Valid()
      ensures Valid()
      ensures var e := Evict(old(mem.pages)[pid := FreshPage(pid, processId, content, now)],
                             old(mem.index) + [pid], mem.maxPages, now);
              mem.pages == e.pages && mem.index == e.index &&
              r == (if e.ok then Some(pid) else None)
      ensures r.Some? ==> stateMemoryPages == Some(ListPages(mem.pages))
      ensures r.None? ==> stateMemoryPages == old(stateMemoryPages)
      ensures stateTaskQueue == old(stateTaskQueue) && stateModules == old(stateModules) && stateLogs == old(stateLogs)
    {
      r := mem.NewPage(processId, content, pid, now);
      if r.Some? {
        stateMemoryPages := Some(mem.List());
      }
    }
  }
}
