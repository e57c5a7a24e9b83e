/**
 * The backend's prompt-window base class (Windows/BaseWindow/BaseWindow.py):
 * window names, the default `forward` layout, the single-entry divided
 * snapshot, the class-level name registry filled by the `register`
 * decorator, the `handle_call` dispatch every window inherits, and the
 * null window.
 */
module BaseWindow {
  import opened Values

  // ---------------------------------------------------------------------
  // Handler replies

  /** What a handler call produces: the returned value (`None` is `Null`),
      the error log's statistics (a dict whose keys need not be strings),
      or the name of the exception it raised. */
  datatype Reply =
    | Returned(v: Value)
    | Statistics(total: nat, byType: PyDict)
    | Raised(error: string)

  /** A handler's effect on its window's state, with its reply. */
  datatype Handled<S> = Handled(state: S, reply: Reply)

  /** Python `None`, as `kwargs.get` reports a missing or null argument. */
  predicate IsNone(v: Value)
  {
    v.Null? || v.Undefined?
  }

  /** `{"status": status, ...rest}`. */
  function StatusReply(status: string, rest: seq<Field>): Reply
  {
    Returned(Obj([Field("status", Str(status))] + rest))
  }

  /** A field after the status reads back from the reply, the first of
      its name winning. */
  lemma StatusReplyGet(status: string, rest: seq<Field>, i: nat)
    requires i < |rest| && rest[i].key != "status"
    requires forall j :: 0 <= j < i ==> rest[j].key != rest[i].key
    ensures JsGet(StatusReply(status, rest).v, rest[i].key) == rest[i].val
  {
    var fs := [Field("status", Str(status))] + rest;
    assert fs[i + 1] == rest[i];
    forall j | 0 <= j < i + 1 ensures fs[j].key != rest[i].key {
      if j > 0 {
        assert fs[j] == rest[j - 1];
      }
    }
    LookupAt(fs, i + 1, rest[i].key);
  }

  /** `{"status": "error", "reason": reason}`. */
  function ErrorReply(reason: string): Reply
  {
    StatusReply("error", [Field("reason", Str(reason))])
  }

  // ---------------------------------------------------------------------
  // Names and the default layout

  function UndefinedName(): string
  {
    "undefined_windowName"
  }

  /** `__init__(window_name)`: a missing or empty name is replaced. */
  function WindowName(name: Option<string>): (n: string)
    ensures n != ""
    ensures name.Some? && name.value != "" ==> n == name.value
    ensures name.None? || name.value == "" ==> n == UndefinedName()
  {
    if name.None? || name.value == "" then UndefinedName() else name.value
  }

  function StartTag(name: string): string
  {
    "<WINDOW START: " + name + ">\n"
  }

  /** The closing tag the client's assembler writes. */
  function EndTag(name: string): string
  {
    "<WINDOW END: " + name + ">\n"
  }

  /** The inherited `forward()`: the START tag both opens and closes the
      block, and a stray `]` follows the state. */
  function DefaultForward(name: string, meta: string, state: string): (r: string)
    ensures |r| == 2 * |StartTag(name)| + |meta| + |state| + 17
    ensures r[..1 + |StartTag(name)|] == "\n" + StartTag(name)
    ensures r[|r| - |StartTag(name)|..] == StartTag(name)
    ensures r[|r| - |StartTag(name)| - 2..|r| - |StartTag(name)|] == "]\n"
  {
    "\n" + StartTag(name) + "META:\n" + meta + "\nSTATE:\n" + state + "]\n" + StartTag(name)
  }

  /** The default block never ends with an END tag, whatever the name. */
  lemma DefaultForwardNeverCloses(name: string, meta: string, state: string)
    ensures var r := DefaultForward(name, meta, state);
            |r| >= |EndTag(name)| && r[|r| - |EndTag(name)|..] != EndTag(name)
  {
    var r := DefaultForward(name, meta, state);
    var s := StartTag(name);
    assert r[|r| - |s|..] == s;
    assert r[|r| - |EndTag(name)|..] == s[2..];
    assert s[2] == 'I';
    assert EndTag(name)[0] == '<';
  }

  /** `get_divided_snapshot()`: one entry, keyed by the window name. */
  function Divided(name: string, meta: Value, state: Value): (snap: seq<Field>)
    ensures Keys(snap) == [name]
    ensures Lookup(snap, name) == Some(Obj([Field("meta", meta), Field("state", state)]))
  {
    [Field(name, Obj([Field("meta", meta), Field("state", state)]))]
  }

  // ---------------------------------------------------------------------
  // The null window

  /** `NullSystemWindow`: named "null_window", empty meta and state, no
      handlers. */
  function NullName(): string
  {
    "null_window"
  }

  function NullForward(): (r: string)
    ensures r == DefaultForward(NullName(), "", "")
  {
    DefaultForward(NullName(), "", "")
  }

  function NullSnapshot(): (snap: seq<Field>)
    ensures Lookup(snap, "null_window") == Some(Obj([Field("meta", Str("")), Field("state", Str(""))]))
    ensures Keys(snap) == ["null_window"]
  {
    Divided(NullName(), Str(""), Str(""))
  }

  // ---------------------------------------------------------------------
  // Inherited dispatch

  datatype Route = Dispatch(handler: string) | NotImplemented(message: string)

  /** `handle_call(module_call)`: only names in the instance's own
      `handlers` dict are dispatched; anything else raises
      NotImplementedError naming the class. */
  function HandleCallRoute(handlers: set<string>, call: string, className: string): (r: Route)
    ensures r.Dispatch? <==> call in handlers
    ensures r.Dispatch? ==> r.handler == call
    ensures r.NotImplemented? ==> r.message == "Handler for " + call + " not found in " + className
  {
    if call in handlers then Dispatch(call)
    else NotImplemented("Handler for " + call + " not found in " + className)
  }

  /** Only the system window fills its instance `handlers`; for every other
      window the dict stays empty, so `handle_call` always raises. */
  lemma EmptyHandlersAlwaysRaise(call: string, className: string)
    ensures HandleCallRoute({}, call, className).NotImplemented?
  {
  }

  // ---------------------------------------------------------------------
  // The class-level registry

  /** The window classes the registry can hold. */
  datatype WindowKind =
    | NullWindowKind | KernelKind | CodeKind | StackKind | FlowStackKind | HeapKind
    | SystemKind | ChatKind | AsyChatKind | AlfworldKind | ThinkKind | ErrorKind

  /** `from_name(name)`: an instance of the registered class, or the
      ValueError message. */
  datatype Creation = Created(kind: WindowKind) | NotRegistered(message: string)

  /** What the decorator leaves after registering `names` (already passed
      through `str`) for one class: later registrations replace earlier
      ones. */
  function RegisterAll(m: map<string, WindowKind>, names: seq<string>, kind: WindowKind): (r: map<string, WindowKind>)
    ensures forall n :: n in names ==> n in r && r[n] == kind
    ensures forall n :: n !in names ==> (n in r <==> n in m) && (n in m ==> r[n] == m[n])
    decreases |names|
  {
    if names == [] then m
    else
      assert forall n :: n in names[1..] ==> n in names;
      RegisterAll(m[names[0] := kind], names[1..], kind)
  }

  function FromNameIn(m: map<string, WindowKind>, name: string): (r: Creation)
    ensures r.Created? <==> name in m
    ensures r.Created? ==> r.kind == m[name]
    ensures r.NotRegistered? ==> r.message == "Window '" + name + "' not registered."
  {
    if name in m then Created(m[name]) else NotRegistered("Window '" + name + "' not registered.")
  }

  class WindowRegistry {
    var registered: map<string, WindowKind>

    constructor ()
      ensures registered == map[]
    {
      registered := map[];
    }

    /** The `register(*window_names)` decorator applied to one class. */
    method Register(names: seq<string>, kind: WindowKind)
      modifies this
      ensures registered == RegisterAll(old(registered), names, kind)
    {
      for i := 0 to |names|
        invariant RegisterAll(old(registered), names, kind) == RegisterAll(registered, names[i..], kind)
      {
        assert names[i..][1..] == names[i + 1..];
        registered := registered[names[i] := kind];
      }
    }

    function FromName(name: string): (r: Creation)
      reads this
      ensures r == FromNameIn(registered, name)
    {
      FromNameIn(registered, name)
    }
  }

  /** One application of the decorator: a class and the names it
      registers. */
  datatype Registration = Registration(names: seq<string>, kind: WindowKind)

  /** The decorators in the order the windows package imports its modules:
      the base module, the static windows, the plain and then the flow
      stack, the heap, the system window, the chat windows, the ALFWorld
      window, the think window. The error window is not imported there. */
  function ImportOrder(): seq<Registration>
  {
    [ Registration(["NullWindow"], NullWindowKind),
      Registration(["kernel", "Kernel"], KernelKind),
      Registration(["code", "Code"], CodeKind),
      Registration(["stack", "Stack"], StackKind),
      Registration(["flowStack", "stack"], FlowStackKind),
      Registration(["heap", "Heap"], HeapKind),
      Registration(["system_window"], SystemKind),
      Registration(["ChatWindow", "chatWindow"], ChatKind),
      Registration(["AsychatWindow", "AsyChatWindow"], AsyChatKind),
      Registration(["alfworld"], AlfworldKind),
      Registration(["think_window"], ThinkKind) ]
  }

  /** The registry after the decorators in `regs` ran, in order. */
  function RegisterEach(m: map<string, WindowKind>, regs: seq<Registration>): map<string, WindowKind>
    decreases |regs|
  {
    if regs == [] then m else RegisterEach(RegisterAll(m, regs[0].names, regs[0].kind), regs[1..])
  }

  /** The class of the last registration naming `n`, if any. */
  function LastKind(regs: seq<Registration>, n: string): Option<WindowKind>
    decreases |regs|
  {
    if regs == [] then None
    else match LastKind(regs[1..], n)
      case Some(k) => Some(k)
      case None => if n in regs[0].names then Some(regs[0].kind) else None
  }

  /** Registering in order: a name ends up with the class of its last
      registration, and a name never registered keeps its old entry (or
      its absence). */
  lemma {:induction false} RegisterEachLastWins(m: map<string, WindowKind>, regs: seq<Registration>, n: string)
    ensures LastKind(regs, n).Some? ==> n in RegisterEach(m, regs) && RegisterEach(m, regs)[n] == LastKind(regs, n).value
    ensures LastKind(regs, n).None? ==> (n in RegisterEach(m, regs) <==> n in m) && (n in m ==> RegisterEach(m, regs)[n] == m[n])
    decreases |regs|
  {
    if regs != [] {
      RegisterEachLastWins(RegisterAll(m, regs[0].names, regs[0].kind), regs[1..], n);
    }
  }

  /** The last registration naming `n` is the one at `i`. */
  lemma {:induction false} LastKindAt(regs: seq<Registration>, n: string, i: nat)
    requires i < |regs| && n in regs[i].names
    requires forall j :: i < j < |regs| ==> n !in regs[j].names
    ensures LastKind(regs, n) == Some(regs[i].kind)
    decreases |regs|
  {
    if i > 0 {
      forall j | i - 1 < j < |regs[1..]| ensures n !in regs[1..][j].names {
        assert regs[1..][j] == regs[j + 1];
      }
      LastKindAt(regs[1..], n, i - 1);
    } else {
      NeverNamed(regs[1..], n);
    }
  }

  /** A name no registration carries has no class. */
  lemma {:induction false} NeverNamed(regs: seq<Registration>, n: string)
    requires forall j :: 0 <= j < |regs| ==> n !in regs[j].names
    ensures LastKind(regs, n) == None
    decreases |regs|
  {
    if regs != [] {
      assert n !in regs[0].names;
      forall j | 0 <= j < |regs[1..]| ensures n !in regs[1..][j].names {
        assert regs[1..][j] == regs[j + 1];
      }
      NeverNamed(regs[1..], n);
    }
  }

  // Reading the import order, one name at a time.

  lemma StackLastRegistered()
    ensures LastKind(ImportOrder(), "stack") == Some(FlowStackKind)
  {
    LastKindAt(ImportOrder(), "stack", 4);
  }

  lemma UpperStackLastRegistered()
    ensures LastKind(ImportOrder(), "Stack") == Some(StackKind)
  {
    LastKindAt(ImportOrder(), "Stack", 3);
  }

  lemma SystemNeverRegistered()
    ensures LastKind(ImportOrder(), "system") == None
  {
    NeverNamed(ImportOrder(), "system");
  }

  lemma AsyChatPromptNeverRegistered()
    ensures LastKind(ImportOrder(), "AsyChatPromptWindow") == None
  {
    NeverNamed(ImportOrder(), "AsyChatPromptWindow");
  }

  lemma ErrorWindowNeverRegistered()
    ensures LastKind(ImportOrder(), "error_window") == None
  {
    NeverNamed(ImportOrder(), "error_window");
  }

  /** After the package import, "stack" names the flow stack (registered
      last) while "Stack" still names the plain stack; the import never
      registers the `PromptWindow` enum values "system" and
      "AsyChatPromptWindow", nor the error window, so creating those
      through the enum on a fresh registry raises ValueError. */
  lemma ImportedNames(m: map<string, WindowKind>)
    ensures FromNameIn(RegisterEach(m, ImportOrder()), "stack") == Created(FlowStackKind)
    ensures FromNameIn(RegisterEach(m, ImportOrder()), "Stack") == Created(StackKind)
    ensures m == map[] ==> FromNameIn(RegisterEach(m, ImportOrder()), "system").NotRegistered?
    ensures m == map[] ==> FromNameIn(RegisterEach(m, ImportOrder()), "AsyChatPromptWindow").NotRegistered?
    ensures m == map[] ==> FromNameIn(RegisterEach(m, ImportOrder()), "error_window").NotRegistered?
  {
    StackLastRegistered();
    RegisterEachLastWins(m, ImportOrder(), "stack");
    UpperStackLastRegistered();
    RegisterEachLastWins(m, ImportOrder(), "Stack");
    SystemNeverRegistered();
    RegisterEachLastWins(m, ImportOrder(), "system");
    AsyChatPromptNeverRegistered();
    RegisterEachLastWins(m, ImportOrder(), "AsyChatPromptWindow");
    ErrorWindowNeverRegistered();
    RegisterEachLastWins(m, ImportOrder(), "error_window");
  }
}
