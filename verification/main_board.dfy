/**
 * The prompt main board (Prompts/PromptMainBoard.py, class
 * PromptMainBoard): the object that holds the registered windows, the
 * system window and the merged handler table, dispatches parsed calls and
 * assembles the prompt.
 *
 * The board keeps references to window objects, not copies: what a window
 * renders is read when the prompt is assembled. Windows are therefore
 * identities here, and what a window exports, renders or snapshots is a
 * parameter read at the moment the board asks for it.
 */
module MainBoard {
  import opened Values
  import opened BaseWindow

  /** The identity of a window object. */
  type WindowId = nat
  /** The identity of a bound handler method. */
  type Endpoint = nat

  /** The first argument of `register_windows`: a list (possibly empty), a
      single window (any non-iterable object), or `None`. */
  datatype Registering = Many(items: seq<WindowId>) | One(item: WindowId) | NoWindows

  /** What a window's `forward()` gives: text, `None` (the streaming chat
      window), or an exception. */
  datatype Rendered = Text(s: string) | Nothing | Fails(error: string)

  datatype Board = Board(windows: seq<WindowId>, system: Option<WindowId>, handlers: map<string, Endpoint>)

  /** The result of `assemble_prompt`: the two prompt parts (a system
      window whose forward returns `None` puts `None` in the dict), or the
      exception it raises. */
  datatype Assembled = Prompt(system: Option<string>, user: string) | AssemblyFails(error: string)

  /** The outcome of `handle_call`: either a reply with no handler invoked,
      or the endpoint invoked with the keyword arguments, followed by the
      exception the automatic recording raises afterwards, if any. */
  datatype Dispatch =
    | Rejected(reply: Reply)
    | Invoked(endpoint: Endpoint, kwargs: seq<Field>, after: Option<string>)

  function EmptyBoard(): Board
  {
    Board([], None, map[])
  }

  // ---------------------------------------------------------------------
  // Registration

  /** The windows `register_windows` iterates over; empty when the
      argument is falsy. */
  function Items(ws: Registering): seq<WindowId>
  {
    match ws
    case Many(items) => items
    case One(w) => [w]
    case NoWindows => []
  }

  /** The handler tables of `ws` merged with `dict.update`, later windows
      winning. */
  function Exported(ws: seq<WindowId>, exports: WindowId -> map<string, Endpoint>): map<string, Endpoint>
    decreases |ws|
  {
    if ws == [] then map[] else Exported(ws[..|ws| - 1], exports) + exports(ws[|ws| - 1])
  }

  /** `register_system_window`. */
  function RegisterSystem(b: Board, w: WindowId, exports: WindowId -> map<string, Endpoint>): Board
  {
    b.(system := Some(w), handlers := b.handlers + exports(w))
  }

  /** `register_windows`: a falsy first argument registers nothing at all,
      not even the system window. */
  function Register(b: Board, ws: Registering, system: Option<WindowId>,
                    exports: WindowId -> map<string, Endpoint>): Board
  {
    var items := Items(ws);
    if items == [] then b
    else
      var added := b.(windows := b.windows + items, handlers := b.handlers + Exported(items, exports));
      if system.Some? then RegisterSystem(added, system.value, exports) else added
  }

  /** One more window's table merged onto a partial merge. */
  lemma ExportedStep(start: map<string, Endpoint>, items: seq<WindowId>, i: nat,
                     exports: WindowId -> map<string, Endpoint>)
    requires i < |items|
    ensures start + Exported(items[..i + 1], exports) ==
            (start + Exported(items[..i], exports)) + exports(items[i])
  {
    assert items[..i + 1][..i] == items[..i];
    var m := Exported(items[..i], exports);
    var e := exports(items[i]);
    assert start + (m + e) == (start + m) + e;
  }

  // ---------------------------------------------------------------------
  // Dispatch

  /** The exception `record_execution` raises after the handler has run:
      a keyword argument that collides with one of its own parameters, or
      a registered flow-stack window, which has no `record_event`. */
  function RecordFailure(b: Board, kwargs: seq<Field>, isFlowStack: WindowId -> bool): (r: Option<string>)
    ensures r == Some("TypeError") <==>
              "func_name" in Keys(kwargs) || "result" in Keys(kwargs) || "reasoning" in Keys(kwargs) ||
              "event_type" in Keys(kwargs)
    ensures r.None? <==> (forall k :: k in Keys(kwargs) ==> k !in ["func_name", "result", "reasoning", "event_type"]) &&
                         (forall i :: 0 <= i < |b.windows| ==> !isFlowStack(b.windows[i]))
  {
    var keys := Keys(kwargs);
    if "func_name" in keys || "result" in keys || "reasoning" in keys || "event_type" in keys then
      Some("TypeError")
    else if exists i :: 0 <= i < |b.windows| && isFlowStack(b.windows[i]) then Some("AttributeError")
    else None
  }

  /** `handle_call`. */
  function HandleCall(b: Board, call: seq<Field>, autoRecord: bool, isFlowStack: WindowId -> bool): (r: Dispatch)
    ensures r.Invoked? <==>
              Lookup(call, "call_type").Some? && Lookup(call, "kwargs").Some? && Lookup(call, "kwargs").value.Obj? &&
              Lookup(call, "func_name").Some? && Lookup(call, "func_name").value.Str? &&
              Lookup(call, "func_name").value.s in b.handlers
    ensures r.Invoked? ==> r.endpoint == b.handlers[Lookup(call, "func_name").value.s] &&
                           r.kwargs == Lookup(call, "kwargs").value.fields &&
                           r.after == (if autoRecord then RecordFailure(b, r.kwargs, isFlowStack) else None)
  {
    var f := Lookup(call, "func_name");
    var t := Lookup(call, "call_type");
    var kw := Lookup(call, "kwargs");
    if f.None? || t.None? || kw.None? then Rejected(Raised("KeyError"))
    else if !Hashable(f.value) then Rejected(Raised("TypeError"))
    else if !(f.value.Str? && f.value.s in b.handlers) then
      Rejected(ErrorReply("handler not found: " + PyStr(f.value)))
    else if !kw.value.Obj? then Rejected(Raised("TypeError"))
    else
      Invoked(b.handlers[f.value.s], kw.value.fields,
              if autoRecord then RecordFailure(b, kw.value.fields, isFlowStack) else None)
  }

  // ---------------------------------------------------------------------
  // Prompt assembly

  /** What `"\n".join(m.forward() for m in windows)` has seen after the
      generator ran: the first exception, whether some window gave `None`,
      and the texts in order. */
  datatype Gather = Gather(failure: Option<string>, silent: bool, parts: seq<string>)

  function Gathered(ws: seq<WindowId>, render: WindowId -> Rendered): Gather
    decreases |ws|
  {
    if ws == [] then Gather(None, false, [])
    else
      var g := Gathered(ws[..|ws| - 1], render);
      match render(ws[|ws| - 1])
      case Text(s) => g.(parts := g.parts + [s])
      case Nothing => g.(silent := true)
      case Fails(e) => if g.failure.None? then g.(failure := Some(e)) else g
  }

  /** `assemble_prompt`: the system window's forward first, then the
      windows'; `str.join` refuses a `None` part. */
  function Assemble(b: Board, render: WindowId -> Rendered): Assembled
  {
    if b.system.None? then AssemblyFails("AttributeError")
    else
      var sys := render(b.system.value);
      if sys.Fails? then AssemblyFails(sys.error)
      else
        var g := Gathered(b.windows, render);
        if g.failure.Some? then AssemblyFails(g.failure.value)
        else if g.silent then AssemblyFails("TypeError")
        else Prompt(if sys.Text? then Some(sys.s) else None, Join(g.parts, "\n"))
  }

  // ---------------------------------------------------------------------
  // Snapshot

  /** `base` updated with each window's divided snapshot in turn. */
  function SnapshotFrom(base: seq<Field>, ws: seq<WindowId>, snap: WindowId -> seq<Field>): seq<Field>
    decreases |ws|
  {
    if ws == [] then base else Spread(SnapshotFrom(base, ws[..|ws| - 1], snap), snap(ws[|ws| - 1]))
  }

  /** `get_divided_snapshot`: `None` where it raises AttributeError because
      no system window is registered. */
  function DividedSnapshot(b: Board, snap: WindowId -> seq<Field>): Option<seq<Field>>
  {
    if b.system.None? then None
    else Some(SnapshotFrom(Spread([], snap(b.system.value)), b.windows, snap))
  }

  // ---------------------------------------------------------------------
  // The board object

  class PromptMainBoard {
    var windows: seq<WindowId>
    var system: Option<WindowId>
    var handlers: map<string, Endpoint>

    function State(): Board
      reads this
    {
      Board(windows, system, handlers)
    }

    constructor ()
      ensures State() == EmptyBoard()
    {
      windows := [];
      system := None;
      handlers := map[];
    }

    method RegisterWindows(ws: Registering, systemWindow: Option<WindowId>,
                           exports: WindowId -> map<string, Endpoint>)
      modifies this
      ensures State() == Register(old(State()), ws, systemWindow, exports)
    {
      var items := Items(ws);
      if items == [] {
        return;
      }
      ghost var start := handlers;
      for i := 0 to |items|
        invariant windows == old(windows) + items[..i]
        invariant handlers == start + Exported(items[..i], exports)
        invariant system == old(system)
      {
        ExportedStep(start, items, i, exports);
        windows := windows + [items[i]];
        handlers := handlers + exports(items[i]);
      }
      assert items[..|items|] == items;
      if systemWindow.Some? {
        RegisterSystemWindow(systemWindow.value, exports);
      }
    }

    method RegisterSystemWindow(w: WindowId, exports: WindowId -> map<string, Endpoint>)
      modifies this
      ensures State() == RegisterSystem(old(State()), w, exports)
    {
      system := Some(w);
      handlers := handlers + exports(w);
    }

    function Handle(call: seq<Field>, autoRecord: bool, isFlowStack: WindowId -> bool): Dispatch
      reads this
    {
      HandleCall(State(), call, autoRecord, isFlowStack)
    }

    method AssemblePrompt(render: WindowId -> Rendered) returns (r: Assembled)
      ensures r == Assemble(State(), render)
    {
      if system.None? {
        return AssemblyFails("AttributeError");
      }
      var sys := render(system.value);
      if sys.Fails? {
        return AssemblyFails(sys.error);
      }
      var failure: Option<string> := None;
      var silent := false;
      var parts: seq<string> := [];
      for i := 0 to |windows|
        invariant Gathered(windows[..i], render) == Gather(failure, silent, parts)
      {
        assert windows[..i + 1][..i] == windows[..i];
        match render(windows[i])
        case Text(s) => parts := parts + [s];
        case Nothing => silent := true;
        case Fails(e) => if failure.None? { failure := Some(e); }
      }
      assert windows[..|windows|] == windows;
      if failure.Some? {
        return AssemblyFails(failure.value);
      }
      if silent {
        return AssemblyFails("TypeError");
      }
      r := Prompt(if sys.Text? then Some(sys.s) else None, Join(parts, "\n"));
    }

    method GetDividedSnapshot(snap: WindowId -> seq<Field>) returns (r: Option<seq<Field>>)
      ensures r == DividedSnapshot(State(), snap)
    {
      if system.None? {
        return None;
      }
      var merged := Spread([], snap(system.value));
      for i := 0 to |windows|
        invariant merged == SnapshotFrom(Spread([], snap(system.value)), windows[..i], snap)
      {
        assert windows[..i + 1][..i] == windows[..i];
        merged := Spread(merged, snap(windows[i]));
      }
      assert windows[..|windows|] == windows;
      r := Some(merged);
    }
  }

  // ---------------------------------------------------------------------
  // Properties

  /** No window of `ws` after position `i` exports `h`. */
  ghost predicate LastExporter(ws: seq<WindowId>, exports: WindowId -> map<string, Endpoint>, i: int, h: string)
  {
    0 <= i < |ws| && h in exports(ws[i]) && forall j :: i < j < |ws| ==> h !in exports(ws[j])
  }

  /** A handler name is in the merged table exactly when some window
      exports it, and it is bound to the endpoint of the last such window. */
  lemma {:induction false} ExportedLastWins(ws: seq<WindowId>, exports: WindowId -> map<string, Endpoint>, h: string)
    ensures h in Exported(ws, exports) <==> exists i :: 0 <= i < |ws| && h in exports(ws[i])
    ensures forall i :: LastExporter(ws, exports, i, h) ==> Exported(ws, exports)[h] == exports(ws[i])[h]
    decreases |ws|
  {
    if ws != [] {
      var init := ws[..|ws| - 1];
      ExportedLastWins(init, exports, h);
      assert forall i :: 0 <= i < |init| ==> init[i] == ws[i];
      forall i | LastExporter(ws, exports, i, h)
        ensures Exported(ws, exports)[h] == exports(ws[i])[h]
      {
        if i < |init| {
          assert LastExporter(init, exports, i, h);
        }
      }
    }
  }

  /** A falsy first argument (an empty list or `None`) changes nothing,
      even when a system window is passed. */
  lemma EmptyRegistersNothing(b: Board, system: Option<WindowId>, exports: WindowId -> map<string, Endpoint>)
    ensures Register(b, Many([]), system, exports) == b
    ensures Register(b, NoWindows, system, exports) == b
  {
  }

  /** Registering a non-empty list appends its windows in order, installs
      the system window, and leaves each handler name bound to the system
      window's endpoint if it exports it, else to the last listed window
      exporting it, else to its earlier binding. */
  lemma RegisterLaterWins(b: Board, items: seq<WindowId>, w: WindowId,
                          exports: WindowId -> map<string, Endpoint>, h: string)
    requires items != []
    ensures var r := Register(b, Many(items), Some(w), exports);
            r.windows == b.windows + items && r.system == Some(w) &&
            (h in r.handlers <==> h in exports(w) || h in b.handlers ||
                                  exists i :: 0 <= i < |items| && h in exports(items[i]))
    ensures var r := Register(b, Many(items), Some(w), exports);
            h in exports(w) ==> r.handlers[h] == exports(w)[h]
    ensures var r := Register(b, Many(items), Some(w), exports);
            forall i :: h !in exports(w) && LastExporter(items, exports, i, h) ==>
              r.handlers[h] == exports(items[i])[h]
    ensures var r := Register(b, Many(items), Some(w), exports);
            h !in exports(w) && h in b.handlers &&
            (forall i :: 0 <= i < |items| ==> h !in exports(items[i])) ==>
              r.handlers[h] == b.handlers[h]
  {
    ExportedLastWins(items, exports, h);
  }

  /** A single window is registered like a one-element list. */
  lemma SingleWindowWrapped(b: Board, w: WindowId, system: Option<WindowId>,
                            exports: WindowId -> map<string, Endpoint>)
    ensures Register(b, One(w), system, exports) == Register(b, Many([w]), system, exports)
    ensures Register(b, One(w), system, exports).windows == b.windows + [w]
  {
  }

  /** An unknown handler name gets the error reply and invokes nothing. */
  lemma UnknownHandlerNotInvoked(b: Board, call: seq<Field>, autoRecord: bool,
                                 isFlowStack: WindowId -> bool, name: string)
    requires Lookup(call, "func_name") == Some(Str(name)) && name !in b.handlers
    requires Lookup(call, "call_type").Some? && Lookup(call, "kwargs").Some?
    ensures HandleCall(b, call, autoRecord, isFlowStack) ==
              Rejected(StatusReply("error", [Field("reason", Str("handler not found: " + name))]))
  {
  }

  /** A call missing any of func_name, call_type or kwargs raises KeyError
      before anything is looked up. */
  lemma MissingKeyRaises(b: Board, call: seq<Field>, autoRecord: bool, isFlowStack: WindowId -> bool)
    requires "func_name" !in Keys(call) || "call_type" !in Keys(call) || "kwargs" !in Keys(call)
    ensures HandleCall(b, call, autoRecord, isFlowStack) == Rejected(Raised("KeyError"))
  {
  }

  /** A known handler is invoked with the call's keyword arguments on the
      endpoint the table binds it to; without automatic recording its
      result is the reply. */
  lemma KnownHandlerInvoked(b: Board, call: seq<Field>, isFlowStack: WindowId -> bool,
                            name: string, kwargs: seq<Field>)
    requires Lookup(call, "func_name") == Some(Str(name)) && name in b.handlers
    requires Lookup(call, "call_type").Some? && Lookup(call, "kwargs") == Some(Obj(kwargs))
    ensures HandleCall(b, call, false, isFlowStack) == Invoked(b.handlers[name], kwargs, None)
    ensures HandleCall(b, call, true, isFlowStack).Invoked? &&
            HandleCall(b, call, true, isFlowStack).endpoint == b.handlers[name]
  {
  }

  /** With automatic recording, any registered flow-stack window makes the
      call raise AttributeError after its handler has run. */
  lemma FlowStackBreaksRecording(b: Board, call: seq<Field>, isFlowStack: WindowId -> bool,
                                 name: string, kwargs: seq<Field>, i: nat)
    requires Lookup(call, "func_name") == Some(Str(name)) && name in b.handlers
    requires Lookup(call, "call_type").Some? && Lookup(call, "kwargs") == Some(Obj(kwargs))
    requires forall k :: k in Keys(kwargs) ==> k !in ["func_name", "result", "reasoning", "event_type"]
    requires i < |b.windows| && isFlowStack(b.windows[i])
    ensures HandleCall(b, call, true, isFlowStack) == Invoked(b.handlers[name], kwargs, Some("AttributeError"))
  {
  }

  /** The first exception among the windows' forwards is the one seen; a
      `None` forward is noticed; with neither, the parts are the windows'
      texts in order. */
  lemma {:induction false} GatheredInOrder(ws: seq<WindowId>, render: WindowId -> Rendered)
    ensures var g := Gathered(ws, render);
            g.silent <==> exists i :: 0 <= i < |ws| && render(ws[i]).Nothing?
    ensures var g := Gathered(ws, render);
            g.failure.Some? <==> exists i :: 0 <= i < |ws| && render(ws[i]).Fails?
    ensures var g := Gathered(ws, render);
            forall i :: 0 <= i < |ws| && render(ws[i]).Fails? &&
                        (forall j :: 0 <= j < i ==> !render(ws[j]).Fails?) ==>
              g.failure == Some(render(ws[i]).error)
    ensures var g := Gathered(ws, render);
            (forall i :: 0 <= i < |ws| ==> render(ws[i]).Text?) ==>
              |g.parts| == |ws| && forall i :: 0 <= i < |ws| ==> g.parts[i] == render(ws[i]).s
    decreases |ws|
  {
    if ws != [] {
      var init := ws[..|ws| - 1];
      GatheredInOrder(init, render);
      assert forall i :: 0 <= i < |init| ==> init[i] == ws[i];
    }
  }

  /** With a system window and every window rendering text, the prompt is
      the system window's text and the windows' texts joined by newlines,
      in registration order. */
  lemma AssembleJoins(b: Board, render: WindowId -> Rendered, systemText: string)
    requires b.system.Some? && render(b.system.value) == Text(systemText)
    requires forall i :: 0 <= i < |b.windows| ==> render(b.windows[i]).Text?
    ensures var texts := seq(|b.windows|, i requires 0 <= i < |b.windows| => render(b.windows[i]).s);
            Assemble(b, render) == Prompt(Some(systemText), Join(texts, "\n"))
  {
    GatheredInOrder(b.windows, render);
    var texts := seq(|b.windows|, i requires 0 <= i < |b.windows| => render(b.windows[i]).s);
    assert Gathered(b.windows, render).parts == texts;
  }

  /** The prompt cannot be assembled without a system window, nor when a
      registered window (such as the streaming chat window) forwards
      `None` and none raises. */
  lemma AssembleFailures(b: Board, render: WindowId -> Rendered, i: nat)
    ensures b.system.None? ==> Assemble(b, render) == AssemblyFails("AttributeError")
    ensures b.system.Some? && !render(b.system.value).Fails? &&
            i < |b.windows| && render(b.windows[i]).Nothing? &&
            (forall j :: 0 <= j < |b.windows| ==> !render(b.windows[j]).Fails?) ==>
              Assemble(b, render) == AssemblyFails("TypeError")
  {
    GatheredInOrder(b.windows, render);
  }

  /** No window of `ws` after position `i` has `k` in its snapshot. */
  ghost predicate LastHolder(ws: seq<WindowId>, snap: WindowId -> seq<Field>, i: int, k: string)
  {
    0 <= i < |ws| && k in Keys(snap(ws[i])) && forall j :: i < j < |ws| ==> k !in Keys(snap(ws[j]))
  }

  /** Each key of the merged snapshot holds the value from the last window
      whose snapshot has it, and keys no window has keep the base's. */
  lemma SnapshotLaterWins(base: seq<Field>, ws: seq<WindowId>, snap: WindowId -> seq<Field>, k: string)
    requires forall w :: UniqueKeys(snap(w))
    ensures forall i :: LastHolder(ws, snap, i, k) ==>
              Lookup(SnapshotFrom(base, ws, snap), k) == Lookup(snap(ws[i]), k)
    ensures (forall i :: 0 <= i < |ws| ==> k !in Keys(snap(ws[i]))) ==>
              Lookup(SnapshotFrom(base, ws, snap), k) == Lookup(base, k)
  {
    forall i | LastHolder(ws, snap, i, k)
      ensures Lookup(SnapshotFrom(base, ws, snap), k) == Lookup(snap(ws[i]), k)
    {
      LastHolderWins(base, ws, snap, k, i);
    }
    if forall i :: 0 <= i < |ws| ==> k !in Keys(snap(ws[i])) {
      NoHolderKeepsBase(base, ws, snap, k);
    }
  }

  lemma {:induction false} LastHolderWins(base: seq<Field>, ws: seq<WindowId>, snap: WindowId -> seq<Field>,
                                          k: string, i: int)
    requires forall w :: UniqueKeys(snap(w))
    requires LastHolder(ws, snap, i, k)
    ensures Lookup(SnapshotFrom(base, ws, snap), k) == Lookup(snap(ws[i]), k)
    decreases |ws|
  {
    var init := ws[..|ws| - 1];
    var last := ws[|ws| - 1];
    SpreadLookup(SnapshotFrom(base, init, snap), snap(last), k);
    if i < |ws| - 1 {
      assert k !in Keys(snap(last));
      assert init[i] == ws[i];
      forall j | i < j < |init| ensures k !in Keys(snap(init[j])) {
        assert init[j] == ws[j];
      }
      LastHolderWins(base, init, snap, k, i);
    }
  }

  lemma {:induction false} NoHolderKeepsBase(base: seq<Field>, ws: seq<WindowId>, snap: WindowId -> seq<Field>, k: string)
    requires forall w :: UniqueKeys(snap(w))
    requires forall i :: 0 <= i < |ws| ==> k !in Keys(snap(ws[i]))
    ensures Lookup(SnapshotFrom(base, ws, snap), k) == Lookup(base, k)
    decreases |ws|
  {
    if ws != [] {
      var init := ws[..|ws| - 1];
      forall i | 0 <= i < |init| ensures k !in Keys(snap(init[i])) {
        assert init[i] == ws[i];
      }
      NoHolderKeepsBase(base, init, snap, k);
      SpreadLookup(SnapshotFrom(base, init, snap), snap(ws[|ws| - 1]), k);
    }
  }

  /** The system window's snapshot comes first, so any window that reports
      the same key overrides it. */
  lemma SystemSnapshotOverridden(b: Board, snap: WindowId -> seq<Field>, k: string, i: nat)
    requires forall w :: UniqueKeys(snap(w))
    requires b.system.Some? && LastHolder(b.windows, snap, i, k)
    ensures DividedSnapshot(b, snap).Some?
    ensures Lookup(DividedSnapshot(b, snap).value, k) == Lookup(snap(b.windows[i]), k)
  {
    SnapshotLaterWins(Spread([], snap(b.system.value)), b.windows, snap, k);
  }

  /** Without a system window the snapshot raises. */
  lemma SnapshotNeedsSystem(b: Board, snap: WindowId -> seq<Field>)
    requires b.system.None?
    ensures DividedSnapshot(b, snap).None?
  {
  }
}
