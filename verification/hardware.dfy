/**
 * The hardware main board (hardware/Modules.py): a table of attached
 * modules addressed by name, a `syscall` that routes a call dict to the
 * module it names, the base module whose `handle` is abstract, and the
 * memory module, a key-value store addressed by `addr`.
 */
module Hardware {
  import opened Values

  /** What a module's `handle` gives back, or the exception it raises. */
  datatype Outcome = Returns(v: Value) | Raises(error: string)

  /** The modelled module classes: the abstract base and the memory
      module. */
  datatype Kind = BaseModule | MemoryKind

  /** The memory module's `handle` on its store: the new store and the
      outcome. `call["value"]` is evaluated before `call["addr"]`, and a
      key must be hashable. */
  function MemoryHandle(store: PyDict, call: seq<Field>): (PyDict, Outcome)
  {
    var op := GetOr(call, "op", Null);
    if op == Str("read") then
      match Lookup(call, "addr")
      case None => (store, Raises("KeyError"))
      case Some(addr) =>
        if !Hashable(addr) then (store, Raises("TypeError")) else (store, Returns(DictGet(store, addr)))
    else if op == Str("write") then
      match Lookup(call, "value")
      case None => (store, Raises("KeyError"))
      case Some(v) =>
        match Lookup(call, "addr")
        case None => (store, Raises("KeyError"))
        case Some(addr) =>
          if !Hashable(addr) then (store, Raises("TypeError"))
          else (DictPut(store, addr, v), Returns(Str("ok")))
    else (store, Returns(Str("Unknown Memory op: " + PyStr(op))))
  }

  /** A module object: its name, its class, and (for the memory module)
      its store. */
  class HwModule {
    const name: string
    const kind: Kind
    var store: PyDict

    /** `Module(name)`. */
    constructor Base(name: string)
      ensures this.name == name && kind == BaseModule && store == []
    {
      this.name := name;
      kind := BaseModule;
      store := [];
    }

    /** `MemoryModule()`. */
    constructor Memory()
      ensures name == "memory" && kind == MemoryKind && store == []
    {
      name := "memory";
      kind := MemoryKind;
      store := [];
    }

    /** `handle`: the base class raises; the memory module acts on its
        store. */
    method Handle(call: seq<Field>) returns (r: Outcome)
      modifies this
      ensures kind == BaseModule ==> r == Raises("NotImplementedError") && store == old(store)
      ensures kind == MemoryKind ==> (store, r) == MemoryHandle(old(store), call)
    {
      if kind == BaseModule {
        return Raises("NotImplementedError");
      }
      var (s, out) := MemoryHandle(store, call);
      store := s;
      r := out;
    }
  }

  /** The `syscall` reply for a module name that is not attached. */
  function NotFound(moduleName: Value): Outcome
  {
    Returns(Str("Error: module '" + PyStr(moduleName) + "' not found"))
  }

  class HardwareMainBoard {
    var modules: map<string, HwModule>

    constructor ()
      ensures modules == map[]
    {
      modules := map[];
    }

    /** `attach`: the module is stored under its own name, replacing any
        module of the same name. */
    method Attach(m: HwModule)
      modifies this
      ensures modules == old(modules)[m.name := m]
    {
      modules := modules[m.name := m];
    }

    /** `detach`: a name that is not attached changes nothing. */
    method Detach(name: string)
      modifies this
      ensures modules == old(modules) - {name}
    {
      if name in modules {
        modules := modules - {name};
      }
    }

    /** The module `call` is routed to, if any. */
    function Target(call: seq<Field>): set<HwModule>
      reads this
    {
      var n := GetOr(call, "module", Null);
      if n.Str? && n.s in modules then {modules[n.s]} else {}
    }

    /** `syscall`: a missing or unknown module name is answered without
        dispatching; otherwise the named module handles the whole call. */
    method Syscall(call: seq<Field>) returns (r: Outcome)
      modifies Target(call)
      ensures var n := GetOr(call, "module", Null);
              !Hashable(n) ==> r == Raises("TypeError")
      ensures var n := GetOr(call, "module", Null);
              Hashable(n) && !(n.Str? && n.s in modules) ==> r == NotFound(n)
      ensures var n := GetOr(call, "module", Null);
              n.Str? && n.s in modules && modules[n.s].kind == BaseModule ==>
                r == Raises("NotImplementedError")
      ensures var n := GetOr(call, "module", Null);
              n.Str? && n.s in modules && modules[n.s].kind == MemoryKind ==>
                (modules[n.s].store, r) == MemoryHandle(old(modules[n.s].store), call)
    {
      var n := GetOr(call, "module", Null);
      if !Hashable(n) {
        return Raises("TypeError");
      }
      if !(n.Str? && n.s in modules) {
        return NotFound(n);
      }
      r := modules[n.s].Handle(call);
    }
  }

  // ---------------------------------------------------------------------
  // Properties

  function ReadCall(addr: Value): seq<Field>
  {
    [Field("op", Str("read")), Field("addr", addr)]
  }

  function WriteCall(addr: Value, v: Value): seq<Field>
  {
    [Field("op", Str("write")), Field("addr", addr), Field("value", v)]
  }

  /** A write then a read of the same address (or an equal key, such as
      `1` and `True`) returns the written value; other addresses read as
      before. */
  lemma WriteThenRead(store: PyDict, addr: Value, v: Value, addr2: Value)
    requires Hashable(addr) && Hashable(addr2)
    ensures var (s, w) := MemoryHandle(store, WriteCall(addr, v));
            w == Returns(Str("ok")) &&
            MemoryHandle(s, ReadCall(addr2)) ==
              (s, Returns(if KeyEq(addr, addr2) then v else DictGet(store, addr2)))
  {
    var w := WriteCall(addr, v);
    assert Lookup(w, "op") == Some(Str("write"));
    assert Lookup(w[2..], "value") == Some(v);
    assert Lookup(w[1..], "value") == Some(v);
    assert Lookup(w, "value") == Some(v) && Lookup(w, "addr") == Some(addr);
    var s := MemoryHandle(store, w).0;
    assert s == DictPut(store, addr, v);
    var rc := ReadCall(addr2);
    assert Lookup(rc, "op") == Some(Str("read")) && Lookup(rc, "addr") == Some(addr2);
    DictPutGet(store, addr, v, addr2);
  }

  /** Reading an address that was never written gives `None`. */
  lemma UnwrittenReadsNone(store: PyDict, addr: Value)
    requires Hashable(addr) && !DictHas(store, addr)
    ensures MemoryHandle(store, ReadCall(addr)) == (store, Returns(Null))
  {
    var rc := ReadCall(addr);
    assert Lookup(rc, "op") == Some(Str("read")) && Lookup(rc, "addr") == Some(addr);
  }

  /** An operation other than read and write is answered with its name
      and leaves the store unchanged. */
  lemma UnknownOpUnchanged(store: PyDict, call: seq<Field>)
    requires GetOr(call, "op", Null) != Str("read") && GetOr(call, "op", Null) != Str("write")
    ensures MemoryHandle(store, call) ==
              (store, Returns(Str("Unknown Memory op: " + PyStr(GetOr(call, "op", Null)))))
    ensures Lookup(call, "op").None? ==> MemoryHandle(store, call).1 == Returns(Str("Unknown Memory op: None"))
  {
    if Lookup(call, "op").None? {
      assert GetOr(call, "op", Null) == Null;
      assert PyStr(Null) == "None";
      assert "Unknown Memory op: " + "None" == "Unknown Memory op: None";
    }
  }

  /** Writes keep the store a valid dict: hashable keys, no two equal. */
  lemma HandleKeepsStoreValid(store: PyDict, call: seq<Field>)
    requires DictValid(store)
    ensures DictValid(MemoryHandle(store, call).0)
  {
    var op := GetOr(call, "op", Null);
    if op == Str("write") && Lookup(call, "value").Some? && Lookup(call, "addr").Some? &&
       Hashable(Lookup(call, "addr").value) {
      DictPutValid(store, Lookup(call, "addr").value, Lookup(call, "value").value);
    }
  }
}
