/**
 * The heap prompt window (Windows/heap_window/heap_window.py) and the older
 * heap prompt module (Modules/heap_module.py): one global Python dict that
 * the model edits through `heap_set`, `heap_get` and `heap_delete`, and
 * that the prompt shows as indented JSON. Both classes share the handler
 * code; they differ only in how they render themselves. The description
 * text read from disk is a constructor parameter.
 */
module Heap {
  import opened Values
  import opened BaseWindow

  /** The names under which the handlers are exported. */
  function HeapHandlers(): set<string>
  {
    {"heap_set", "heap_get", "heap_delete"}
  }

  function KeyArg(kwargs: seq<Field>): Value
  {
    GetOr(kwargs, "key", Null)
  }

  function ValueArg(kwargs: seq<Field>): Value
  {
    GetOr(kwargs, "value", Null)
  }

  // ---------------------------------------------------------------------
  // The handlers, as functions of the dict

  /** `_heap_set`: a missing (or null) key or value is refused; an
      unhashable key raises when it is stored. */
  function HeapSet(d: PyDict, kwargs: seq<Field>): Handled<PyDict>
  {
    var key := KeyArg(kwargs);
    var value := ValueArg(kwargs);
    if IsNone(key) || IsNone(value) then Handled(d, ErrorReply("key or value missing"))
    else if !Hashable(key) then Handled(d, Raised("TypeError"))
    else Handled(DictPut(d, key, value), StatusReply("ok", [Field("key", key), Field("value", value)]))
  }

  /** `_heap_get`: `None` for a key that is not stored. */
  function HeapGet(d: PyDict, kwargs: seq<Field>): Handled<PyDict>
  {
    var key := KeyArg(kwargs);
    if IsNone(key) then Handled(d, ErrorReply("key missing"))
    else if !Hashable(key) then Handled(d, Raised("TypeError"))
    else Handled(d, StatusReply("ok", [Field("key", key), Field("value", DictGet(d, key))]))
  }

  /** `_heap_delete`: deleting a key that is not stored is an error. */
  function HeapDelete(d: PyDict, kwargs: seq<Field>): Handled<PyDict>
  {
    var key := KeyArg(kwargs);
    if IsNone(key) then Handled(d, ErrorReply("key missing"))
    else if !Hashable(key) then Handled(d, Raised("TypeError"))
    else if DictHas(d, key) then Handled(DictDelete(d, key), StatusReply("ok", [Field("key", key)]))
    else Handled(d, ErrorReply("key '" + PyStr(key) + "' not found"))
  }

  // ---------------------------------------------------------------------
  // Rendering

  /** The window's state section. The "HEAP Empty" branch is written for
      an empty serialisation, which `json.dumps` never produces. */
  function WindowState(d: PyDict): string
  {
    var text := DictDumps(d);
    if text != "" then "### HEAP DATA ###\n" + text + "\n" else "### HEAP Empty ###\n"
  }

  /** The module's `forward`: an empty dict shows no JSON at all. */
  function ModuleForward(description: string, d: PyDict): string
  {
    if d == [] then "\n" + description + "\n### HEAP DATA ###\n"
    else "\n" + description + "\n### HEAP DATA ###\n" + DictDumps(d) + "\n"
  }

  // ---------------------------------------------------------------------
  // The window object

  class HeapWindow {
    const name: string
    const description: string
    var data: PyDict

    /** Python's `dict` invariant holds for the store. */
    predicate Valid()
      reads this
    {
      DictValid(data)
    }

    /** `HeapPromptWindow(window_name)` (the default name is "Heap"). */
    constructor (windowName: Option<string>, description: string)
      ensures name == WindowName(windowName) && this.description == description
      ensures data == [] && Valid()
    {
      name := WindowName(windowName);
      this.description := description;
      data := [];
    }

    method Set(kwargs: seq<Field>) returns (reply: Reply)
      requires Valid()
      modifies this
      ensures Valid()
      ensures Handled(data, reply) == HeapSet(old(data), kwargs)
    {
      var key := KeyArg(kwargs);
      var value := ValueArg(kwargs);
      if IsNone(key) || IsNone(value) {
        return ErrorReply("key or value missing");
      }
      if !Hashable(key) {
        return Raised("TypeError");
      }
      DictPutValid(data, key, value);
      data := DictPut(data, key, value);
      reply := StatusReply("ok", [Field("key", key), Field("value", value)]);
    }

    method Get(kwargs: seq<Field>) returns (reply: Reply)
      ensures Handled(data, reply) == HeapGet(data, kwargs)
    {
      var key := KeyArg(kwargs);
      if IsNone(key) {
        return ErrorReply("key missing");
      }
      if !Hashable(key) {
        return Raised("TypeError");
      }
      reply := StatusReply("ok", [Field("key", key), Field("value", DictGet(data, key))]);
    }

    method Delete(kwargs: seq<Field>) returns (reply: Reply)
      requires Valid()
      modifies this
      ensures Valid()
      ensures Handled(data, reply) == HeapDelete(old(data), kwargs)
    {
      var key := KeyArg(kwargs);
      if IsNone(key) {
        return ErrorReply("key missing");
      }
      if !Hashable(key) {
        return Raised("TypeError");
      }
      if DictHas(data, key) {
        DictDeleteShape(data, key);
        data := DictDelete(data, key);
        reply := StatusReply("ok", [Field("key", key)]);
      } else {
        reply := ErrorReply("key '" + PyStr(key) + "' not found");
      }
    }

    /** `forward()`: the inherited layout around the description and the
        JSON dump. */
    function Forward(): string
      reads this
    {
      DefaultForward(name, description + "\n", WindowState(data))
    }

    function DividedSnapshot(): seq<Field>
      reads this
    {
      Divided(name, Str(description + "\n"), Str(WindowState(data)))
    }
  }

  // ---------------------------------------------------------------------
  // Properties

  /** A set with a key and a value that are present and hashable succeeds:
      afterwards the key reads back as the value and every other key reads
      as before, and the dict stays a valid Python dict. Otherwise nothing
      changes. */
  lemma SetStores(d: PyDict, kwargs: seq<Field>, k: Value)
    requires DictValid(d)
    ensures IsNone(KeyArg(kwargs)) || IsNone(ValueArg(kwargs)) ==>
              HeapSet(d, kwargs) == Handled(d, ErrorReply("key or value missing"))
    ensures !IsNone(KeyArg(kwargs)) && !IsNone(ValueArg(kwargs)) && !Hashable(KeyArg(kwargs)) ==>
              HeapSet(d, kwargs) == Handled(d, Raised("TypeError"))
    ensures !IsNone(KeyArg(kwargs)) && !IsNone(ValueArg(kwargs)) && Hashable(KeyArg(kwargs)) ==>
              var r := HeapSet(d, kwargs);
              DictValid(r.state) &&
              r.reply.Returned? && JsGet(r.reply.v, "status") == Str("ok") &&
              DictGet(r.state, k) == (if KeyEq(KeyArg(kwargs), k) then ValueArg(kwargs) else DictGet(d, k)) &&
              (DictHas(r.state, k) <==> KeyEq(KeyArg(kwargs), k) || DictHas(d, k))
  {
    var key := KeyArg(kwargs);
    var value := ValueArg(kwargs);
    if !IsNone(key) && !IsNone(value) && Hashable(key) {
      DictPutValid(d, key, value);
      DictPutGet(d, key, value, k);
      LookupAt([Field("status", Str("ok")), Field("key", key), Field("value", value)], 0, "status");
    }
  }

  /** A get never changes the dict, and reports the stored value (or
      `None`) for a present hashable key. */
  lemma GetReads(d: PyDict, kwargs: seq<Field>)
    ensures HeapGet(d, kwargs).state == d
    ensures !IsNone(KeyArg(kwargs)) && Hashable(KeyArg(kwargs)) ==>
              JsGet(HeapGet(d, kwargs).reply.v, "value") == DictGet(d, KeyArg(kwargs))
    ensures IsNone(KeyArg(kwargs)) ==> HeapGet(d, kwargs).reply == ErrorReply("key missing")
  {
    var key := KeyArg(kwargs);
    if !IsNone(key) && Hashable(key) {
      LookupAt([Field("status", Str("ok")), Field("key", key), Field("value", DictGet(d, key))], 2, "value");
    }
  }

  /** A value stored under a key is what a later get of an equal key
      returns. */
  lemma SetThenGet(d: PyDict, key: Value, value: Value, key2: Value)
    requires DictValid(d)
    requires Hashable(key) && !IsNone(key) && !IsNone(value) && KeyEq(key, key2)
    ensures var stored := HeapSet(d, [Field("key", key), Field("value", value)]).state;
            JsGet(HeapGet(stored, [Field("key", key2)]).reply.v, "value") == value
  {
    var kw := [Field("key", key), Field("value", value)];
    LookupAt(kw, 0, "key");
    LookupAt(kw, 1, "value");
    LookupAt([Field("key", key2)], 0, "key");
    SetStores(d, kw, key2);
    KeyEqEquivalence(key, key2, key2);
    GetReads(HeapSet(d, kw).state, [Field("key", key2)]);
  }

  /** Deleting a stored key removes exactly that key and keeps the dict
      valid; deleting a key that is not stored is reported and changes
      nothing. */
  lemma DeleteRemoves(d: PyDict, kwargs: seq<Field>, k: Value)
    requires DictValid(d)
    ensures IsNone(KeyArg(kwargs)) ==> HeapDelete(d, kwargs) == Handled(d, ErrorReply("key missing"))
    ensures !IsNone(KeyArg(kwargs)) && Hashable(KeyArg(kwargs)) && !DictHas(d, KeyArg(kwargs)) ==>
              HeapDelete(d, kwargs) == Handled(d, ErrorReply("key '" + PyStr(KeyArg(kwargs)) + "' not found"))
    ensures !IsNone(KeyArg(kwargs)) && Hashable(KeyArg(kwargs)) && DictHas(d, KeyArg(kwargs)) ==>
              var r := HeapDelete(d, kwargs);
              DictValid(r.state) && |r.state| == |d| - 1 &&
              DictGet(r.state, k) == (if KeyEq(KeyArg(kwargs), k) then Null else DictGet(d, k)) &&
              (DictHas(r.state, k) <==> !KeyEq(KeyArg(kwargs), k) && DictHas(d, k))
  {
    var key := KeyArg(kwargs);
    if !IsNone(key) && Hashable(key) && DictHas(d, key) {
      DictDeleteGet(d, key, k);
    }
  }

  /** After a successful delete, a get of the same key answers `None`. */
  lemma DeleteThenGet(d: PyDict, key: Value)
    requires DictValid(d) && Hashable(key) && !IsNone(key) && DictHas(d, key)
    ensures var rest := HeapDelete(d, [Field("key", key)]).state;
            JsGet(HeapGet(rest, [Field("key", key)]).reply.v, "value") == Null
  {
    var kw := [Field("key", key)];
    LookupAt(kw, 0, "key");
    DeleteRemoves(d, kw, key);
    KeyEqEquivalence(key, key, key);
    GetReads(HeapDelete(d, kw).state, kw);
  }

  /** The window's state always shows the JSON dump: the "HEAP Empty"
      text is unreachable. */
  lemma WindowStateAlwaysData(d: PyDict)
    ensures WindowState(d) == "### HEAP DATA ###\n" + DictDumps(d) + "\n"
    ensures WindowState(d) != "### HEAP Empty ###\n"
  {
    var e := "### HEAP Empty ###\n";
    var w := WindowState(d);
    assert w[4] == 'H' && w[9] == 'D';
    assert e[9] == 'E';
  }

  /** The module's block is the window's state section behind the
      description, except that an empty dict shows nothing (where the
      window shows `{}`). */
  lemma ModuleAgreesWithWindow(description: string, d: PyDict)
    ensures d != [] ==> ModuleForward(description, d) == "\n" + description + "\n" + WindowState(d)
    ensures d == [] ==> ModuleForward(description, d) + DictDumps(d) + "\n" == "\n" + description + "\n" + WindowState(d)
  {
    WindowStateAlwaysData(d);
    var a := "\n" + description;
    var h := "### HEAP DATA ###\n";
    assert "\n### HEAP DATA ###\n" == "\n" + h;
    Assoc(a, "\n", h);
    Assoc(a + "\n", h, DictDumps(d) + "\n");
    Assoc(a + "\n" + h, DictDumps(d), "\n");
  }

  lemma Assoc(a: string, b: string, c: string)
    ensures a + b + c == a + (b + c)
  {
  }
}
