/**
 * The browser client's component registry and backend-payload validator.
 *
 * Two copies exist in the client and are modelled side by side, selected by
 * a `Flavor`:
 *  - `PromptWindowsFlavor` (components/PromptWindows/ComponentRegistry.js):
 *    built-in defaults come from `createWindowConfig` and the validator
 *    reads each window's `windowType`;
 *  - `ComponentsFlavor` (components/ComponentRegistry.js): built-in defaults
 *    use `title`/`theme` and the validator reads each window's `type`.
 *
 * React component classes are represented by their names as strings.
 */
module ComponentRegistry {
  import opened Values

  datatype Flavor = PromptWindowsFlavor | ComponentsFlavor

  /** One registry entry: `componentRegistry[type] = {component, defaultConfig}`. */
  datatype RegEntry = RegEntry(typ: string, component: Value, defaultConfig: seq<Field>)

  /** The field of a window config that names its component type. */
  function TypeField(f: Flavor): string
  {
    if f == PromptWindowsFlavor then "windowType" else "type"
  }

  function Tabs(): Value
  {
    Arr([Str("meta"), Str("state")])
  }

  // ---------------------------------------------------------------------
  // Registry as a value

  function Types(reg: seq<RegEntry>): (ts: seq<string>)
    ensures |ts| == |reg|
  {
    if reg == [] then [] else [reg[0].typ] + Types(reg[1..])
  }

  predicate UniqueTypes(reg: seq<RegEntry>)
  {
    reg == [] || (reg[0].typ !in Types(reg[1..]) && UniqueTypes(reg[1..]))
  }

  /** Own-property lookup `componentRegistry[type]`. */
  function Find(reg: seq<RegEntry>, t: string): (r: Option<RegEntry>)
    ensures r.None? <==> t !in Types(reg)
    ensures r.Some? ==> r.value in reg && r.value.typ == t
  {
    if reg == [] then None
    else if reg[0].typ == t then Some(reg[0])
    else Find(reg[1..], t)
  }

  /** Assignment `componentRegistry[type] = e`: an existing type keeps its
      position, a new type is appended. */
  function PutEntry(reg: seq<RegEntry>, e: RegEntry): (r: seq<RegEntry>)
    ensures e.typ in Types(reg) ==> Types(r) == Types(reg)
    ensures e.typ !in Types(reg) ==> Types(r) == Types(reg) + [e.typ]
    ensures Find(r, e.typ) == Some(e)
    ensures forall t :: t != e.typ ==> Find(r, t) == Find(reg, t)
  {
    if reg == [] then [e]
    else if reg[0].typ == e.typ then
      var r := [e] + reg[1..];
      assert r[1..] == reg[1..];
      r
    else
      var rest := PutEntry(reg[1..], e);
      var r := [reg[0]] + rest;
      assert r[1..] == rest;
      r
  }

  lemma {:induction false} PutEntryKeepsUnique(reg: seq<RegEntry>, e: RegEntry)
    requires UniqueTypes(reg)
    ensures UniqueTypes(PutEntry(reg, e))
  {
    if reg != [] && reg[0].typ != e.typ {
      PutEntryKeepsUnique(reg[1..], e);
      var r := PutEntry(reg, e);
      assert r[1..] == PutEntry(reg[1..], e);
    }
  }

  /** `createWindowConfig(config)`: the window-config defaults overlaid with
      `config`. */
  function WindowConfigDefaults(): seq<Field>
  {
    [ Field("windowType", Str("text")),
      Field("windowId", Str("0")),
      Field("windowTitle", Str("未命名窗口")),
      Field("description", Str("")),
      Field("windowTheme", Str("gray")),
      Field("icon", Str("unknown")),
      Field("tabs", Tabs()) ]
  }

  function CreateWindowConfig(config: seq<Field>): seq<Field>
  {
    Spread(WindowConfigDefaults(), config)
  }

  lemma CreateWindowConfigOverlay(config: seq<Field>, k: string)
    requires UniqueKeys(config)
    ensures Lookup(CreateWindowConfig(config), k) ==
              if k in Keys(config) then Lookup(config, k) else Lookup(WindowConfigDefaults(), k)
  {
    SpreadLookup(WindowConfigDefaults(), config, k);
  }

  /** The default config of a built-in type, in either flavour. */
  function BuiltinDefaults(f: Flavor, title: string, desc: string, theme: string, icon: string, tabs: Value): seq<Field>
  {
    if f == PromptWindowsFlavor then
      CreateWindowConfig([ Field("windowTitle", Str(title)), Field("description", Str(desc)),
                           Field("windowTheme", Str(theme)), Field("icon", Str(icon)), Field("tabs", tabs) ])
    else
      [ Field("title", Str(title)), Field("description", Str(desc)),
        Field("theme", Str(theme)), Field("icon", Str(icon)), Field("tabs", tabs) ]
  }

  function BuiltinTypeNames(): seq<string>
  {
    ["chat", "text", "kernel", "heap", "stack", "code"]
  }

  /** The component and default config of the `i`-th built-in type. */
  function BuiltinEntry(f: Flavor, i: nat): RegEntry
    requires i < 6
  {
    var t := BuiltinTypeNames()[i];
    match i
    case 0 => RegEntry(t, Str("ChatWindow"),
        BuiltinDefaults(f, "对话窗口", "对话交互", "orange", "text", Arr([Str("meta"), Str("state"), Str("chat")])))
    case 1 => RegEntry(t, Str("TextWindow"),
        BuiltinDefaults(f, "通用文本窗口", "通用展示一段文本", "blue", "text", Tabs()))
    case 2 => RegEntry(t, Str("KernelWindow"),
        BuiltinDefaults(f, "内核窗口 (Kernel)", "系统规则和工作流程", "blue", "kernel", Tabs()))
    case 3 => RegEntry(t, Str("HeapWindow"),
        BuiltinDefaults(f, "堆窗口 (Heap)", "持久化存储区域", "green", "heap", Tabs()))
    case 4 => RegEntry(t, Str("StackWindow"),
        BuiltinDefaults(f, "栈模块 (Stack)", "临时工作区域", "yellow", "stack", Tabs()))
    case _ => RegEntry(t, Str("CodeWindow"),
        BuiltinDefaults(f, "代码窗口 (Code)", "代码编辑和执行区域", "red", "code", Tabs()))
  }

  /** The module-level registry as first loaded. */
  function Builtins(f: Flavor): (reg: seq<RegEntry>)
    ensures |reg| == 6 && forall i :: 0 <= i < 6 ==> reg[i].typ == BuiltinTypeNames()[i]
  {
    seq(6, i requires 0 <= i < 6 => BuiltinEntry(f, i))
  }

  lemma {:induction false} TypesIndex(reg: seq<RegEntry>)
    ensures forall i :: 0 <= i < |reg| ==> Types(reg)[i] == reg[i].typ
  {
    if reg != [] {
      TypesIndex(reg[1..]);
      assert forall i :: 1 <= i < |reg| ==> reg[i] == reg[1..][i - 1];
    }
  }

  lemma {:induction false} UniqueTypesByIndex(reg: seq<RegEntry>)
    requires forall i, j :: 0 <= i < j < |reg| ==> reg[i].typ != reg[j].typ
    ensures UniqueTypes(reg)
  {
    if reg != [] {
      UniqueTypesByIndex(reg[1..]);
      TypesIndex(reg[1..]);
      assert forall i :: 0 <= i < |reg[1..]| ==> reg[1..][i] == reg[i + 1];
    }
  }

  lemma BuiltinTypes(f: Flavor)
    ensures Types(Builtins(f)) == BuiltinTypeNames()
    ensures UniqueTypes(Builtins(f))
  {
    TypesIndex(Builtins(f));
    UniqueTypesByIndex(Builtins(f));
  }

  /** The defaults `registerComponent` stores for a custom type. */
  function RegisteredDefaults(t: string, config: seq<Field>): seq<Field>
  {
    Spread([ Field("title", Str(Capitalize(t))), Field("description", Str("自定义组件")),
             Field("theme", Str("gray")), Field("icon", Str("custom")), Field("tabs", Tabs()) ],
           config)
  }

  lemma {:induction false} RegisteredDefaultsOverlay(t: string, config: seq<Field>)
    requires UniqueKeys(config)
    ensures "title" !in Keys(config) ==> Lookup(RegisteredDefaults(t, config), "title") == Some(Str(Capitalize(t)))
    ensures "theme" !in Keys(config) ==> Lookup(RegisteredDefaults(t, config), "theme") == Some(Str("gray"))
    ensures "tabs" !in Keys(config) ==> Lookup(RegisteredDefaults(t, config), "tabs") == Some(Tabs())
    ensures forall k :: k in Keys(config) ==> Lookup(RegisteredDefaults(t, config), k) == Lookup(config, k)
  {
    var base := [ Field("title", Str(Capitalize(t))), Field("description", Str("自定义组件")),
                  Field("theme", Str("gray")), Field("icon", Str("custom")), Field("tabs", Tabs()) ];
    LookupAt(base, 0, "title");
    LookupAt(base, 2, "theme");
    LookupAt(base, 4, "tabs");
    SpreadLookup(base, config, "title");
    SpreadLookup(base, config, "theme");
    SpreadLookup(base, config, "tabs");
    forall k | k in Keys(config) ensures Lookup(RegisteredDefaults(t, config), k) == Lookup(config, k) {
      SpreadLookup(base, config, k);
    }
  }

  /** The fallback base config of `getComponentConfig` for an unknown type. */
  function Fallback(f: Flavor, t: string): seq<Field>
  {
    if f == PromptWindowsFlavor then
      CreateWindowConfig([ Field("windowTitle", Str(t)), Field("description", Str("未知组件")),
                           Field("windowTheme", Str("gray")), Field("icon", Str("unknown")), Field("tabs", Tabs()) ])
    else
      [ Field("title", Str(t)), Field("description", Str("未知组件")),
        Field("theme", Str("gray")), Field("icon", Str("unknown")), Field("tabs", Tabs()) ]
  }

  /** `getComponentConfig(type, backendConfig)`: registered (or fallback)
      defaults, overlaid with the backend's fields, with `type` forced. */
  function GetComponentConfig(reg: seq<RegEntry>, f: Flavor, t: string, backend: seq<Field>): (r: seq<Field>)
    requires UniqueKeys(backend)
    ensures Lookup(r, "type") == Some(Str(t))
    ensures forall k :: k != "type" && k in Keys(backend) ==> Lookup(r, k) == Lookup(backend, k)
    ensures forall k :: k != "type" && k !in Keys(backend) ==>
              Lookup(r, k) == Lookup(if t in Types(reg) then Find(reg, t).value.defaultConfig else Fallback(f, t), k)
  {
    var base := match Find(reg, t) case Some(e) => e.defaultConfig case None => Fallback(f, t);
    var merged := Spread(base, backend);
    assert forall k :: Lookup(merged, k) == if k in Keys(backend) then Lookup(backend, k) else Lookup(base, k) by {
      forall k ensures Lookup(merged, k) == if k in Keys(backend) then Lookup(backend, k) else Lookup(base, k) {
        SpreadLookup(base, backend, k);
      }
    }
    PutLookup(merged, "type", Str(t));
    Put(merged, "type", Str(t))
  }

  /** The fallback of the PromptWindows copy is the `createWindowConfig`
      defaults titled after the type; the other copy's is a plain object. */
  lemma FallbackFields(t: string)
    ensures Lookup(Fallback(PromptWindowsFlavor, t), "windowTitle") == Some(Str(t))
    ensures Lookup(Fallback(PromptWindowsFlavor, t), "windowTheme") == Some(Str("gray"))
    ensures Lookup(Fallback(PromptWindowsFlavor, t), "windowType") == Some(Str("text"))
    ensures Lookup(Fallback(ComponentsFlavor, t), "title") == Some(Str(t))
    ensures Lookup(Fallback(ComponentsFlavor, t), "theme") == Some(Str("gray"))
  {
    PromptFallbackFields(t);
    var plain := Fallback(ComponentsFlavor, t);
    LookupAt(plain, 0, "title");
    LookupAt(plain, 2, "theme");
  }

  lemma PromptFallbackFields(t: string)
    ensures Lookup(Fallback(PromptWindowsFlavor, t), "windowTitle") == Some(Str(t))
    ensures Lookup(Fallback(PromptWindowsFlavor, t), "windowTheme") == Some(Str("gray"))
    ensures Lookup(Fallback(PromptWindowsFlavor, t), "windowType") == Some(Str("text"))
  {
    var over := [ Field("windowTitle", Str(t)), Field("description", Str("未知组件")),
                  Field("windowTheme", Str("gray")), Field("icon", Str("unknown")), Field("tabs", Tabs()) ];
    assert Fallback(PromptWindowsFlavor, t) == CreateWindowConfig(over);
    OverFields(t, over);
    CreateWindowConfigOverlay(over, "windowTitle");
    CreateWindowConfigOverlay(over, "windowTheme");
    CreateWindowConfigOverlay(over, "windowType");
    LookupAt(WindowConfigDefaults(), 0, "windowType");
  }

  lemma OverFields(t: string, over: seq<Field>)
    requires over == [ Field("windowTitle", Str(t)), Field("description", Str("未知组件")),
                       Field("windowTheme", Str("gray")), Field("icon", Str("unknown")), Field("tabs", Tabs()) ]
    ensures UniqueKeys(over) && "windowTitle" in Keys(over) && "windowTheme" in Keys(over) && "windowType" !in Keys(over)
    ensures Lookup(over, "windowTitle") == Some(Str(t)) && Lookup(over, "windowTheme") == Some(Str("gray"))
  {
    assert UniqueKeys(over);
    InKeys(over, "windowTitle");
    InKeys(over, "windowTheme");
    InKeys(over, "windowType");
    LookupAt(over, 0, "windowTitle");
    LookupAt(over, 2, "windowTheme");
  }

  /** For an unknown type `getComponentConfig` falls back to defaults
      titled after the type, with the gray theme. */
  lemma UnknownTypeFallback(reg: seq<RegEntry>, t: string)
    requires t !in Types(reg)
    ensures Lookup(GetComponentConfig(reg, PromptWindowsFlavor, t, []), "windowTitle") == Some(Str(t))
    ensures Lookup(GetComponentConfig(reg, PromptWindowsFlavor, t, []), "windowTheme") == Some(Str("gray"))
    ensures Lookup(GetComponentConfig(reg, PromptWindowsFlavor, t, []), "windowType") == Some(Str("text"))
    ensures Lookup(GetComponentConfig(reg, ComponentsFlavor, t, []), "title") == Some(Str(t))
    ensures Lookup(GetComponentConfig(reg, ComponentsFlavor, t, []), "theme") == Some(Str("gray"))
  {
    FallbackFields(t);
  }

  /** `getComponent(type)`: the registered component, or null when the type
      is unknown or its component is falsy. */
  function GetComponent(reg: seq<RegEntry>, t: string): (r: Value)
    ensures t !in Types(reg) ==> r == Null
    ensures r != Null ==> exists e :: e in reg && e.typ == t && e.component == r
  {
    match Find(reg, t)
    case Some(e) => if JsTruthy(e.component) then e.component else Null
    case None => Null
  }

  /** `getAvailableComponentTypes()`: the registry's keys in JavaScript's
      enumeration order. */
  function AvailableTypes(reg: seq<RegEntry>): (ts: seq<string>)
    ensures forall t :: t in ts <==> Find(reg, t).Some?
  {
    JsKeyOrder(Types(reg))
  }

  // ---------------------------------------------------------------------
  // The mutable module-level registry

  class Registry {
    var entries: seq<RegEntry>
    const flavor: Flavor

    ghost predicate Valid()
      reads this
    {
      UniqueTypes(entries)
    }

    constructor (f: Flavor)
      ensures flavor == f && entries == Builtins(f)
      ensures Valid()
    {
      flavor := f;
      entries := Builtins(f);
      BuiltinTypes(f);
    }

    /** `registerComponent(type, component, config)`: always succeeds; the
        returned flag is the warning about an existing (truthy) entry. */
    method Register(t: string, component: Value, config: seq<Field>) returns (warned: bool)
      requires Valid()
      modifies this
      ensures Valid()
      ensures warned == RegisteredAsWritten(old(entries), t)
      ensures entries == PutEntry(old(entries), RegEntry(t, component, RegisteredDefaults(t, config)))
    {
      warned := RegisteredAsWritten(entries, t);
      PutEntryKeepsUnique(entries, RegEntry(t, component, RegisteredDefaults(t, config)));
      entries := PutEntry(entries, RegEntry(t, component, RegisteredDefaults(t, config)));
    }
  }

  /** After registration the type is listed, `getComponent` returns the new
      component (when truthy), and every other type is unaffected. */
  lemma RegisterVisible(reg: seq<RegEntry>, t: string, component: Value, config: seq<Field>)
    ensures t in AvailableTypes(PutEntry(reg, RegEntry(t, component, RegisteredDefaults(t, config))))
    ensures JsTruthy(component) ==>
              GetComponent(PutEntry(reg, RegEntry(t, component, RegisteredDefaults(t, config))), t) == component
    ensures forall u :: u != t ==>
              GetComponent(PutEntry(reg, RegEntry(t, component, RegisteredDefaults(t, config))), u) == GetComponent(reg, u)
  {
  }

  // ---------------------------------------------------------------------
  // validateBackendConfig

  /** The names every plain JavaScript object inherits from
      `Object.prototype`; `componentRegistry[name]` is truthy for each. */
  function ObjectPrototypeNames(): seq<string>
  {
    [ "constructor", "hasOwnProperty", "isPrototypeOf", "propertyIsEnumerable",
      "toString", "toLocaleString", "valueOf", "__proto__",
      "__defineGetter__", "__defineSetter__", "__lookupGetter__", "__lookupSetter__" ]
  }

  /** `componentRegistry[key]` is truthy, as written: own entries and the
      inherited `Object.prototype` members alike. */
  predicate RegisteredAsWritten(reg: seq<RegEntry>, key: string)
  {
    key in Types(reg) || key in ObjectPrototypeNames()
  }

  /** The outcome of a JavaScript call that returns a boolean or throws. */
  datatype Outcome = Returns(b: bool) | Throws

  /** The verdict on one element of a `windows` array; `None` when reading
      its type field throws (the element is null). `ownOnly` selects the
      corrected own-property registry lookup. */
  function ElementVerdict(reg: seq<RegEntry>, field: string, x: Value, ownOnly: bool): Option<bool>
  {
    if x.Null? || x.Undefined? then None
    else
      var t := JsGet(x, field);
      Some(JsTruthy(t) &&
           (if ownOnly then JsString(t) in Types(reg) else RegisteredAsWritten(reg, JsString(t))))
  }

  /** The `for…of` loop over `windows` for a per-element `verdict`: the
      first element that is not accepted decides. */
  function VerdictOver(verdict: Value -> Option<bool>, ws: seq<Value>): Outcome
  {
    if ws == [] then Returns(true)
    else match verdict(ws[0])
      case None => Throws
      case Some(false) => Returns(false)
      case Some(true) => VerdictOver(verdict, ws[1..])
  }

  /** The validator's loop over `windows`. */
  function WindowsVerdict(reg: seq<RegEntry>, field: string, ws: seq<Value>, ownOnly: bool): Outcome
  {
    VerdictOver(x => ElementVerdict(reg, field, x, ownOnly), ws)
  }

  predicate HasKnownKey(reg: seq<RegEntry>, payload: Value)
  {
    exists k :: k in ObjectKeys(payload) && k in Types(reg)
  }

  /** The whole validator. A payload that is neither an object nor an array
      is rejected; a payload with a `windows` key is checked element by
      element; any other payload needs one key that is a registered type. */
  function Validation(reg: seq<RegEntry>, f: Flavor, payload: Value, ownOnly: bool): Outcome
  {
    if !JsTruthy(payload) || !(payload.Obj? || payload.Arr?) then Returns(false)
    else if payload.Obj? && "windows" in Keys(payload.fields) then
      var w := JsGet(payload, "windows");
      if !w.Arr? then Returns(false) else WindowsVerdict(reg, TypeField(f), w.items, ownOnly)
    else Returns(HasKnownKey(reg, payload))
  }

  /** The validator as written, looking types up with inherited properties. */
  function ValidateAsWritten(reg: seq<RegEntry>, f: Flavor, payload: Value): (r: Outcome)
    ensures !(payload.Obj? || payload.Arr?) ==> r == Returns(false)
  {
    Validation(reg, f, payload, false)
  }

  /** A backend window typed "constructor" passes the validator as written
      although no such component is registered, while the own-property
      validator rejects it; `getComponent` then finds nothing to render. */
  lemma PrototypeKeyAccepted(reg: seq<RegEntry>)
    requires "constructor" !in Types(reg)
    ensures ValidateAsWritten(reg, PromptWindowsFlavor,
              Obj([Field("windows", Arr([Obj([Field("windowType", Str("constructor"))])]))])) == Returns(true)
    ensures Validation(reg, PromptWindowsFlavor,
              Obj([Field("windows", Arr([Obj([Field("windowType", Str("constructor"))])]))]), true) == Returns(false)
    ensures GetComponent(reg, "constructor") == Null
  {
    var x := Obj([Field("windowType", Str("constructor"))]);
    var payload := Obj([Field("windows", Arr([x]))]);
    assert JsGet(payload, "windows") == Arr([x]);
    assert JsGet(x, "windowType") == Str("constructor");
    assert "constructor" in ObjectPrototypeNames();
    assert ElementVerdict(reg, "windowType", x, false) == Some(true);
    assert ElementVerdict(reg, "windowType", x, true) == Some(false);
    assert "windows" in Keys(payload.fields);
    WindowsVerdictElementwise(reg, "windowType", [x], false);
    WindowsVerdictElementwise(reg, "windowType", [x], true);
    assert [x][0] == x;
  }

  /** Element-wise reading of the `windows` loop: all accepted gives true,
      the first rejected element gives false, a null element reached first
      throws. */
  lemma WindowsVerdictElementwise(reg: seq<RegEntry>, field: string, ws: seq<Value>, ownOnly: bool)
    ensures WindowsVerdict(reg, field, ws, ownOnly) == Returns(true) <==>
              forall i :: 0 <= i < |ws| ==> ElementVerdict(reg, field, ws[i], ownOnly) == Some(true)
    ensures WindowsVerdict(reg, field, ws, ownOnly) == Returns(false) <==>
              exists i :: 0 <= i < |ws| && ElementVerdict(reg, field, ws[i], ownOnly) == Some(false) &&
                forall j :: 0 <= j < i ==> ElementVerdict(reg, field, ws[j], ownOnly) == Some(true)
  {
    VerdictOverElementwise(x => ElementVerdict(reg, field, x, ownOnly), ws);
  }

  lemma VerdictOverElementwise(verdict: Value -> Option<bool>, ws: seq<Value>)
    ensures VerdictOver(verdict, ws) == Returns(true) <==>
              forall i :: 0 <= i < |ws| ==> verdict(ws[i]) == Some(true)
    ensures VerdictOver(verdict, ws) == Returns(false) <==>
              exists i :: 0 <= i < |ws| && verdict(ws[i]) == Some(false) &&
                forall j :: 0 <= j < i ==> verdict(ws[j]) == Some(true)
  {
    VerdictOverTrue(verdict, ws);
    VerdictOverFalse(verdict, ws);
  }

  lemma {:induction false} VerdictOverTrue(verdict: Value -> Option<bool>, ws: seq<Value>)
    ensures VerdictOver(verdict, ws) == Returns(true) <==>
              forall i :: 0 <= i < |ws| ==> verdict(ws[i]) == Some(true)
  {
    if ws != [] {
      VerdictOverTrue(verdict, ws[1..]);
      if verdict(ws[0]) == Some(true) && forall i :: 0 <= i < |ws[1..]| ==> verdict(ws[1..][i]) == Some(true) {
        forall i | 0 <= i < |ws| ensures verdict(ws[i]) == Some(true) {
          if i > 0 { assert ws[i] == ws[1..][i - 1]; }
        }
      }
      if forall i :: 0 <= i < |ws| ==> verdict(ws[i]) == Some(true) {
        assert verdict(ws[0]) == Some(true);
        forall i | 0 <= i < |ws[1..]| ensures verdict(ws[1..][i]) == Some(true) {
          assert ws[1..][i] == ws[i + 1];
        }
      }
    }
  }

  lemma {:induction false} VerdictOverFalse(verdict: Value -> Option<bool>, ws: seq<Value>)
    ensures VerdictOver(verdict, ws) == Returns(false) <==>
              exists i :: 0 <= i < |ws| && verdict(ws[i]) == Some(false) &&
                forall j :: 0 <= j < i ==> verdict(ws[j]) == Some(true)
  {
    if ws != [] {
      VerdictOverFalse(verdict, ws[1..]);
      if verdict(ws[0]) == Some(false) {
        var i := 0;
        assert i < |ws| && verdict(ws[i]) == Some(false);
      } else if verdict(ws[0]) == Some(true) {
        if VerdictOver(verdict, ws[1..]) == Returns(false) {
          var i :| 0 <= i < |ws[1..]| && verdict(ws[1..][i]) == Some(false) &&
                   forall j :: 0 <= j < i ==> verdict(ws[1..][j]) == Some(true);
          assert verdict(ws[i + 1]) == Some(false);
          forall j | 0 <= j < i + 1 ensures verdict(ws[j]) == Some(true) {
            if j > 0 { assert ws[j] == ws[1..][j - 1]; }
          }
        }
        if exists i :: 0 <= i < |ws| && verdict(ws[i]) == Some(false) &&
             forall j :: 0 <= j < i ==> verdict(ws[j]) == Some(true) {
          var i :| 0 <= i < |ws| && verdict(ws[i]) == Some(false) &&
                   forall j :: 0 <= j < i ==> verdict(ws[j]) == Some(true);
          assert i > 0;
          assert verdict(ws[1..][i - 1]) == Some(false);
          forall j | 0 <= j < i - 1 ensures verdict(ws[1..][j]) == Some(true) {
            assert ws[1..][j] == ws[j + 1];
          }
        }
      } else {
        forall i | 0 <= i < |ws| && verdict(ws[i]) == Some(false)
          ensures 0 < i && verdict(ws[0]) != Some(true)
        {
        }
      }
    }
  }

  /** `validateBackendConfig(payload)` with the registry looked up by own
      property: the loops of the source, proved equal to `Validation`. */
  method ValidateBackendConfig(reg: seq<RegEntry>, f: Flavor, payload: Value) returns (r: Outcome)
    ensures r == Validation(reg, f, payload, true)
    ensures r == Returns(true) && payload.Obj? && "windows" in Keys(payload.fields) ==>
              forall x :: x in JsGet(payload, "windows").items ==> JsString(JsGet(x, TypeField(f))) in AvailableTypes(reg)
  {
    if !JsTruthy(payload) || !(payload.Obj? || payload.Arr?) {
      return Returns(false);
    }
    if payload.Obj? && "windows" in Keys(payload.fields) {
      var w := JsGet(payload, "windows");
      if !w.Arr? {
        return Returns(false);
      }
      r := CheckWindows(reg, TypeField(f), w.items);
      return;
    }
    var known := AvailableTypes(reg);
    var found := AnyKnown(ObjectKeys(payload), known);
    assert found == HasKnownKey(reg, payload);
    return Returns(found);
  }

  /** The `for…of` loop over `windows` with the own-property lookup. */
  method CheckWindows(reg: seq<RegEntry>, field: string, ws: seq<Value>) returns (r: Outcome)
    ensures r == WindowsVerdict(reg, field, ws, true)
    ensures r == Returns(true) ==> forall x :: x in ws ==> JsString(JsGet(x, field)) in Types(reg)
  {
    var i := 0;
    while i < |ws|
      invariant 0 <= i <= |ws|
      invariant WindowsVerdict(reg, field, ws[i..], true) == WindowsVerdict(reg, field, ws, true)
      invariant forall j :: 0 <= j < i ==> JsString(JsGet(ws[j], field)) in Types(reg)
    {
      var x := ws[i];
      assert ws[i..] == [x] + ws[i + 1..];
      if x.Null? || x.Undefined? {
        return Throws;
      }
      var t := JsGet(x, field);
      if !JsTruthy(t) || JsString(t) !in Types(reg) {
        return Returns(false);
      }
      i := i + 1;
    }
    return Returns(true);
  }

  /** The `for (const key in backendConfig)` loop: whether some key is
      among the known types. */
  method AnyKnown(keys: seq<string>, known: seq<string>) returns (found: bool)
    ensures found <==> exists k :: k in keys && k in known
  {
    for i := 0 to |keys|
      invariant forall j :: 0 <= j < i ==> keys[j] !in known
    {
      if keys[i] in known {
        return true;
      }
    }
    return false;
  }

  /** Anything but an object or an array (null, undefined, a bare string
      such as "invalid-json", a number, a boolean) is rejected without
      throwing, by either lookup. */
  lemma ValidatorRejectsNonObjects(reg: seq<RegEntry>, f: Flavor, payload: Value, ownOnly: bool)
    requires !(payload.Obj? || payload.Arr?)
    ensures Validation(reg, f, payload, ownOnly) == Returns(false)
  {
  }

  /** The legacy payload `{kernel, heap}` is accepted by the built-in
      registry. */
  lemma ValidatorAcceptsLegacy(reg: seq<RegEntry>, f: Flavor)
    requires Types(reg) == BuiltinTypeNames()
    ensures Validation(reg, f,
              Obj([Field("kernel", Obj([Field("meta", Str("test"))])), Field("heap", Obj([Field("meta", Str("test"))]))]),
              true) == Returns(true)
  {
    var legacy := Obj([Field("kernel", Obj([Field("meta", Str("test"))])), Field("heap", Obj([Field("meta", Str("test"))]))]);
    assert Keys(legacy.fields) == ["kernel", "heap"];
    KnownKeyAccepted(reg, f, legacy, "kernel");
  }

  /** A payload without `windows` that has a registered type among its keys
      is accepted. */
  lemma KnownKeyAccepted(reg: seq<RegEntry>, f: Flavor, payload: Value, k: string)
    requires payload.Obj? && "windows" !in Keys(payload.fields)
    requires k in Keys(payload.fields) && k in Types(reg)
    ensures Validation(reg, f, payload, true) == Returns(true)
  {
    assert k in ObjectKeys(payload);
  }

  /** The versioned `{version, windowConfigs}` payload is rejected: neither
      key is a component type and there is no `windows` key. */
  lemma ValidatorRejectsVersioned(reg: seq<RegEntry>, f: Flavor, configs: Value)
    requires Types(reg) == BuiltinTypeNames()
    ensures Validation(reg, f, Obj([Field("version", Str("1.0")), Field("windowConfigs", configs)]), true) == Returns(false)
  {
    var versioned := Obj([Field("version", Str("1.0")), Field("windowConfigs", configs)]);
    InKeys(versioned.fields, "windows");
    forall k | k in ObjectKeys(versioned) ensures k !in Types(reg) {
      InKeys(versioned.fields, k);
    }
  }

  /** An empty `windows` array is valid, and one unregistered element
      rejects the whole payload wherever it stands. */
  lemma WindowsArrayRules(reg: seq<RegEntry>, f: Flavor, before: seq<Value>, bad: Value, after: seq<Value>)
    requires forall x :: x in before ==> ElementVerdict(reg, TypeField(f), x, true) == Some(true)
    requires ElementVerdict(reg, TypeField(f), bad, true) == Some(false)
    ensures Validation(reg, f, Obj([Field("windows", Arr([]))]), true) == Returns(true)
    ensures Validation(reg, f, Obj([Field("windows", Arr(before + [bad] + after))]), true) == Returns(false)
  {
    var ws := before + [bad] + after;
    assert JsGet(Obj([Field("windows", Arr(ws))]), "windows") == Arr(ws);
    assert JsGet(Obj([Field("windows", Arr([]))]), "windows") == Arr([]);
    assert ws[|before|] == bad;
    assert forall j :: 0 <= j < |before| ==> ws[j] == before[j];
    WindowsVerdictElementwise(reg, TypeField(f), ws, true);
  }
}
