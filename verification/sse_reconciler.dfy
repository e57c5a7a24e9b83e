/**
 * The client's server-sent-event reconciler (components/EditorTab.js and
 * the `useSseWindows` hook of api/useEffect.js, which apply the same rules).
 * It holds the window-config list, the module map, the loading flag and the
 * assembled prompt, and updates them on every message and on a connection
 * error.
 *
 * `JSON.parse` is not modelled: a message arrives already decoded, `None`
 * standing for a parse that threw. The payload validator is the
 * own-property variant of `ComponentRegistry` (see its
 * `PrototypeKeyAccepted` lemma for the inherited-key variant).
 */
module SseReconciler {
  import opened Values
  import opened ComponentRegistry
  import opened PromptAssembler

  /** The component's state cells. `closed` records that the event source
      was closed by the error handler. */
  datatype View = View(configs: seq<Value>, windows: Value, loading: bool, closed: bool, prompt: string)

  /** The state after mounting: no configs, an empty module map, loading. */
  function Initial(): View
  {
    View([], Obj([]), true, false, "")
  }

  /** `data.windows && validateBackendConfig(data)`, as an outcome: the
      validator may throw on a null window entry. */
  function ProtocolCheck(reg: seq<RegEntry>, d: Value): Outcome
    requires !d.Null? && !d.Undefined?
  {
    if !JsTruthy(JsGet(d, "windows")) then Returns(false)
    else Validation(reg, PromptWindowsFlavor, d, true)
  }

  /** A protocol payload is an object whose `windows` value is an array. */
  lemma ProtocolShape(reg: seq<RegEntry>, d: Value)
    requires !d.Null? && !d.Undefined?
    requires ProtocolCheck(reg, d) == Returns(true)
    ensures d.Obj? && "windows" in Keys(d.fields) && JsGet(d, "windows").Arr?
  {
  }

  /** The legacy branch: the module map is replaced by the payload; configs
      are synthesised from its keys only if there were none. */
  function LegacyUpdate(v: View, d: Value): View
  {
    v.(windows := d,
       configs := if |v.configs| == 0 then KeyConfigs(ObjectKeys(d)) else v.configs,
       loading := false)
  }

  /** The `onmessage` handler, before the prompt is refreshed. */
  function Receive(reg: seq<RegEntry>, v: View, data: Option<Value>): View
  {
    match data
    case None => v
    case Some(d) =>
      if d.Null? || d.Undefined? then v
      else match ProtocolCheck(reg, d)
        case Throws => v
        case Returns(true) =>
          ProtocolShape(reg, d);
          v.(configs := JsGet(d, "windows").items, windows := Obj(Remove(d.fields, "windows")), loading := false)
        case Returns(false) => LegacyUpdate(v, d)
  }

  /** The prompt effect run after a state change. */
  function WithPrompt(v: View): View
  {
    v.(prompt := Refresh(v.prompt, v.windows, v.configs))
  }

  datatype Event = Message(data: Option<Value>) | ConnectionError

  /** One delivered event. */
  function Step(reg: seq<RegEntry>, v: View, e: Event): View
  {
    match e
    case Message(data) => WithPrompt(Receive(reg, v, data))
    case ConnectionError => WithPrompt(v.(closed := true, loading := false))
  }

  /** A stream of events; once the source is closed nothing more is
      delivered. */
  function Run(reg: seq<RegEntry>, v: View, es: seq<Event>): View
    decreases |es|
  {
    if es == [] || v.closed then v else Run(reg, Step(reg, v, es[0]), es[1..])
  }

  // ---------------------------------------------------------------------
  // The component as a stateful object

  class SseWindows {
    var configs: seq<Value>
    var windows: Value
    var loading: bool
    var closed: bool
    var fullPrompt: string
    const registry: seq<RegEntry>

    function State(): View
      reads this
    {
      View(configs, windows, loading, closed, fullPrompt)
    }

    constructor (reg: seq<RegEntry>)
      ensures registry == reg && State() == Initial()
    {
      registry := reg;
      configs := [];
      windows := Obj([]);
      loading := true;
      closed := false;
      fullPrompt := "";
    }

    /** The prompt effect: recompute unless either half is empty. */
    method RefreshPrompt()
      modifies this
      ensures State() == WithPrompt(old(State()))
    {
      if |ObjectKeys(windows)| == 0 || |SortByOrder(configs)| == 0 {
        return;
      }
      fullPrompt := AssemblePrompt(windows, SortByOrder(configs));
    }

    /** `eventSource.onmessage`. */
    method OnMessage(data: Option<Value>)
      modifies this
      ensures State() == Step(registry, old(State()), Message(data))
    {
      ghost var before := State();
      if data.None? {
        RefreshPrompt();
        return;
      }
      var d := data.value;
      if d.Null? || d.Undefined? {
        RefreshPrompt();
        return;
      }
      var outcome := Returns(false);
      if JsTruthy(JsGet(d, "windows")) {
        outcome := ValidateBackendConfig(registry, PromptWindowsFlavor, d);
      }
      if outcome == Throws {
        RefreshPrompt();
        return;
      }
      if outcome == Returns(true) {
        ProtocolShape(registry, d);
        configs := JsGet(d, "windows").items;
        windows := Obj(Remove(d.fields, "windows"));
      } else {
        windows := d;
        if |configs| == 0 {
          configs := KeyConfigs(ObjectKeys(d));
        }
      }
      loading := false;
      assert State() == Receive(registry, before, data);
      RefreshPrompt();
    }

    /** `eventSource.onerror`: close the source and stop loading. */
    method OnError()
      modifies this
      ensures State() == Step(registry, old(State()), ConnectionError)
    {
      closed := true;
      loading := false;
      RefreshPrompt();
    }
  }

  // ---------------------------------------------------------------------
  // Properties

  /** A message that fails to decode, or decodes to null, changes nothing
      but a (repeated, idempotent) prompt refresh. */
  lemma UndecodableIgnored(reg: seq<RegEntry>, v: View)
    requires v.prompt == Refresh(v.prompt, v.windows, v.configs)
    ensures Step(reg, v, Message(None)) == v
    ensures Step(reg, v, Message(Some(Null))) == v
  {
  }

  /** A valid protocol message replaces the config list with `windows` and
      the module map with every other top-level key. */
  lemma ProtocolReplaces(reg: seq<RegEntry>, v: View, fs: seq<Field>)
    requires ProtocolCheck(reg, Obj(fs)) == Returns(true)
    ensures Receive(reg, v, Some(Obj(fs))).configs == JsGet(Obj(fs), "windows").items
    ensures Receive(reg, v, Some(Obj(fs))).windows.Obj?
    ensures "windows" !in Keys(Receive(reg, v, Some(Obj(fs))).windows.fields)
    ensures forall k :: k != "windows" ==> Lookup(Receive(reg, v, Some(Obj(fs))).windows.fields, k) == Lookup(fs, k)
    ensures !Receive(reg, v, Some(Obj(fs))).loading
  {
  }

  /** Any other decoded message replaces the module map wholesale. */
  lemma LegacyReplacesMap(reg: seq<RegEntry>, v: View, d: Value)
    requires !d.Null? && !d.Undefined?
    requires ProtocolCheck(reg, d) == Returns(false)
    ensures Receive(reg, v, Some(d)).windows == d
    ensures |v.configs| > 0 ==> Receive(reg, v, Some(d)).configs == v.configs
    ensures |v.configs| == 0 ==> Receive(reg, v, Some(d)).configs == KeyConfigs(ObjectKeys(d))
    ensures !Receive(reg, v, Some(d)).loading
  {
  }

  predicate IsProtocolMessage(reg: seq<RegEntry>, e: Event)
  {
    e.Message? && e.data.Some? && !e.data.value.Null? && !e.data.value.Undefined? &&
    ProtocolCheck(reg, e.data.value) == Returns(true)
  }

  /** Once the config list is non-empty, no sequence of non-protocol
      events changes it. */
  lemma {:induction false} ConfigsSticky(reg: seq<RegEntry>, v: View, es: seq<Event>)
    requires |v.configs| > 0
    requires forall e :: e in es ==> !IsProtocolMessage(reg, e)
    ensures Run(reg, v, es).configs == v.configs
    decreases |es|
  {
    if es != [] && !v.closed {
      var v' := Step(reg, v, es[0]);
      assert v'.configs == v.configs by {
        assert !IsProtocolMessage(reg, es[0]);
      }
      assert forall e :: e in es[1..] ==> e in es;
      ConfigsSticky(reg, v', es[1..]);
    }
  }

  /** After a connection error the view is closed and no longer loading,
      and nothing later is delivered. */
  lemma ErrorCloses(reg: seq<RegEntry>, v: View, es: seq<Event>)
    requires !v.closed
    ensures Run(reg, v, [ConnectionError] + es) == Step(reg, v, ConnectionError)
    ensures Step(reg, v, ConnectionError).closed && !Step(reg, v, ConnectionError).loading
  {
    assert ([ConnectionError] + es)[1..] == es;
  }

  predicate AllObjects(cs: seq<Value>)
  {
    forall c :: c in cs ==> c.Obj?
  }

  /** Every config the view holds is an object: validated entries must have
      a truthy type field, which only an object can carry, and synthesised
      entries are objects. */
  lemma {:induction false} ConfigsAreObjects(reg: seq<RegEntry>, v: View, e: Event)
    requires AllObjects(v.configs)
    ensures AllObjects(Step(reg, v, e).configs)
  {
    if e.Message? && e.data.Some? {
      var d := e.data.value;
      if !d.Null? && !d.Undefined? && ProtocolCheck(reg, d) == Returns(true) {
        ProtocolShape(reg, d);
        var ws := JsGet(d, "windows").items;
        WindowsVerdictElementwise(reg, "windowType", ws, true);
        forall c | c in ws ensures c.Obj? {
          var i :| 0 <= i < |ws| && ws[i] == c;
          assert ElementVerdict(reg, "windowType", c, true) == Some(true);
          if !c.Obj? {
            NonObjectsLackWindowType(c);
          }
        }
      }
    }
  }

  /** Only an object has a truthy `windowType` property. */
  lemma NonObjectsLackWindowType(x: Value)
    requires !x.Obj?
    ensures JsGet(x, "windowType") == Undefined
  {
  }

  /** A legacy message arriving first (the sample `{kernel, heap, stack,
      code}`, say) becomes the module map and yields one synthesised config
      per key, in key order, and no prompt text, since none of those
      configs has a `windowTitle` (unless the map holds a truthy entry
      under "undefined"). */
  lemma LegacyFirstMessage(reg: seq<RegEntry>, m: Value)
    requires !m.Null? && !m.Undefined? && ProtocolCheck(reg, m) == Returns(false)
    requires !JsTruthy(JsGet(m, "undefined"))
    ensures Step(reg, Initial(), Message(Some(m))).windows == m
    ensures Step(reg, Initial(), Message(Some(m))).configs == KeyConfigs(ObjectKeys(m))
    ensures Step(reg, Initial(), Message(Some(m))).prompt == ""
    ensures !Step(reg, Initial(), Message(Some(m))).loading
  {
    LegacyConfigsAddNothing(m, ObjectKeys(m));
  }
}
