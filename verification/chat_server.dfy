/**
 * The server-side window-config store of chatServer.py: the `BackendState`
 * object holding the config list and the module-data map, and the batch
 * validation of a posted config list. The HTTP routes, the SSE queues and
 * the program that produces snapshots are not modelled; a snapshot and a
 * decoded request body arrive as parameters.
 */
module ChatServer {
  import opened Values

  /** The pydantic `WindowConfig` model. */
  datatype WindowConfig = WindowConfig(
    windowId: string, windowType: string, windowTitle: string,
    description: Option<string>, order: int,
    windowTheme: Option<string>, icon: Option<string>)

  /** The window types the front-end registry knows. */
  function ValidTypes(): set<string>
  {
    {"kernel", "heap", "stack", "code", "text"}
  }

  /** `validate_window_type`. */
  function ValidateWindowType(t: string): (ok: bool)
    ensures ok <==> t == "kernel" || t == "heap" || t == "stack" || t == "code" || t == "text"
  {
    t in ValidTypes()
  }

  function OptText(o: Option<string>): Value
  {
    match o
    case None => Null
    case Some(s) => Str(s)
  }

  /** `config.dict()`, fields in declaration order. */
  function ConfigDict(c: WindowConfig): Value
  {
    Obj([ Field("WindowId", Str(c.windowId)),
          Field("windowType", Str(c.windowType)),
          Field("windowTitle", Str(c.windowTitle)),
          Field("description", OptText(c.description)),
          Field("order", Num(c.order)),
          Field("windowTheme", OptText(c.windowTheme)),
          Field("icon", OptText(c.icon)) ])
  }

  function ConfigDicts(cs: seq<WindowConfig>): (ds: seq<Value>)
    ensures |ds| == |cs| && forall i :: 0 <= i < |cs| ==> ds[i] == ConfigDict(cs[i])
  {
    seq(|cs|, i requires 0 <= i < |cs| => ConfigDict(cs[i]))
  }

  function InitialConfigs(): seq<WindowConfig>
  {
    [ WindowConfig("kernel-1", "kernel", "Kernel", Some("系统规则和工作流程"), 0, Some("blue"), Some("kernel")),
      WindowConfig("heap-2", "heap", "Heap", Some("持久化存储区域"), 1, Some("gray"), Some("heap")),
      WindowConfig("stack-3", "stack", "FlowStackWindow", Some("临时工作区域"), 2, Some("green"), Some("stack")),
      WindowConfig("text-4", "text", "ALFWorld", Some("alfworld信息"), 4, Some("purple"), Some("code")),
      WindowConfig("text-4", "text", "think_window", Some("大模型思考信息"), 4, Some("yellow"), Some("code")),
      WindowConfig("chat-5", "chat", "ChatWindow", Some("对话交互"), 5, Some("orange"), Some("code")) ]
  }

  function InitialData(): seq<Field>
  {
    [ Field("Kernel", Str("系统规则和工作流：\n- 始终优先调用工具函数来完成任务。\n- 使用栈模块管理多步任务。")),
      Field("Heap", Str("持久化存储：\n- 当前用户：Alex\n- 任务目标：查找最新的AI新闻")),
      Field("FlowStackWindow", Str("任务执行栈：\n- [step 1] 调用搜索工具\n- [step 2] 汇总搜索结果")),
      Field("ALFWorld", Str("文本")),
      Field("ChatWindow", Str("聊天消息展示")),
      Field("think_window", Str("思考信息")) ]
  }

  /** The initial store rejects one of its own types: the chat window's
      type is not accepted by `validate_window_type`. */
  lemma InitialChatRejected()
    ensures InitialConfigs()[5].windowType == "chat"
    ensures !ValidateWindowType(InitialConfigs()[5].windowType)
    ensures forall i :: 0 <= i < 5 ==> ValidateWindowType(InitialConfigs()[i].windowType)
  {
  }

  /** The snapshot rule for one entry of the store. */
  function OverwriteField(f: Field, snapshot: seq<Field>): Field
  {
    match Lookup(snapshot, f.key)
    case Some(v) => Field(f.key, v)
    case None => f
  }

  /** The snapshot rule: every key already present takes the snapshot's
      value when the snapshot has it; no key is added or removed. */
  function Overwrite(data: seq<Field>, snapshot: seq<Field>): seq<Field>
  {
    seq(|data|, i requires 0 <= i < |data| => OverwriteField(data[i], snapshot))
  }

  lemma OverwriteKeys(data: seq<Field>, snapshot: seq<Field>)
    ensures Keys(Overwrite(data, snapshot)) == Keys(data)
  {
    var r := Overwrite(data, snapshot);
    forall i | 0 <= i < |data| ensures Keys(r)[i] == Keys(data)[i] {
      KeysIndex(r, i);
      KeysIndex(data, i);
    }
  }

  /** After an update the store reads the snapshot's value for every key it
      already had that the snapshot carries, and its old value otherwise. */
  lemma {:induction false} OverwriteLookup(data: seq<Field>, snapshot: seq<Field>, k: string)
    ensures k in Keys(data) && k in Keys(snapshot) ==> Lookup(Overwrite(data, snapshot), k) == Lookup(snapshot, k)
    ensures !(k in Keys(data) && k in Keys(snapshot)) ==> Lookup(Overwrite(data, snapshot), k) == Lookup(data, k)
    decreases |data|
  {
    if data != [] {
      var r := Overwrite(data, snapshot);
      assert r[1..] == Overwrite(data[1..], snapshot);
      assert r[0] == OverwriteField(data[0], snapshot);
      OverwriteLookup(data[1..], snapshot, k);
    }
  }

  // ---------------------------------------------------------------------
  // Batch validation of `POST /api/windows/config`

  datatype Response = Updated | BadRequest(message: string) | ServerError

  /** What one posted element yields: a config, a rejected type (400), or an
      exception (500). */
  datatype Conversion = Converted(config: WindowConfig) | InvalidType(message: string) | Raised

  /** Python iteration over the decoded `windows` value. */
  function Iterate(v: Value): Option<seq<Value>>
  {
    match v
    case Arr(items) => Some(items)
    case Obj(fs) => Some(seq(|fs|, i requires 0 <= i < |fs| => Str(fs[i].key)))
    case Str(s) => Some(seq(|s|, i requires 0 <= i < |s| => Str([s[i]])))
    case _ => None
  }

  /** `d.get(key, default)` on a decoded dict. */
  function Get(fs: seq<Field>, key: string, default: Value): Value
  {
    match Lookup(fs, key)
    case Some(v) => v
    case None => default
  }

  /** A `str` field: absent, or a string. */
  predicate TextField(fs: seq<Field>, k: string)
  {
    match Lookup(fs, k)
    case None => true
    case Some(v) => v.Str?
  }

  /** An `Optional[str]` field: absent, `None` or a string. */
  predicate OptTextField(fs: seq<Field>, k: string)
  {
    match Lookup(fs, k)
    case None => true
    case Some(v) => v.Null? || v.Str?
  }

  /** An `int` field: absent, or a number. */
  predicate NumField(fs: seq<Field>, k: string)
  {
    match Lookup(fs, k)
    case None => true
    case Some(v) => v.Num?
  }

  /** Every field the construction reads has a type the model accepts. */
  predicate WellTyped(fs: seq<Field>)
  {
    TextField(fs, "id") && TextField(fs, "title") && OptTextField(fs, "description") &&
    NumField(fs, "order") && OptTextField(fs, "color") && OptTextField(fs, "icon")
  }

  /** Element field `k` is given as `v`, or absent with `v` as the default. */
  predicate GivenOr(fs: seq<Field>, k: string, v: Value, default: Value)
  {
    Lookup(fs, k) == Some(v) || (k !in Keys(fs) && v == default)
  }

  /** `d.get(k, default)` passed to a `str` field; `None` when it raises. */
  function TextArg(fs: seq<Field>, k: string, default: string): (r: Option<string>)
    ensures r.Some? <==> TextField(fs, k)
    ensures r.Some? ==> GivenOr(fs, k, Str(r.value), Str(default))
  {
    var v := Get(fs, k, Str(default));
    if v.Str? then Some(v.s) else None
  }

  /** `d.get(k)` passed to an `Optional[str]` field. */
  function OptTextArg(fs: seq<Field>, k: string): (r: Option<Option<string>>)
    ensures r.Some? <==> OptTextField(fs, k)
    ensures r.Some? ==> GivenOr(fs, k, OptText(r.value), Null)
  {
    var v := Get(fs, k, Null);
    if v.Null? then Some(None) else if v.Str? then Some(Some(v.s)) else None
  }

  /** `d.get(k, default)` passed to an `int` field. */
  function NumArg(fs: seq<Field>, k: string, default: int): (r: Option<int>)
    ensures r.Some? <==> NumField(fs, k)
    ensures r.Some? ==> GivenOr(fs, k, Num(r.value), Num(default))
  {
    var v := Get(fs, k, Num(default));
    if v.Num? then Some(v.n) else None
  }

  /** Config `c` carries the element's fields, and the defaults
      `"{type}-{i}"`, the type, `None` and `i` for the absent ones. */
  predicate Configured(fs: seq<Field>, t: string, i: nat, c: WindowConfig)
  {
    c.windowType == t &&
    GivenOr(fs, "id", Str(c.windowId), Str(t + "-" + NatToString(i))) &&
    GivenOr(fs, "title", Str(c.windowTitle), Str(t)) &&
    GivenOr(fs, "description", OptText(c.description), Null) &&
    GivenOr(fs, "order", Num(c.order), Num(i)) &&
    GivenOr(fs, "color", OptText(c.windowTheme), Null) &&
    GivenOr(fs, "icon", OptText(c.icon), Null)
  }

  /** The `WindowConfig(...)` construction for an element whose type `t`
      passed validation; a field of the wrong type raises. */
  function Build(fs: seq<Field>, t: string, i: nat): (r: Conversion)
    ensures r.Converted? || r.Raised?
    ensures r.Converted? <==> WellTyped(fs)
    ensures r.Converted? ==> Configured(fs, t, i, r.config)
  {
    var id := TextArg(fs, "id", t + "-" + NatToString(i));
    var title := TextArg(fs, "title", t);
    var desc := OptTextArg(fs, "description");
    var order := NumArg(fs, "order", i);
    var theme := OptTextArg(fs, "color");
    var icon := OptTextArg(fs, "icon");
    if id.None? || title.None? || desc.None? || order.None? || theme.None? || icon.None? then Raised
    else Converted(WindowConfig(id.value, t, title.value, desc.value, order.value, theme.value, icon.value))
  }

  /** One iteration of the validation loop; `i` is the number of configs
      accepted so far. */
  function Convert(e: Value, i: nat): (r: Conversion)
    ensures r.Converted? ==> ValidateWindowType(r.config.windowType)
  {
    if !e.Obj? then Raised
    else
      var t := Get(e.fields, "type", Str(""));
      if t.Arr? || t.Obj? then Raised
      else if !(t.Str? && ValidateWindowType(t.s)) then
        InvalidType("无效的窗口类型: " + PyStr(Get(e.fields, "type", Null)))
      else Build(e.fields, t.s, i)
  }

  /** Every element's outcome: 500 when it is not a dict or its type is
      unhashable, 400 when its type is missing or not a valid string, and
      otherwise a config built from its fields and their defaults, or 500
      when one of them has the wrong type. */
  lemma ConvertOutcome(e: Value, i: nat)
    ensures Convert(e, i).InvalidType? <==>
              e.Obj? && match Lookup(e.fields, "type")
                        case None => true
                        case Some(v) => !v.Arr? && !v.Obj? && !(v.Str? && ValidateWindowType(v.s))
    ensures Convert(e, i).InvalidType? ==>
              Convert(e, i).message == "无效的窗口类型: " + PyStr(Get(e.fields, "type", Null))
    ensures Convert(e, i).Converted? <==>
              e.Obj? && Lookup(e.fields, "type").Some? && Lookup(e.fields, "type").value.Str? &&
              ValidateWindowType(Lookup(e.fields, "type").value.s) && WellTyped(e.fields)
    ensures Convert(e, i).Converted? ==>
              Configured(e.fields, Lookup(e.fields, "type").value.s, i, Convert(e, i).config)
    ensures Convert(e, i).Raised? <==>
              !e.Obj? ||
              (Lookup(e.fields, "type").Some? && (Lookup(e.fields, "type").value.Arr? || Lookup(e.fields, "type").value.Obj?)) ||
              (Lookup(e.fields, "type").Some? && Lookup(e.fields, "type").value.Str? &&
               ValidateWindowType(Lookup(e.fields, "type").value.s) && !WellTyped(e.fields))
  {
    if e.Obj? && Lookup(e.fields, "type").None? {
      assert !ValidateWindowType("");
    }
  }

  /** An element naming only a valid type gets the defaults
      `"{type}-{i}"`, title = type and order = i. */
  lemma ConvertDefaults(t: string, i: nat)
    requires ValidateWindowType(t)
    ensures Convert(Obj([Field("type", Str(t))]), i) ==
            Converted(WindowConfig(t + "-" + NatToString(i), t, t, None, i, None, None))
  {
    var fs := [Field("type", Str(t))];
    LookupAt(fs, 0, "type");
    InKeys(fs, "id");
    InKeys(fs, "title");
    InKeys(fs, "description");
    InKeys(fs, "order");
    InKeys(fs, "color");
    InKeys(fs, "icon");
  }

  datatype Batch = Accepted(configs: seq<WindowConfig>) | Rejected(message: string) | Failed

  /** The loop from the `i`-th element on, `done` holding the accepted
      prefix, for an element conversion `convert`. */
  function BatchWith(convert: (Value, nat) -> Conversion, es: seq<Value>, done: seq<WindowConfig>): Batch
    decreases |es|
  {
    if es == [] then Accepted(done)
    else match convert(es[0], |done|)
      case Converted(c) => BatchWith(convert, es[1..], done + [c])
      case InvalidType(m) => Rejected(m)
      case Raised => Failed
  }

  /** The handler's loop, converting each element with `Convert`. */
  function BatchFrom(es: seq<Value>, done: seq<WindowConfig>): Batch
  {
    BatchWith(Convert, es, done)
  }

  /** The whole handler body on a decoded request (`None`: the body did not
      decode). */
  function ValidateBatch(data: Option<Value>): Batch
  {
    if data.None? || !data.value.Obj? then Failed
    else match Iterate(Get(data.value.fields, "windows", Arr([])))
      case None => Failed
      case Some(es) => BatchFrom(es, [])
  }

  /** An accepted batch has one config per element, in input order, each
      what that element converts to at its own index. */
  lemma {:induction false} AcceptedElementwise(convert: (Value, nat) -> Conversion, es: seq<Value>, done: seq<WindowConfig>)
    requires BatchWith(convert, es, done).Accepted?
    ensures |BatchWith(convert, es, done).configs| == |done| + |es|
    ensures BatchWith(convert, es, done).configs[..|done|] == done
    ensures forall k :: 0 <= k < |es| ==>
              convert(es[k], |done| + k) == Converted(BatchWith(convert, es, done).configs[|done| + k])
    decreases |es|
  {
    if es != [] {
      var c := convert(es[0], |done|).config;
      var d2 := done + [c];
      assert BatchWith(convert, es, done) == BatchWith(convert, es[1..], d2);
      AcceptedElementwise(convert, es[1..], d2);
      var cs := BatchWith(convert, es[1..], d2).configs;
      assert cs[..|done|] == cs[..|d2|][..|done|];
      assert cs[|done|] == cs[..|d2|][|done|] == c;
      forall k | 0 < k < |es| ensures convert(es[k], |done| + k) == Converted(cs[|done| + k]) {
        assert es[k] == es[1..][k - 1];
        assert |d2| + (k - 1) == |done| + k;
      }
    }
  }

  /** Conversely, a batch whose every element converts is accepted. */
  lemma {:induction false} AllConvertAccepted(convert: (Value, nat) -> Conversion, es: seq<Value>, done: seq<WindowConfig>)
    requires forall k :: 0 <= k < |es| ==> convert(es[k], |done| + k).Converted?
    ensures BatchWith(convert, es, done).Accepted?
    decreases |es|
  {
    if es != [] {
      assert convert(es[0], |done| + 0).Converted?;
      var c := convert(es[0], |done|).config;
      forall k | 0 <= k < |es[1..]| ensures convert(es[1..][k], |done + [c]| + k).Converted? {
        assert es[1..][k] == es[k + 1];
      }
      AllConvertAccepted(convert, es[1..], done + [c]);
    }
  }

  /** A batch is rejected with 400 exactly at the first element that does
      not convert, when that element's type is the problem. */
  lemma {:induction false} RejectedAtFirstInvalid(convert: (Value, nat) -> Conversion, es: seq<Value>, done: seq<WindowConfig>, j: nat)
    requires j < |es|
    requires forall k :: 0 <= k < j ==> convert(es[k], |done| + k).Converted?
    requires convert(es[j], |done| + j).InvalidType?
    ensures BatchWith(convert, es, done) == Rejected(convert(es[j], |done| + j).message)
    decreases |es|
  {
    if j > 0 {
      assert convert(es[0], |done| + 0).Converted?;
      var c := convert(es[0], |done|).config;
      forall k | 0 <= k < j - 1 ensures convert(es[1..][k], |done + [c]| + k).Converted? {
        assert es[1..][k] == es[k + 1];
      }
      assert es[1..][j - 1] == es[j];
      RejectedAtFirstInvalid(convert, es[1..], done + [c], j - 1);
    }
  }

  /** Every accepted config has a valid type. */
  lemma AcceptedTypesValid(es: seq<Value>)
    requires BatchFrom(es, []).Accepted?
    ensures forall c :: c in BatchFrom(es, []).configs ==> ValidateWindowType(c.windowType)
  {
    forall e, i ensures Convert(e, i).Converted? ==> ValidateWindowType(Convert(e, i).config.windowType) {
    }
    AcceptedTypesWith(Convert, es, []);
  }

  lemma {:induction false} AcceptedTypesWith(convert: (Value, nat) -> Conversion, es: seq<Value>, done: seq<WindowConfig>)
    requires forall e, i :: convert(e, i).Converted? ==> ValidateWindowType(convert(e, i).config.windowType)
    requires BatchWith(convert, es, done).Accepted?
    requires forall c :: c in done ==> ValidateWindowType(c.windowType)
    ensures forall c :: c in BatchWith(convert, es, done).configs ==> ValidateWindowType(c.windowType)
    decreases |es|
  {
    if es != [] {
      var c := convert(es[0], |done|).config;
      AcceptedTypesWith(convert, es[1..], done + [c]);
    }
  }

  // ---------------------------------------------------------------------
  // The store

  class BackendState {
    var windowConfigs: seq<WindowConfig>
    var windowData: seq<Field>

    /** The module map is a Python dict: its keys are distinct. */
    predicate Valid()
      reads this
    {
      UniqueKeys(windowData)
    }

    constructor ()
      ensures windowConfigs == InitialConfigs() && windowData == InitialData()
      ensures Valid()
    {
      windowConfigs := InitialConfigs();
      windowData := InitialData();
    }

    /** `update_snapshot` (and the same loop after an LLM call): overwrite
        each known key the snapshot carries, in the store's key order. */
    method UpdateSnapshot(snapshot: seq<Field>)
      requires Valid()
      modifies this
      ensures windowData == Overwrite(old(windowData), snapshot)
      ensures windowConfigs == old(windowConfigs)
      ensures Valid()
    {
      var i := 0;
      while i < |windowData|
        invariant 0 <= i <= |windowData| == |old(windowData)|
        invariant forall j :: 0 <= j < i ==> windowData[j] == OverwriteField(old(windowData)[j], snapshot)
        invariant forall j :: i <= j < |windowData| ==> windowData[j] == old(windowData)[j]
        invariant windowConfigs == old(windowConfigs)
      {
        var key := windowData[i].key;
        var found := Lookup(snapshot, key);
        if found.Some? {
          windowData := windowData[i := Field(key, found.value)];
        }
        i := i + 1;
      }
      OverwriteKeys(old(windowData), snapshot);
      assert old(Valid());
      assert windowData == Overwrite(old(windowData), snapshot);
      UniqueByKeys(old(windowData), windowData);
    }

    /** `get_full_state`: the module map spread over a one-key object whose
        "windows" holds the config dicts in list order. */
    function FullState(): (r: Value)
      reads this
      ensures r.Obj?
    {
      Obj(Spread([Field("windows", Arr(ConfigDicts(windowConfigs)))], windowData))
    }

    /** `get_legacy_state`: the module map alone, as a value of its own. */
    function LegacyState(): (r: Value)
      reads this
      ensures r.Obj? && Keys(r.fields) == Keys(windowData)
      ensures forall k :: Lookup(r.fields, k) == Lookup(windowData, k)
    {
      Obj(windowData)
    }

    /** `update_window_configs`: replace the config list wholesale on
        success, leave it untouched on a 400 or a 500. */
    method UpdateWindowConfigs(data: Option<Value>) returns (resp: Response)
      modifies this
      ensures ValidateBatch(data).Accepted? ==> resp == Updated && windowConfigs == ValidateBatch(data).configs
      ensures ValidateBatch(data).Rejected? ==> resp == BadRequest(ValidateBatch(data).message) && windowConfigs == old(windowConfigs)
      ensures ValidateBatch(data).Failed? ==> resp == ServerError && windowConfigs == old(windowConfigs)
      ensures windowData == old(windowData)
    {
      if data.None? || !data.value.Obj? {
        return ServerError;
      }
      var it := Iterate(Get(data.value.fields, "windows", Arr([])));
      if it.None? {
        return ServerError;
      }
      var es := it.value;
      var validated: seq<WindowConfig> := [];
      for i := 0 to |es|
        invariant BatchFrom(es, []) == BatchFrom(es[i..], validated)
      {
        assert es[i..][1..] == es[i + 1..];
        assert es[i..][0] == es[i];
        match Convert(es[i], |validated|)
        case Converted(c) =>
          validated := validated + [c];
        case InvalidType(m) =>
          return BadRequest(m);
        case Raised =>
          return ServerError;
      }
      windowConfigs := validated;
      resp := Updated;
    }
  }

  /** The "windows" key of the full state is the config list, unless the
      module map itself has a "windows" key, which then wins; every other
      key reads as in the module map. */
  lemma FullStateLookup(configs: seq<WindowConfig>, data: seq<Field>, k: string)
    requires UniqueKeys(data)
    ensures k in Keys(data) ==>
              Lookup(Spread([Field("windows", Arr(ConfigDicts(configs)))], data), k) == Lookup(data, k)
    ensures k !in Keys(data) && k == "windows" ==>
              Lookup(Spread([Field("windows", Arr(ConfigDicts(configs)))], data), k) == Some(Arr(ConfigDicts(configs)))
    ensures k !in Keys(data) && k != "windows" ==>
              Lookup(Spread([Field("windows", Arr(ConfigDicts(configs)))], data), k) == None
  {
    var base := [Field("windows", Arr(ConfigDicts(configs)))];
    SpreadLookup(base, data, k);
    InKeys(base, k);
    LookupAt(base, 0, "windows");
  }

  /** Rewriting values under the same keys keeps the keys distinct. */
  lemma UniqueByKeys(a: seq<Field>, b: seq<Field>)
    requires UniqueKeys(a) && Keys(a) == Keys(b)
    ensures UniqueKeys(b)
  {
    forall i, j | 0 <= i < j < |b| ensures b[i].key != b[j].key {
      KeysIndex(a, i);
      KeysIndex(a, j);
      KeysIndex(b, i);
      KeysIndex(b, j);
    }
  }
}
