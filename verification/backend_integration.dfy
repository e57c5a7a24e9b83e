/**
 * The client's backend-integration helpers
 * (protocols/BackendIntegrationExample.js): a format validator that does
 * not consult the component registry, a normaliser that lifts legacy
 * payloads into the versioned `{version, windowConfigs, windows}` form,
 * and a generator of test payloads. `Date.now()` is a parameter.
 */
module BackendIntegration {
  import opened Values
  import opened ComponentRegistry
  import opened PromptAssembler

  /** The module names a legacy payload is recognised by. */
  function LegacyTypes(): seq<string>
  {
    ["kernel", "heap", "stack", "code"]
  }

  predicate IsObject(v: Value)
  {
    v.Obj? || v.Arr?
  }

  /** `configs.every(wc => wc.id && wc.type)`; reading a property of a null
      entry throws. */
  function EveryHasIdAndType(cs: seq<Value>): Outcome
  {
    if cs == [] then Returns(true)
    else if cs[0].Null? || cs[0].Undefined? then Throws
    else if !(JsTruthy(JsGet(cs[0], "id")) && JsTruthy(JsGet(cs[0], "type"))) then Returns(false)
    else EveryHasIdAndType(cs[1..])
  }

  /** `validateConfig(config)`. */
  function ValidateConfig(config: Value): (r: Outcome)
    ensures !JsTruthy(config) ==> r == Returns(false)
    ensures IsObject(config) && !JsTruthy(JsGet(config, "version")) ==>
              r == Returns(exists k :: k in ObjectKeys(config) && k in LegacyTypes())
    ensures JsTruthy(JsGet(config, "version")) && !JsTruthy(JsGet(config, "windowConfigs")) ==> r == Returns(false)
  {
    if !JsTruthy(config) then Returns(false)
    else if IsObject(config) && !JsTruthy(JsGet(config, "version")) then
      Returns(exists k :: k in ObjectKeys(config) && k in LegacyTypes())
    else if JsTruthy(JsGet(config, "version")) && JsTruthy(JsGet(config, "windowConfigs")) then
      var wc := JsGet(config, "windowConfigs");
      if !wc.Arr? then Returns(false) else EveryHasIdAndType(wc.items)
    else Returns(false)
  }

  /** `normalizeConfig(config)`: null for a falsy input, the versioned form
      for a version-less object, anything else unchanged. */
  function NormalizeConfig(config: Value): (r: Value)
    ensures !JsTruthy(config) ==> r == Null
    ensures JsTruthy(config) && !(IsObject(config) && !JsTruthy(JsGet(config, "version"))) ==> r == config
  {
    if !JsTruthy(config) then Null
    else if IsObject(config) && !JsTruthy(JsGet(config, "version")) then
      Obj([ Field("version", Str("1.0")),
            Field("windowConfigs", Arr(KeyConfigs(ObjectKeys(config)))),
            Field("windows", config) ])
    else config
  }

  /** The fields of a normalised legacy payload. */
  lemma NormalizedFields(config: Value)
    requires IsObject(config) && !JsTruthy(JsGet(config, "version"))
    ensures JsGet(NormalizeConfig(config), "version") == Str("1.0")
    ensures JsGet(NormalizeConfig(config), "windowConfigs") == Arr(KeyConfigs(ObjectKeys(config)))
    ensures JsGet(NormalizeConfig(config), "windows") == config
  {
    var wc := Arr(KeyConfigs(ObjectKeys(config)));
    assert NormalizeConfig(config) ==
      Obj([Field("version", Str("1.0")), Field("windowConfigs", wc), Field("windows", config)]);
    NormalizedShape(Str("1.0"), wc, config);
  }

  lemma NormalizedShape(version: Value, wc: Value, windows: Value)
    ensures var n := Obj([Field("version", version), Field("windowConfigs", wc), Field("windows", windows)]);
            JsGet(n, "version") == version && JsGet(n, "windowConfigs") == wc && JsGet(n, "windows") == windows
  {
    var fs := [Field("version", version), Field("windowConfigs", wc), Field("windows", windows)];
    LookupAt(fs, 0, "version");
    LookupAt(fs, 1, "windowConfigs");
    LookupAt(fs, 2, "windows");
  }

  /** Normalising twice is normalising once. */
  lemma NormalizeIdempotent(config: Value)
    ensures NormalizeConfig(NormalizeConfig(config)) == NormalizeConfig(config)
  {
    if JsTruthy(config) && IsObject(config) && !JsTruthy(JsGet(config, "version")) {
      NormalizedFields(config);
    }
  }

  predicate HasIdAndType(c: Value)
  {
    JsTruthy(JsGet(c, "id")) && JsTruthy(JsGet(c, "type"))
  }

  /** Without null entries, `every` is the plain conjunction. */
  lemma {:induction false} EveryWithoutNulls(cs: seq<Value>)
    requires forall c :: c in cs ==> !c.Null? && !c.Undefined?
    ensures EveryHasIdAndType(cs) == Returns(forall c :: c in cs ==> HasIdAndType(c))
    decreases |cs|
  {
    if cs != [] {
      assert forall c :: c in cs[1..] ==> c in cs;
      EveryWithoutNulls(cs[1..]);
      if HasIdAndType(cs[0]) {
        assert forall c :: c in cs ==> c == cs[0] || c in cs[1..];
      } else {
        assert cs[0] in cs;
      }
    }
  }

  lemma KeyConfigHasIdAndType(key: string, i: nat)
    ensures HasIdAndType(KeyConfig(key, i)) <==> key != ""
  {
    KeyConfigFields(key, i);
  }

  /** The synthesised configs pass `every` exactly when no key is empty. */
  lemma KeyConfigsValid(keys: seq<string>)
    ensures EveryHasIdAndType(KeyConfigs(keys)) == Returns(forall k :: k in keys ==> k != "")
  {
    var cs := KeyConfigs(keys);
    forall i | 0 <= i < |cs| ensures cs[i].Obj? && (HasIdAndType(cs[i]) <==> keys[i] != "") {
      KeyConfigHasIdAndType(keys[i], i);
    }
    EveryMatchesKeys(cs, keys);
  }

  /** Objects that pass one by one exactly where their key is non-empty
      pass `every` exactly when no key is empty. */
  lemma EveryMatchesKeys(cs: seq<Value>, keys: seq<string>)
    requires |cs| == |keys|
    requires forall i :: 0 <= i < |cs| ==> cs[i].Obj? && (HasIdAndType(cs[i]) <==> keys[i] != "")
    ensures EveryHasIdAndType(cs) == Returns(forall k :: k in keys ==> k != "")
  {
    EveryWithoutNulls(cs);
    if forall k :: k in keys ==> k != "" {
      forall c | c in cs ensures HasIdAndType(c) {
        var i :| 0 <= i < |cs| && cs[i] == c;
        assert keys[i] in keys;
      }
    } else {
      var k :| k in keys && k == "";
      var i :| 0 <= i < |keys| && keys[i] == k;
      assert !HasIdAndType(cs[i]);
    }
  }

  /** A normalised legacy payload passes the format validator exactly when
      none of its keys is the empty string (an empty key gives a config
      whose `type` is falsy). */
  lemma NormalizedLegacyValid(config: Value)
    requires IsObject(config) && !JsTruthy(JsGet(config, "version"))
    ensures ValidateConfig(NormalizeConfig(config)) == Returns(forall k :: k in ObjectKeys(config) ==> k != "")
  {
    NormalizedFields(config);
    VersionedValid(NormalizeConfig(config), KeyConfigs(ObjectKeys(config)));
    KeyConfigsValid(ObjectKeys(config));
  }

  /** A versioned payload is valid exactly when its configs all are. */
  lemma VersionedValid(config: Value, cs: seq<Value>)
    requires JsGet(config, "version") == Str("1.0") && JsGet(config, "windowConfigs") == Arr(cs)
    ensures ValidateConfig(config) == EveryHasIdAndType(cs)
  {
  }

  /** The format validator does not consult the component registry: any
      non-empty type string is accepted. */
  lemma ValidateIgnoresRegistry(id: string, t: string)
    requires id != "" && t != ""
    ensures ValidateConfig(Obj([ Field("version", Str("1.0")),
              Field("windowConfigs", Arr([Obj([Field("id", Str(id)), Field("type", Str(t))])])) ])) == Returns(true)
  {
    var config := Obj([ Field("version", Str("1.0")),
                        Field("windowConfigs", Arr([Obj([Field("id", Str(id)), Field("type", Str(t))])])) ]);
    var wc := Obj([Field("id", Str(id)), Field("type", Str(t))]);
    LookupAt(config.fields, 0, "version");
    LookupAt(config.fields, 1, "windowConfigs");
    LookupAt(wc.fields, 0, "id");
    LookupAt(wc.fields, 1, "type");
    EveryWithoutNulls([wc]);
  }

  /** A legacy payload with the modules `{kernel, heap, stack, code}`, in
      that order and with any data, is valid and normalises to four
      configs, one per module in key order. */
  lemma LegacySampleNormalizes(sample: Value)
    requires sample.Obj? && Keys(sample.fields) == LegacyTypes()
    ensures ValidateConfig(sample) == Returns(true)
    ensures JsGet(NormalizeConfig(sample), "windowConfigs") == Arr(KeyConfigs(LegacyTypes()))
  {
    LegacySampleKeys(sample);
    LegacyKeyAccepted(sample, "kernel");
    NormalizedFields(sample);
  }

  /** The sample enumerates its four keys as listed, and has no version. */
  lemma LegacySampleKeys(sample: Value)
    requires sample.Obj? && Keys(sample.fields) == LegacyTypes()
    ensures ObjectKeys(sample) == LegacyTypes()
    ensures IsObject(sample) && !JsTruthy(JsGet(sample, "version"))
  {
    var ks := Keys(sample.fields);
    assert ObjectKeys(sample) == JsKeyOrder(ks);
    LegacyKeysKept();
    LegacyUnversioned(sample.fields);
  }

  lemma LegacyUnversioned(fs: seq<Field>)
    requires Keys(fs) == LegacyTypes()
    ensures Lookup(fs, "version").None?
  {
    assert "version"[0] == 'v';
    assert "version" !in LegacyTypes();
  }

  /** No legacy module name is an array index, so the four keep their order. */
  lemma LegacyKeysKept()
    ensures JsKeyOrder(LegacyTypes()) == LegacyTypes()
  {
    var ks := LegacyTypes();
    assert ks[0][0] == 'k' && ks[1][0] == 'h' && ks[2][0] == 's' && ks[3][0] == 'c';
    NamedKeysKeepOrder(ks);
  }

  /** A version-less object with a legacy module key is valid. */
  lemma LegacyKeyAccepted(config: Value, k: string)
    requires IsObject(config) && !JsTruthy(JsGet(config, "version"))
    requires k in ObjectKeys(config) && k in LegacyTypes()
    ensures ValidateConfig(config) == Returns(true)
  {
  }



  /** `generateTestConfig(components)`: one config per component (id from
      the clock, order its index) and module data built with `reduce`. */
  function TestWindowConfig(t: string, i: nat, now: int): Value
  {
    Obj([ Field("id", Str(t + "-" + IntToString(now))),
          Field("type", Str(t)),
          Field("title", Str(Capitalize(t))),
          Field("order", Num(i)),
          Field("tabs", Tabs()) ])
  }

  function TestModuleData(t: string): Value
  {
    Obj([ Field("meta", Str(t + " 配置信息")), Field("state", Str(t + " 当前状态")) ])
  }

  /** The `reduce` building the module map: later duplicates overwrite. */
  function TestWindows(components: seq<string>): seq<Field>
    decreases |components|
  {
    if components == [] then []
    else Put(TestWindows(components[..|components| - 1]), components[|components| - 1],
             TestModuleData(components[|components| - 1]))
  }

  /** `generateTestConfig`'s default `components` argument. */
  const DefaultTestComponents: seq<string> := ["kernel", "heap", "stack", "code"]

  /** `generateTestConfig(components)`; a call without arguments is
      `GenerateTestConfig(DefaultTestComponents, now)`. */
  function GenerateTestConfig(components: seq<string>, now: int): Value
  {
    Obj([ Field("version", Str("1.0")),
          Field("windowConfigs", Arr(seq(|components|, i requires 0 <= i < |components| =>
                                      TestWindowConfig(components[i], i, now)))),
          Field("windows", Obj(TestWindows(components))) ])
  }

  /** Every component has its module data, with meta "{type} 配置信息" and
      state "{type} 当前状态". */
  lemma {:induction false} TestWindowsHaveData(components: seq<string>, t: string)
    requires t in components
    ensures Lookup(TestWindows(components), t) == Some(TestModuleData(t))
    decreases |components|
  {
    var last := components[|components| - 1];
    var init := components[..|components| - 1];
    PutLookup(TestWindows(init), last, TestModuleData(last));
    if t != last {
      assert components == init + [last];
      TestWindowsHaveData(init, t);
    }
  }

  /** A generated configuration keeps its shape under normalisation. */
  lemma GeneratedIsVersioned(components: seq<string>, now: int)
    ensures NormalizeConfig(GenerateTestConfig(components, now)) == GenerateTestConfig(components, now)
    ensures JsGet(GenerateTestConfig(components, now), "version") == Str("1.0")
  {
    LookupAt(GenerateTestConfig(components, now).fields, 0, "version");
  }
}
