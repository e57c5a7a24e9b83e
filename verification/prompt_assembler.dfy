/**
 * The client's prompt assembly: window configs are ordered by a stable
 * ascending sort on `order || 0`, then every config whose `windowTitle`
 * names a truthy entry of the module map contributes one
 * `<WINDOW START/END>` block. Also the config list the client synthesises
 * from the keys of a legacy payload.
 */
module PromptAssembler {
  import opened Values

  // ---------------------------------------------------------------------
  // Synthesised configs for legacy payloads

  /** `{id: "{key}-{i}", type: key, title: Capitalize(key), order: i}`. */
  function KeyConfig(key: string, i: nat): Value
  {
    Obj([ Field("id", Str(key + "-" + NatToString(i))),
          Field("type", Str(key)),
          Field("title", Str(Capitalize(key))),
          Field("order", Num(i)) ])
  }

  /** `Object.keys(data).map((type, index) => KeyConfig(type, index))`. */
  function KeyConfigs(keys: seq<string>): (cs: seq<Value>)
    ensures |cs| == |keys|
    ensures forall i :: 0 <= i < |keys| ==> cs[i] == KeyConfig(keys[i], i)
  {
    seq(|keys|, i requires 0 <= i < |keys| => KeyConfig(keys[i], i))
  }

  lemma KeyConfigFields(key: string, i: nat)
    ensures JsGet(KeyConfig(key, i), "id") == Str(key + "-" + NatToString(i))
    ensures JsGet(KeyConfig(key, i), "type") == Str(key)
    ensures JsGet(KeyConfig(key, i), "title") == Str(Capitalize(key))
    ensures JsGet(KeyConfig(key, i), "order") == Num(i)
    ensures JsGet(KeyConfig(key, i), "windowTitle") == Undefined
  {
    var fs := KeyConfig(key, i).fields;
    LookupAt(fs, 0, "id");
    LookupAt(fs, 1, "type");
    LookupAt(fs, 2, "title");
    LookupAt(fs, 3, "order");
    InKeys(fs, "windowTitle");
  }

  // ---------------------------------------------------------------------
  // Ordering

  /** `config.order || 0` as the number the comparator subtracts. */
  function OrderKey(c: Value): int
  {
    var o := JsGet(c, "order");
    if !JsTruthy(o) then 0
    else match o
      case Num(n) => n
      case Bool(_) => 1
      case _ => 0
  }

  predicate SortedByOrder(cs: seq<Value>)
  {
    forall i, j :: 0 <= i < j < |cs| ==> OrderKey(cs[i]) <= OrderKey(cs[j])
  }

  /** Places `x` before the first element whose key is not smaller. */
  function Insert(x: Value, s: seq<Value>): seq<Value>
  {
    if s == [] || OrderKey(x) <= OrderKey(s[0]) then [x] + s
    else [s[0]] + Insert(x, s[1..])
  }

  /** The stable ascending sort of `[...windowConfigs].sort(...)`. */
  function SortByOrder(cs: seq<Value>): seq<Value>
  {
    if cs == [] then [] else Insert(cs[0], SortByOrder(cs[1..]))
  }

  lemma {:induction false} InsertPermutes(x: Value, s: seq<Value>)
    ensures multiset(Insert(x, s)) == multiset(s) + multiset{x}
  {
    if s != [] && OrderKey(x) > OrderKey(s[0]) {
      InsertPermutes(x, s[1..]);
      assert s == [s[0]] + s[1..];
    }
  }

  lemma {:induction false} InsertSorted(x: Value, s: seq<Value>)
    requires SortedByOrder(s)
    ensures SortedByOrder(Insert(x, s))
  {
    if s != [] && OrderKey(x) > OrderKey(s[0]) {
      var rest := Insert(x, s[1..]);
      InsertSorted(x, s[1..]);
      InsertPermutes(x, s[1..]);
      forall j | 0 <= j < |rest| ensures OrderKey(s[0]) <= OrderKey(rest[j]) {
        assert rest[j] in multiset(rest);
        if rest[j] != x {
          assert rest[j] in multiset(s[1..]);
          var k :| 0 <= k < |s[1..]| && s[1..][k] == rest[j];
          assert s[1..][k] == s[k + 1];
        }
      }
      var r := Insert(x, s);
      assert r == [s[0]] + rest;
    }
  }

  /** Elements with order key `k`, in their original order. */
  function WithKey(cs: seq<Value>, k: int): seq<Value>
  {
    if cs == [] then []
    else (if OrderKey(cs[0]) == k then [cs[0]] else []) + WithKey(cs[1..], k)
  }

  lemma {:induction false} InsertWithKey(x: Value, s: seq<Value>, k: int)
    ensures WithKey(Insert(x, s), k) == (if OrderKey(x) == k then [x] else []) + WithKey(s, k)
  {
    var r := Insert(x, s);
    if s != [] && OrderKey(x) > OrderKey(s[0]) {
      InsertWithKey(x, s[1..], k);
      assert r == [s[0]] + Insert(x, s[1..]);
      assert r[1..] == Insert(x, s[1..]);
      assert WithKey(r, k) == (if OrderKey(s[0]) == k then [s[0]] else []) + WithKey(Insert(x, s[1..]), k);
      assert WithKey(s, k) == (if OrderKey(s[0]) == k then [s[0]] else []) + WithKey(s[1..], k);
      if OrderKey(x) == k {
        assert OrderKey(s[0]) != k;
      }
    } else {
      assert r == [x] + s;
      assert r[1..] == s;
    }
  }

  /** The sort is ascending, a permutation, and stable: the configs sharing
      an order key keep their input order. */
  lemma {:induction false} SortByOrderCorrect(cs: seq<Value>)
    ensures SortedByOrder(SortByOrder(cs))
    ensures multiset(SortByOrder(cs)) == multiset(cs)
    ensures forall k :: WithKey(SortByOrder(cs), k) == WithKey(cs, k)
  {
    if cs != [] {
      SortByOrderCorrect(cs[1..]);
      InsertSorted(cs[0], SortByOrder(cs[1..]));
      InsertPermutes(cs[0], SortByOrder(cs[1..]));
      assert cs == [cs[0]] + cs[1..];
      forall k ensures WithKey(SortByOrder(cs), k) == WithKey(cs, k) {
        InsertWithKey(cs[0], SortByOrder(cs[1..]), k);
      }
    }
  }

  // ---------------------------------------------------------------------
  // Assembly

  function Block(title: string, meta: string, state: string): string
  {
    "\n<WINDOW START: " + title + ">\nMETA:\n" + meta + "\nSTATE:\n" + state + "\n<WINDOW END: " + title + ">\n"
  }

  /** `${x || ""}`. */
  function TextOr(x: Value): string
  {
    if JsTruthy(x) then JsString(x) else ""
  }

  /** What one config adds: nothing when `windows[config.windowTitle]` is
      falsy, otherwise its block with falsy meta/state shown as "". */
  function Contribution(windows: Value, config: Value): (s: string)
    ensures s == "" <==> !JsTruthy(JsGet(windows, JsString(JsGet(config, "windowTitle"))))
  {
    var title := JsString(JsGet(config, "windowTitle"));
    var data := JsGet(windows, title);
    if !JsTruthy(data) then ""
    else Block(title, TextOr(JsGet(data, "meta")), TextOr(JsGet(data, "state")))
  }

  function AssembleSpec(windows: Value, sorted: seq<Value>): string
  {
    if sorted == [] then "" else AssembleSpec(windows, sorted[..|sorted| - 1]) + Contribution(windows, sorted[|sorted| - 1])
  }

  /** `assemblePrompt()`: the `forEach` loop appending each contribution. */
  method AssemblePrompt(windows: Value, sorted: seq<Value>) returns (prompt: string)
    ensures prompt == AssembleSpec(windows, sorted)
  {
    prompt := "";
    for i := 0 to |sorted|
      invariant prompt == AssembleSpec(windows, sorted[..i])
    {
      assert sorted[..i + 1][..i] == sorted[..i];
      prompt := prompt + Contribution(windows, sorted[i]);
    }
    assert sorted[..|sorted|] == sorted;
  }

  /** The prompt is the concatenation of the blocks of exactly the configs
      that find data, in sorted order. */
  lemma {:induction false} AssembleSplits(windows: Value, a: seq<Value>, b: seq<Value>)
    ensures AssembleSpec(windows, a + b) == AssembleSpec(windows, a) + AssembleSpec(windows, b)
    decreases |b|
  {
    if b != [] {
      var b' := b[..|b| - 1];
      assert (a + b)[..|a + b| - 1] == a + b';
      AssembleSplits(windows, a, b');
    } else {
      assert a + b == a;
    }
  }

  /** Configs that find no data contribute nothing, whatever their order. */
  lemma {:induction false} AssembleNoData(windows: Value, cs: seq<Value>)
    requires forall c :: c in cs ==> !JsTruthy(JsGet(windows, JsString(JsGet(c, "windowTitle"))))
    ensures AssembleSpec(windows, cs) == ""
  {
    if cs != [] {
      AssembleNoData(windows, cs[..|cs| - 1]);
      assert cs[|cs| - 1] in cs;
    }
  }

  /** Legacy-synthesised configs carry `title` but no `windowTitle`, so they
      look up the key "undefined" and add nothing unless that key is set. */
  lemma LegacyConfigsAddNothing(windows: Value, keys: seq<string>)
    requires !JsTruthy(JsGet(windows, "undefined"))
    ensures AssembleSpec(windows, SortByOrder(KeyConfigs(keys))) == ""
  {
    var cs := KeyConfigs(keys);
    SortByOrderCorrect(cs);
    forall c | c in SortByOrder(cs) ensures !JsTruthy(JsGet(windows, JsString(JsGet(c, "windowTitle")))) {
      assert c in multiset(cs);
      var i :| 0 <= i < |cs| && cs[i] == c;
      KeyConfigFields(keys[i], i);
    }
    AssembleNoData(windows, SortByOrder(cs));
  }

  /** The refresh effect: while the module map has no keys or there are no
      configs the previous prompt stays; otherwise it is recomputed. */
  function Refresh(prompt: string, windows: Value, configs: seq<Value>): (r: string)
    ensures ObjectKeys(windows) == [] || configs == [] ==> r == prompt
    ensures ObjectKeys(windows) != [] && configs != [] ==> r == AssembleSpec(windows, SortByOrder(configs))
  {
    if |ObjectKeys(windows)| == 0 || |SortByOrder(configs)| == 0 then prompt
    else AssembleSpec(windows, SortByOrder(configs))
  }

  lemma SortByOrderLength(cs: seq<Value>)
    ensures |SortByOrder(cs)| == |cs|
  {
    SortByOrderCorrect(cs);
    assert |multiset(SortByOrder(cs))| == |multiset(cs)|;
  }
}
