/**
 * JSON-like values shared by the browser client (JavaScript) and the
 * Python backend, with the parts of both languages' semantics that the
 * rest of the model depends on: insertion-ordered objects, JavaScript and
 * Python truthiness, JavaScript's string conversion, Python's `str()`,
 * `json.dumps(indent=2, ensure_ascii=False)` and Python dictionaries
 * keyed by hashable values.
 */
module Values {

  datatype Option<T> = None | Some(value: T)

  /** A decoded JSON value. `Undefined` exists only on the JavaScript side
      (a missing property); JSON numbers are modelled as integers. */
  datatype Value =
    | Undefined
    | Null
    | Bool(b: bool)
    | Num(n: int)
    | Str(s: string)
    | Arr(items: seq<Value>)
    | Obj(fields: seq<Field>)

  /** One property of an object; the sequence order is the insertion order,
      which is what `Object.keys` and Python dict iteration report. */
  datatype Field = Field(key: string, val: Value)

  // ---------------------------------------------------------------------
  // Insertion-ordered objects

  function Keys(fs: seq<Field>): (ks: seq<string>)
    ensures |ks| == |fs|
  {
    if fs == [] then [] else [fs[0].key] + Keys(fs[1..])
  }

  lemma {:induction false} KeysIndex(fs: seq<Field>, i: int)
    requires 0 <= i < |fs|
    ensures Keys(fs)[i] == fs[i].key
  {
    if i > 0 {
      KeysIndex(fs[1..], i - 1);
    }
  }

  lemma {:induction false} InKeys(fs: seq<Field>, k: string)
    ensures k in Keys(fs) <==> exists i :: 0 <= i < |fs| && fs[i].key == k
  {
    if fs != [] {
      InKeys(fs[1..], k);
      if k in Keys(fs[1..]) {
        var i :| 0 <= i < |fs[1..]| && fs[1..][i].key == k;
        assert fs[i + 1].key == k;
      }
      if exists i :: 0 <= i < |fs| && fs[i].key == k {
        var i :| 0 <= i < |fs| && fs[i].key == k;
        if i > 0 {
          assert fs[1..][i - 1].key == k;
        }
      }
    }
  }

  predicate UniqueKeys(fs: seq<Field>)
  {
    forall i, j :: 0 <= i < j < |fs| ==> fs[i].key != fs[j].key
  }

  function Lookup(fs: seq<Field>, k: string): (r: Option<Value>)
    ensures r.None? <==> k !in Keys(fs)
  {
    if fs == [] then None
    else if fs[0].key == k then Some(fs[0].val)
    else Lookup(fs[1..], k)
  }

  /** The first field named `k` is the one a lookup finds. */
  lemma {:induction false} LookupAt(fs: seq<Field>, i: nat, k: string)
    requires i < |fs| && fs[i].key == k
    requires forall j :: 0 <= j < i ==> fs[j].key != k
    ensures Lookup(fs, k) == Some(fs[i].val)
  {
    if i > 0 {
      LookupAt(fs[1..], i - 1, k);
    }
  }

  /** `obj[k] = v` in both languages: an existing key keeps its position,
      a new key is appended. */
  function Put(fs: seq<Field>, k: string, v: Value): seq<Field>
  {
    if fs == [] then [Field(k, v)]
    else if fs[0].key == k then
      var r := [Field(k, v)] + fs[1..];
      assert r[1..] == fs[1..];
      r
    else
      var rest := Put(fs[1..], k, v);
      var r := [fs[0]] + rest;
      assert r[1..] == rest;
      r
  }

  /** After `obj[k] = v` the key reads back `v`, every other key reads as
      before, and the key order changes only by appending a new key. */
  lemma {:induction false} PutLookup(fs: seq<Field>, k: string, v: Value)
    ensures k in Keys(fs) ==> Keys(Put(fs, k, v)) == Keys(fs)
    ensures k !in Keys(fs) ==> Keys(Put(fs, k, v)) == Keys(fs) + [k]
    ensures Lookup(Put(fs, k, v), k) == Some(v)
    ensures forall k' :: k' != k ==> Lookup(Put(fs, k, v), k') == Lookup(fs, k')
  {
    var r := Put(fs, k, v);
    if fs != [] {
      if fs[0].key == k {
        assert r[1..] == fs[1..];
      } else {
        PutLookup(fs[1..], k, v);
        assert r[1..] == Put(fs[1..], k, v);
      }
    }
  }

  /** Writing an existing key replaces that one field in place. */
  lemma {:induction false} PutAt(fs: seq<Field>, i: nat, k: string, v: Value)
    requires i < |fs| && fs[i].key == k
    requires forall j :: 0 <= j < i ==> fs[j].key != k
    ensures Put(fs, k, v) == fs[i := Field(k, v)]
  {
    if i > 0 {
      PutAt(fs[1..], i - 1, k, v);
      assert [fs[0]] + fs[1..][i - 1 := Field(k, v)] == fs[i := Field(k, v)];
    }
  }

  /** `delete obj[k]` / `del d[k]`: every field named `k` disappears and the
      others keep their order. */
  function Remove(fs: seq<Field>, k: string): (r: seq<Field>)
    ensures k !in Keys(r)
    ensures forall k' :: k' != k ==> Lookup(r, k') == Lookup(fs, k')
  {
    if fs == [] then []
    else if fs[0].key == k then Remove(fs[1..], k)
    else
      var rest := Remove(fs[1..], k);
      var r := [fs[0]] + rest;
      assert r[1..] == rest;
      r
  }

  /** Insertion order never repeats a key: `Put` keeps it so. */
  lemma {:induction false} PutKeepsUnique(fs: seq<Field>, k: string, v: Value)
    requires UniqueKeys(fs)
    ensures UniqueKeys(Put(fs, k, v))
  {
    var r := Put(fs, k, v);
    if fs != [] && fs[0].key != k {
      PutLookup(fs[1..], k, v);
    }
    if fs == [] {
    } else if fs[0].key == k {
      assert forall i :: 0 <= i < |r| ==> r[i].key == fs[i].key;
    } else {
      var rest := Put(fs[1..], k, v);
      PutKeepsUnique(fs[1..], k, v);
      assert r == [fs[0]] + rest;
      forall j | 0 <= j < |rest| ensures rest[j].key != fs[0].key {
        KeysIndex(rest, j);
        if k in Keys(fs[1..]) {
          assert Keys(rest) == Keys(fs[1..]);
          KeysIndex(fs[1..], j);
          assert fs[1..][j] == fs[j + 1];
        } else {
          assert Keys(rest) == Keys(fs[1..]) + [k];
          if j < |fs[1..]| {
            KeysIndex(fs[1..], j);
            assert fs[1..][j] == fs[j + 1];
          }
        }
      }
    }
  }

  /** JavaScript object spread `{...base, ...over}`: every field of `over`
      is written onto `base` in `over`'s order. */
  function Spread(base: seq<Field>, over: seq<Field>): (r: seq<Field>)
    decreases |over|
  {
    if over == [] then base else Spread(Put(base, over[0].key, over[0].val), over[1..])
  }

  lemma SpreadStep(base: seq<Field>, over: seq<Field>)
    requires over != []
    ensures Spread(base, over) == Spread(Put(base, over[0].key, over[0].val), over[1..])
  {
  }

  lemma {:induction false} SpreadLookup(base: seq<Field>, over: seq<Field>, k: string)
    requires UniqueKeys(over)
    decreases |over|
    ensures Lookup(Spread(base, over), k) ==
              if k in Keys(over) then Lookup(over, k) else Lookup(base, k)
  {
    if over != [] {
      assert Keys(over) == [over[0].key] + Keys(over[1..]);
      assert UniqueKeys(over[1..]);
      SpreadLookup(Put(base, over[0].key, over[0].val), over[1..], k);
      PutLookup(base, over[0].key, over[0].val);
      if k == over[0].key {
        InKeys(over[1..], k);
      }
    }
  }

  // ---------------------------------------------------------------------
  // Truthiness

  /** JavaScript `!!v`: undefined, null, false, 0 and "" are falsy; every
      object and array is truthy. */
  predicate JsTruthy(v: Value)
  {
    match v
    case Undefined => false
    case Null => false
    case Bool(b) => b
    case Num(n) => n != 0
    case Str(s) => s != ""
    case Arr(_) => true
    case Obj(_) => true
  }

  /** Python `bool(v)`: like JavaScript, except that empty lists and empty
      dicts are falsy too. */
  predicate PyTruthy(v: Value)
  {
    match v
    case Undefined => false
    case Null => false
    case Bool(b) => b
    case Num(n) => n != 0
    case Str(s) => s != ""
    case Arr(items) => items != []
    case Obj(fs) => fs != []
  }

  /** Python `a or b`. */
  function PyOr(a: Value, b: Value): Value
  {
    if PyTruthy(a) then a else b
  }

  // ---------------------------------------------------------------------
  // Numbers as text

  function DigitChar(d: nat): (c: char)
    requires d < 10
    ensures '0' <= c <= '9' && c as int - '0' as int == d
  {
    ('0' as int + d) as char
  }

  function NatToString(n: nat): (s: string)
    ensures |s| >= 1
    ensures forall i :: 0 <= i < |s| ==> '0' <= s[i] <= '9'
    ensures s[0] == '0' ==> n == 0
  {
    if n < 10 then [DigitChar(n)] else NatToString(n / 10) + [DigitChar(n % 10)]
  }

  function IntToString(i: int): string
  {
    if i < 0 then "-" + NatToString(-i) else NatToString(i)
  }

  lemma {:induction false} NatToStringInjective(a: nat, b: nat)
    requires NatToString(a) == NatToString(b)
    ensures a == b
  {
    if a >= 10 && b >= 10 {
      var sa, sb := NatToString(a / 10), NatToString(b / 10);
      assert sa == NatToString(a)[..|NatToString(a)| - 1];
      assert sb == NatToString(b)[..|NatToString(b)| - 1];
      NatToStringInjective(a / 10, b / 10);
      assert DigitChar(a % 10) == NatToString(a)[|NatToString(a)| - 1];
    }
  }

  // ---------------------------------------------------------------------
  // JavaScript property access and string conversion

  function Join(parts: seq<string>, sep: string): string
  {
    if parts == [] then ""
    else if |parts| == 1 then parts[0]
    else parts[0] + sep + Join(parts[1..], sep)
  }

  /** Joining one more part adds the separator and the part at the end. */
  lemma {:induction false} JoinSnoc(parts: seq<string>, x: string, sep: string)
    requires parts != []
    ensures Join(parts + [x], sep) == Join(parts, sep) + sep + x
    decreases |parts|
  {
    if |parts| > 1 {
      assert (parts + [x])[1..] == parts[1..] + [x];
      JoinSnoc(parts[1..], x, sep);
    } else {
      assert parts + [x] == [parts[0], x];
      assert [parts[0], x][1..] == [x];
    }
  }

  /** The index `i < len` whose decimal text is `key`, as a JavaScript
      array-index property name. */
  function IndexKey(key: string, len: nat): (r: Option<nat>)
    ensures r.Some? ==> r.value < len && NatToString(r.value) == key
  {
    IndexKeyFrom(key, 0, len)
  }

  function IndexKeyFrom(key: string, i: nat, len: nat): (r: Option<nat>)
    ensures r.Some? ==> i <= r.value < len && NatToString(r.value) == key
    decreases len - i
  {
    if i >= len then None
    else if NatToString(i) == key then Some(i)
    else IndexKeyFrom(key, i + 1, len)
  }

  /** `v[key]` for the own properties of a non-null value: an object's
      fields, an array's or string's indices and `length`. */
  function JsGet(v: Value, key: string): Value
  {
    match v
    case Obj(fs) => (match Lookup(fs, key) case Some(x) => x case None => Undefined)
    case Arr(items) =>
      if key == "length" then Num(|items|)
      else (match IndexKey(key, |items|) case Some(i) => items[i] case None => Undefined)
    case Str(s) =>
      if key == "length" then Num(|s|)
      else (match IndexKey(key, |s|) case Some(i) => Str([s[i]]) case None => Undefined)
    case _ => Undefined
  }

  // ---------------------------------------------------------------------
  // JavaScript property order

  /** Array indices are the numbers below `2^32 - 1`. */
  const ArrayIndexLimit: nat := 0xFFFF_FFFF

  predicate AllDigits(s: string)
  {
    forall i :: 0 <= i < |s| ==> '0' <= s[i] <= '9'
  }

  /** The number a string of decimal digits denotes. */
  function DigitsValue(s: string): nat
    requires AllDigits(s)
  {
    if s == [] then 0 else 10 * DigitsValue(s[..|s| - 1]) + (s[|s| - 1] as int - '0' as int)
  }

  lemma {:induction false} NatToStringValue(n: nat)
    ensures DigitsValue(NatToString(n)) == n
  {
    if n >= 10 {
      var s := NatToString(n);
      assert s[..|s| - 1] == NatToString(n / 10);
      NatToStringValue(n / 10);
    }
  }

  /** Digits without a leading zero are the decimal text of their value. */
  lemma {:induction false} CanonicalDigits(s: string)
    requires s != [] && AllDigits(s) && (s[0] != '0' || |s| == 1)
    ensures NatToString(DigitsValue(s)) == s
    ensures |s| > 1 ==> DigitsValue(s) >= 10
    decreases |s|
  {
    var p := s[..|s| - 1];
    if |s| == 1 {
      assert p == [];
    } else {
      CanonicalDigits(p);
      assert p[0] == s[0];
      assert s == p + [s[|s| - 1]];
    }
  }

  /** The array index a property key denotes: `Some(n)` exactly when the
      key is the decimal text of an `n` below `2^32 - 1` (see
      `ArrayIndexExact`). */
  function ArrayIndex(k: string): (r: Option<nat>)
    ensures r.Some? ==> r.value < ArrayIndexLimit && NatToString(r.value) == k
  {
    if k != [] && AllDigits(k) && (k[0] != '0' || |k| == 1) && DigitsValue(k) < ArrayIndexLimit then
      CanonicalDigits(k);
      Some(DigitsValue(k))
    else None
  }

  lemma ArrayIndexExact(k: string, n: nat)
    ensures ArrayIndex(k) == Some(n) <==> n < ArrayIndexLimit && NatToString(n) == k
  {
    if n < ArrayIndexLimit && NatToString(n) == k {
      NatToStringValue(n);
      if |k| > 1 {
        assert k[0] != '0';
      }
    }
  }

  /** The value a key is ordered by under `rank`; keys without a rank are
      never compared. */
  function RankOf(rank: string -> Option<nat>, k: string): nat
  {
    match rank(k)
    case Some(n) => n
    case None => 0
  }

  predicate Ascending(rank: string -> Option<nat>, ks: seq<string>)
  {
    forall i, j :: 0 <= i < j < |ks| ==> RankOf(rank, ks[i]) <= RankOf(rank, ks[j])
  }

  /** Places a key among keys kept in ascending order of rank. */
  function InsertByRank(rank: string -> Option<nat>, k: string, ks: seq<string>): (r: seq<string>)
    ensures forall x :: x in r <==> x == k || x in ks
    ensures multiset(r) == multiset(ks) + multiset{k}
  {
    if ks == [] || RankOf(rank, k) <= RankOf(rank, ks[0]) then
      [k] + ks
    else
      assert ks == [ks[0]] + ks[1..];
      [ks[0]] + InsertByRank(rank, k, ks[1..])
  }

  lemma {:induction false} InsertAscending(rank: string -> Option<nat>, k: string, ks: seq<string>)
    requires Ascending(rank, ks)
    ensures Ascending(rank, InsertByRank(rank, k, ks))
  {
    if ks != [] && RankOf(rank, ks[0]) < RankOf(rank, k) {
      InsertAscending(rank, k, ks[1..]);
      HeadBelow(rank, k, ks);
      ConsAscending(rank, ks[0], InsertByRank(rank, k, ks[1..]));
    } else if ks != [] {
      ConsAscending(rank, k, ks);
    }
  }

  lemma HeadBelow(rank: string -> Option<nat>, k: string, ks: seq<string>)
    requires Ascending(rank, ks) && ks != [] && RankOf(rank, ks[0]) < RankOf(rank, k)
    ensures forall x :: x in InsertByRank(rank, k, ks[1..]) ==> RankOf(rank, ks[0]) <= RankOf(rank, x)
  {
    forall x | x in InsertByRank(rank, k, ks[1..]) ensures RankOf(rank, ks[0]) <= RankOf(rank, x) {
      if x != k {
        var j :| 0 <= j < |ks[1..]| && ks[1..][j] == x;
        assert ks[j + 1] == x;
      }
    }
  }

  lemma ConsAscending(rank: string -> Option<nat>, x: string, tail: seq<string>)
    requires Ascending(rank, tail)
    requires forall y :: y in tail ==> RankOf(rank, x) <= RankOf(rank, y)
    ensures Ascending(rank, [x] + tail)
  {
    var r := [x] + tail;
    forall i, j | 0 <= i < j < |r| ensures RankOf(rank, r[i]) <= RankOf(rank, r[j]) {
      assert r[j] == tail[j - 1];
      if i > 0 {
        assert r[i] == tail[i - 1];
      }
    }
  }

  /** The ranked keys among `ks`, in ascending order of rank. */
  function RankedKeys(rank: string -> Option<nat>, ks: seq<string>): (r: seq<string>)
    ensures forall x :: x in r <==> x in ks && rank(x).Some?
  {
    if ks == [] then []
    else if rank(ks[0]).Some? then InsertByRank(rank, ks[0], RankedKeys(rank, ks[1..]))
    else RankedKeys(rank, ks[1..])
  }

  lemma {:induction false} RankedAscending(rank: string -> Option<nat>, ks: seq<string>)
    ensures Ascending(rank, RankedKeys(rank, ks))
  {
    if ks != [] {
      RankedAscending(rank, ks[1..]);
      if rank(ks[0]).Some? {
        InsertAscending(rank, ks[0], RankedKeys(rank, ks[1..]));
      }
    }
  }

  /** The unranked keys among `ks`, in their own order. */
  function UnrankedKeys(rank: string -> Option<nat>, ks: seq<string>): (r: seq<string>)
    ensures forall x :: x in r <==> x in ks && rank(x).None?
  {
    if ks == [] then []
    else if rank(ks[0]).Some? then UnrankedKeys(rank, ks[1..])
    else [ks[0]] + UnrankedKeys(rank, ks[1..])
  }

  lemma {:induction false} RankSplit(rank: string -> Option<nat>, ks: seq<string>)
    ensures multiset(RankedKeys(rank, ks)) + multiset(UnrankedKeys(rank, ks)) == multiset(ks)
  {
    if ks != [] {
      RankSplit(rank, ks[1..]);
      assert ks == [ks[0]] + ks[1..];
    }
  }

  lemma {:induction false} NoneRanked(rank: string -> Option<nat>, ks: seq<string>)
    requires forall i :: 0 <= i < |ks| ==> rank(ks[i]).None?
    ensures UnrankedKeys(rank, ks) == ks && RankedKeys(rank, ks) == []
  {
    if ks != [] {
      NoneRanked(rank, ks[1..]);
      assert ks == [ks[0]] + ks[1..];
    }
  }

  /** Ranked keys first, ascending, then the others in their own order
      (`OrderByRankShape`); a permutation of `ks`. */
  function OrderByRank(rank: string -> Option<nat>, ks: seq<string>): (r: seq<string>)
    ensures multiset(r) == multiset(ks) && |r| == |ks|
    ensures forall k :: k in r <==> k in ks
  {
    RankSplit(rank, ks);
    assert |RankedKeys(rank, ks) + UnrankedKeys(rank, ks)| == |multiset(ks)|;
    RankedKeys(rank, ks) + UnrankedKeys(rank, ks)
  }

  lemma OrderByRankShape(rank: string -> Option<nat>, ks: seq<string>)
    ensures var r := OrderByRank(rank, ks);
            var n := |RankedKeys(rank, ks)|;
            n <= |r| &&
            (forall i :: 0 <= i < n ==> rank(r[i]).Some?) &&
            (forall i :: n <= i < |r| ==> rank(r[i]).None?) &&
            Ascending(rank, r[..n]) && r[n..] == UnrankedKeys(rank, ks)
  {
    RankedAscending(rank, ks);
    var a := RankedKeys(rank, ks);
    var r := OrderByRank(rank, ks);
    assert r == a + UnrankedKeys(rank, ks);
    assert r[..|a|] == a && r[|a|..] == UnrankedKeys(rank, ks);
    forall i | 0 <= i < |a| ensures rank(r[i]).Some? {
      assert r[i] == a[i] && a[i] in a;
    }
    forall i | |a| <= i < |r| ensures rank(r[i]).None? {
      assert r[i] == UnrankedKeys(rank, ks)[i - |a|];
      assert r[i] in UnrankedKeys(rank, ks);
    }
  }

  /** The order in which JavaScript enumerates property keys held in
      insertion order `ks`: the array-index keys first, ascending by index,
      then the others in insertion order. */
  function JsKeyOrder(ks: seq<string>): (r: seq<string>)
    ensures multiset(r) == multiset(ks) && |r| == |ks|
    ensures forall k :: k in r <==> k in ks
  {
    OrderByRank(ArrayIndex, ks)
  }

  /** `JsKeyOrder` lists the `n` array-index keys first, in ascending
      numeric order, and then the other keys in insertion order. */
  lemma JsKeyOrderShape(ks: seq<string>) returns (n: nat)
    ensures var r := JsKeyOrder(ks);
            n <= |r| &&
            (forall i :: 0 <= i < n ==> ArrayIndex(r[i]).Some?) &&
            (forall i, j :: 0 <= i < j < n ==> ArrayIndex(r[i]).value <= ArrayIndex(r[j]).value) &&
            (forall i :: n <= i < |r| ==> ArrayIndex(r[i]).None?) &&
            r[n..] == UnrankedKeys(ArrayIndex, ks)
  {
    OrderByRankShape(ArrayIndex, ks);
    n := |RankedKeys(ArrayIndex, ks)|;
    var r := JsKeyOrder(ks);
    forall i, j | 0 <= i < j < n ensures ArrayIndex(r[i]).value <= ArrayIndex(r[j]).value {
      assert r[..n][i] == r[i] && r[..n][j] == r[j];
    }
  }

  /** Keys that do not start with a digit keep their insertion order. */
  lemma NamedKeysKeepOrder(ks: seq<string>)
    requires forall i :: 0 <= i < |ks| ==> ks[i] != [] && !('0' <= ks[i][0] <= '9')
    ensures JsKeyOrder(ks) == ks
  {
    forall i | 0 <= i < |ks| ensures ArrayIndex(ks[i]).None? {
      assert !AllDigits(ks[i]);
    }
    NoneRanked(ArrayIndex, ks);
    assert JsKeyOrder(ks) == [] + ks;
  }

  /** An index key is listed before a key inserted ahead of it:
      `Object.keys({kernel: a, "1": b})` is `["1", "kernel"]`. */
  lemma IndexKeyListedFirst(a: Value, b: Value)
    ensures ObjectKeys(Obj([Field("kernel", a), Field("1", b)])) == ["1", "kernel"]
  {
    var ks := ["kernel", "1"];
    assert Keys([Field("kernel", a), Field("1", b)]) == ks;
    assert ArrayIndex("1") == Some(1);
    assert ArrayIndex("kernel").None? by {
      assert "kernel"[0] == 'k';
    }
    assert RankedKeys(ArrayIndex, ks) == ["1"];
    assert UnrankedKeys(ArrayIndex, ks) == ["kernel"];
  }

  /** `Object.keys(v)`: an object's keys in JavaScript's enumeration order,
      the indices of an array or string, nothing for numbers and booleans. */
  function ObjectKeys(v: Value): (ks: seq<string>)
    ensures v.Obj? ==> |ks| == |v.fields| && forall k :: k in ks <==> k in Keys(v.fields)
  {
    match v
    case Obj(fs) => JsKeyOrder(Keys(fs))
    case Arr(items) => seq(|items|, i requires 0 <= i < |items| => NatToString(i))
    case Str(s) => seq(|s|, i requires 0 <= i < |s| => NatToString(i))
    case _ => []
  }

  /** `String(v)`, as used by template literals and by property keys. */
  function JsString(v: Value): string
  {
    match v
    case Undefined => "undefined"
    case Null => "null"
    case Bool(b) => if b then "true" else "false"
    case Num(n) => IntToString(n)
    case Str(s) => s
    case Arr(items) =>
      Join(seq(|items|, i requires 0 <= i < |items| =>
        if items[i].Null? || items[i].Undefined? then "" else JsString(items[i])), ",")
    case Obj(_) => "[object Object]"
  }

  function UpperAscii(c: char): char
  {
    if 'a' <= c <= 'z' then (c as int - 32) as char else c
  }

  /** `t.charAt(0).toUpperCase() + t.slice(1)`. */
  function Capitalize(t: string): (r: string)
    ensures |r| == |t|
    ensures |t| > 0 ==> r[0] == UpperAscii(t[0]) && r[1..] == t[1..]
  {
    if t == [] then [] else [UpperAscii(t[0])] + t[1..]
  }

  // ---------------------------------------------------------------------
  // Python text forms

  /** The quote `repr()` puts around a string: double quotes when the text
      holds a single quote and no double quote, single quotes otherwise. */
  function ReprQuote(s: string): char
  {
    if '\'' in s && '"' !in s then '"' else '\''
  }

  /** One character inside a `repr()` string quoted with `q`: the quote and
      the backslash are escaped, tab, newline and carriage return by name,
      other ASCII control characters as `\xhh`. */
  function ReprChar(c: char, q: char): string
  {
    if c == q || c == '\\' then ['\\', c]
    else if c == '\t' then "\\t"
    else if c == '\n' then "\\n"
    else if c == '\r' then "\\r"
    else if (c as int) < 0x20 || c as int == 0x7f then "\\x" + [HexDigit(c as int / 16), HexDigit(c as int % 16)]
    else [c]
  }

  function ReprBody(s: string, q: char): string
  {
    if s == [] then "" else ReprChar(s[0], q) + ReprBody(s[1..], q)
  }

  /** Python `repr()` of a string. */
  function StrRepr(s: string): (r: string)
    ensures |r| >= |s| + 2 && r[0] == ReprQuote(s) && r[|r| - 1] == ReprQuote(s)
  {
    ReprBodyLength(s, ReprQuote(s));
    [ReprQuote(s)] + ReprBody(s, ReprQuote(s)) + [ReprQuote(s)]
  }

  lemma {:induction false} ReprBodyLength(s: string, q: char)
    ensures |ReprBody(s, q)| >= |s|
  {
    if s != [] {
      ReprBodyLength(s[1..], q);
    }
  }

  /** A character `repr()` copies as it is, whichever quote it picks. */
  predicate ReprPlain(c: char)
  {
    c != '\'' && c != '"' && c != '\\' && 0x20 <= c as int && c as int != 0x7f
  }

  /** A text without quotes, backslashes or control characters is shown
      between single quotes as it is. */
  lemma {:induction false} PlainStrRepr(s: string)
    requires forall i :: 0 <= i < |s| ==> ReprPlain(s[i])
    ensures StrRepr(s) == "'" + s + "'"
  {
    PlainReprBody(s, '\'');
  }

  lemma {:induction false} PlainReprBody(s: string, q: char)
    requires forall i :: 0 <= i < |s| ==> ReprPlain(s[i])
    requires q == '\'' || q == '"'
    ensures ReprBody(s, q) == s
  {
    if s != [] {
      PlainReprBody(s[1..], q);
      assert s == [s[0]] + s[1..];
    }
  }

  /** A text holding a single quote and no double quote is shown between
      double quotes, its single quotes left unescaped. */
  lemma ApostropheSwitchesQuote(s: string)
    requires '\'' in s && '"' !in s
    ensures StrRepr(s)[0] == '"'
    ensures ReprChar('\'', ReprQuote(s)) == "'"
  {
  }

  /** Python `repr()` of a value. */
  function PyRepr(v: Value): string
  {
    match v
    case Str(s) => StrRepr(s)
    case Undefined => "None"
    case Null => "None"
    case Bool(b) => if b then "True" else "False"
    case Num(n) => IntToString(n)
    case Arr(items) =>
      "[" + Join(seq(|items|, i requires 0 <= i < |items| => PyRepr(items[i])), ", ") + "]"
    case Obj(fs) =>
      "{" + Join(seq(|fs|, i requires 0 <= i < |fs| =>
        StrRepr(fs[i].key) + ": " + PyRepr(fs[i].val)), ", ") + "}"
  }

  /** Python `str()` / f-string interpolation of a value. */
  function PyStr(v: Value): string
  {
    if v.Str? then v.s else PyRepr(v)
  }

  // ---------------------------------------------------------------------
  // json.dumps(v, indent=2, ensure_ascii=False)

  function HexDigit(d: nat): char
    requires d < 16
  {
    "0123456789abcdef"[d]
  }

  function EscapeChar(c: char): string
  {
    if c == '"' then "\\\""
    else if c == '\\' then "\\\\"
    else if c == '\n' then "\\n"
    else if c == '\r' then "\\r"
    else if c == '\t' then "\\t"
    else if c == '\U{8}' then "\\b"
    else if c == '\U{C}' then "\\f"
    else if (c as int) < 0x20 then "\\u00" + [HexDigit(c as int / 16), HexDigit(c as int % 16)]
    else [c]
  }

  function EscapeString(s: string): string
  {
    if s == [] then "" else EscapeChar(s[0]) + EscapeString(s[1..])
  }

  function Quote(s: string): (r: string)
    ensures |r| >= 2 && r[0] == '"'
  {
    "\"" + EscapeString(s) + "\""
  }

  function Indent(level: nat): string
  {
    seq(2 * level, _ => ' ')
  }

  function DumpAt(v: Value, level: nat): (r: string)
    ensures r != ""
  {
    match v
    case Undefined => "null"
    case Null => "null"
    case Bool(b) => if b then "true" else "false"
    case Num(n) => assert |IntToString(n)| >= 1; IntToString(n)
    case Str(s) => Quote(s)
    case Arr(items) =>
      if items == [] then "[]"
      else "[\n" + Join(seq(|items|, i requires 0 <= i < |items| =>
               Indent(level + 1) + DumpAt(items[i], level + 1)), ",\n")
           + "\n" + Indent(level) + "]"
    case Obj(fs) =>
      if fs == [] then "{}"
      else "{\n" + Join(seq(|fs|, i requires 0 <= i < |fs| =>
               Indent(level + 1) + Quote(fs[i].key) + ": " + DumpAt(fs[i].val, level + 1)), ",\n")
           + "\n" + Indent(level) + "}"
  }

  function Dumps(v: Value): (r: string)
    ensures r != ""
  {
    DumpAt(v, 0)
  }

  // ---------------------------------------------------------------------
  // Python dictionaries with hashable keys

  /** Keys a Python dict accepts among decoded values; lists and dicts
      raise `TypeError: unhashable type`. */
  predicate Hashable(v: Value)
  {
    v.Null? || v.Bool? || v.Num? || v.Str?
  }

  /** The integer a bool or int stands for in Python arithmetic and
      comparison (`True == 1`). */
  function NumberOf(v: Value): Option<int>
  {
    match v
    case Bool(b) => Some(if b then 1 else 0)
    case Num(n) => Some(n)
    case _ => None
  }

  /** Python `==` on decoded values: bools compare equal to the integers
      they stand for, lists element-wise, dicts regardless of order. */
  predicate PyEq(a: Value, b: Value)
  {
    if NumberOf(a).Some? || NumberOf(b).Some? then NumberOf(a) == NumberOf(b)
    else match a
      case Arr(xs) =>
        b.Arr? && |xs| == |b.items| && forall i :: 0 <= i < |xs| ==> PyEq(xs[i], b.items[i])
      case Obj(fs) =>
        b.Obj? && |Keys(fs)| == |Keys(b.fields)| &&
        forall i :: 0 <= i < |fs| ==>
          (exists j :: 0 <= j < |b.fields| && b.fields[j].key == fs[i].key && PyEq(fs[i].val, b.fields[j].val))
      case Undefined => b.Undefined? || b.Null?
      case Null => b.Undefined? || b.Null?
      case _ => a == b
  }

  /** Python `==` between two hashable values, the comparison a dict makes
      between keys. */
  predicate KeyEq(a: Value, b: Value)
  {
    if NumberOf(a).Some? || NumberOf(b).Some? then NumberOf(a) == NumberOf(b)
    else if a.Null? || a.Undefined? then b.Null? || b.Undefined?
    else a == b
  }

  lemma KeyEqIsPyEq(a: Value, b: Value)
    requires Hashable(a) && Hashable(b)
    ensures KeyEq(a, b) == PyEq(a, b)
  {
  }

  datatype Entry = Entry(key: Value, val: Value)

  /** A Python dict in insertion order. */
  type PyDict = seq<Entry>

  function DictKeys(d: PyDict): (ks: seq<Value>)
    ensures |ks| == |d| && forall i :: 0 <= i < |d| ==> ks[i] == d[i].key
  {
    seq(|d|, i requires 0 <= i < |d| => d[i].key)
  }

  /** Position of the entry whose key equals `k`, or `|d|`. */
  function DictFind(d: PyDict, k: Value): (i: nat)
    ensures i <= |d|
    ensures i < |d| ==> KeyEq(d[i].key, k)
    ensures forall j :: 0 <= j < i ==> !KeyEq(d[j].key, k)
  {
    if d == [] then 0
    else if KeyEq(d[0].key, k) then 0
    else 1 + DictFind(d[1..], k)
  }

  /** `k in d`. */
  predicate DictHas(d: PyDict, k: Value)
  {
    DictFind(d, k) < |d|
  }

  /** `d.get(k)`: `None` when the key is absent. */
  function DictGet(d: PyDict, k: Value): Value
  {
    var i := DictFind(d, k);
    if i < |d| then d[i].val else Null
  }

  /** `d[k] = v`: an existing key keeps its original key object and its
      position; a new key is appended. */
  function DictPut(d: PyDict, k: Value, v: Value): (r: PyDict)
    ensures DictHas(d, k) ==> |r| == |d| && DictKeys(r) == DictKeys(d)
    ensures !DictHas(d, k) ==> r == d + [Entry(k, v)]
  {
    var i := DictFind(d, k);
    if i < |d| then d[i := Entry(d[i].key, v)] else d + [Entry(k, v)]
  }

  /** `del d[k]` for a key that is present. */
  function DictDelete(d: PyDict, k: Value): (r: PyDict)
    requires DictHas(d, k)
    ensures |r| == |d| - 1
  {
    var i := DictFind(d, k);
    d[..i] + d[i + 1..]
  }

  /** Python `json.dumps` of a dict whose keys are decoded scalars: keys
      are written as JSON strings. */
  function DictDumps(d: PyDict): (r: string)
    ensures r != ""
  {
    Dumps(Obj(seq(|d|, i requires 0 <= i < |d| => Field(DictKeyText(d[i].key), d[i].val))))
  }

  /** The text `json.dumps` uses for a non-string key. */
  function DictKeyText(k: Value): string
  {
    match k
    case Str(s) => s
    case Num(n) => IntToString(n)
    case Bool(b) => if b then "true" else "false"
    case _ => "null"
  }

  /** Python `str(d)` of a dict. */
  function DictRepr(d: PyDict): string
  {
    "{" + Join(seq(|d|, i requires 0 <= i < |d| => PyRepr(d[i].key) + ": " + PyRepr(d[i].val)), ", ") + "}"
  }

  /** Every key is hashable and no two keys are equal under Python `==`,
      as in any dict Python builds. */
  predicate DictValid(d: PyDict)
  {
    (forall i :: 0 <= i < |d| ==> Hashable(d[i].key)) &&
    (forall i, j :: 0 <= i < j < |d| ==> !KeyEq(d[i].key, d[j].key))
  }

  /** `DictFind` is the first position holding the key. */
  lemma FindIs(d: PyDict, k: Value, f: nat)
    requires f <= |d|
    requires f < |d| ==> KeyEq(d[f].key, k)
    requires forall j :: 0 <= j < f ==> !KeyEq(d[j].key, k)
    ensures DictFind(d, k) == f
  {
  }

  lemma KeyEqEquivalence(a: Value, b: Value, c: Value)
    ensures KeyEq(a, a)
    ensures KeyEq(a, b) ==> KeyEq(b, a)
    ensures KeyEq(a, b) && KeyEq(b, c) ==> KeyEq(a, c)
  {
  }

  /** Reading back after `d[k] = v`: the new value under `k`, the old one
      under every other key. */
  lemma DictPutGet(d: PyDict, k: Value, v: Value, k2: Value)
    ensures DictGet(DictPut(d, k, v), k2) == if KeyEq(k, k2) then v else DictGet(d, k2)
    ensures DictHas(DictPut(d, k, v), k2) <==> KeyEq(k, k2) || DictHas(d, k2)
  {
    if KeyEq(k, k2) {
      DictPutSame(d, k, v, k2);
    } else {
      DictPutOther(d, k, v, k2);
    }
  }

  lemma DictPutSame(d: PyDict, k: Value, v: Value, k2: Value)
    requires KeyEq(k, k2)
    ensures DictFind(DictPut(d, k, v), k2) == DictFind(d, k) && DictFind(d, k) <= |d|
    ensures DictPut(d, k, v)[DictFind(d, k)].val == v
  {
    var i := DictFind(d, k);
    var r := DictPut(d, k, v);
    forall j | 0 <= j < i ensures !KeyEq(r[j].key, k2) {
      assert r[j] == d[j];
      KeyEqEquivalence(d[j].key, k2, k);
      KeyEqEquivalence(k, k2, k);
    }
    if i < |d| {
      KeyEqEquivalence(d[i].key, k, k2);
    }
    FindIs(r, k2, i);
  }

  lemma DictPutOther(d: PyDict, k: Value, v: Value, k2: Value)
    requires !KeyEq(k, k2)
    ensures DictFind(DictPut(d, k, v), k2) == DictFind(d, k2) ||
            (DictFind(d, k2) == |d| && DictFind(DictPut(d, k, v), k2) == |DictPut(d, k, v)|)
    ensures DictFind(d, k2) < |d| ==> DictPut(d, k, v)[DictFind(d, k2)] == d[DictFind(d, k2)]
  {
    var i := DictFind(d, k);
    var r := DictPut(d, k, v);
    var f := DictFind(d, k2);
    assert forall j :: 0 <= j < |d| ==> r[j].key == d[j].key;
    if i < |d| {
      KeyEqEquivalence(d[i].key, k, k2);
      KeyEqEquivalence(k, d[i].key, k2);
      assert !KeyEq(d[i].key, k2);
      assert f != i;
      FindIs(r, k2, f);
    } else if f < |d| {
      FindIs(r, k2, f);
    } else {
      assert r[|d|].key == k;
      FindIs(r, k2, |r|);
    }
  }

  /** `d[k] = v` keeps a dict valid. */
  lemma DictPutValid(d: PyDict, k: Value, v: Value)
    requires DictValid(d) && Hashable(k)
    ensures DictValid(DictPut(d, k, v))
  {
    var r := DictPut(d, k, v);
    var i := DictFind(d, k);
    if i == |d| {
      assert forall j :: 0 <= j < |d| ==> !KeyEq(d[j].key, k);
    } else {
      assert forall j :: 0 <= j < |d| ==> r[j].key == d[j].key;
    }
  }

  /** After `del d[k]` the key is gone, every other key keeps its value,
      and the dict stays valid. */
  lemma DictDeleteGet(d: PyDict, k: Value, k2: Value)
    requires DictValid(d) && DictHas(d, k)
    ensures DictValid(DictDelete(d, k))
    ensures DictGet(DictDelete(d, k), k2) == if KeyEq(k, k2) then Null else DictGet(d, k2)
    ensures DictHas(DictDelete(d, k), k2) <==> !KeyEq(k, k2) && DictHas(d, k2)
  {
    DictDeleteShape(d, k);
    if KeyEq(k, k2) {
      DictDeleteSame(d, k, k2);
    } else {
      DictDeleteOther(d, k, k2);
    }
  }

  lemma DictDeleteShape(d: PyDict, k: Value)
    requires DictValid(d) && DictHas(d, k)
    ensures DictValid(DictDelete(d, k))
    ensures forall j :: 0 <= j < DictFind(d, k) ==> DictDelete(d, k)[j] == d[j]
    ensures forall j :: DictFind(d, k) <= j < |d| - 1 ==> DictDelete(d, k)[j] == d[j + 1]
  {
    var i := DictFind(d, k);
    assert DictDelete(d, k) == d[..i] + d[i + 1..];
    RemoveIndex(d, i);
  }

  /** Removing the entry at `i` keeps the others in order and keeps the
      dict valid. */
  lemma RemoveIndex(d: PyDict, i: nat)
    requires DictValid(d) && i < |d|
    ensures var r := d[..i] + d[i + 1..];
            |r| == |d| - 1 && DictValid(r) &&
            (forall j :: 0 <= j < i ==> r[j] == d[j]) &&
            (forall j :: i <= j < |r| ==> r[j] == d[j + 1])
  {
    var r := d[..i] + d[i + 1..];
    forall a, b | 0 <= a < b < |r| ensures !KeyEq(r[a].key, r[b].key) {
      var a' := if a < i then a else a + 1;
      var b' := if b < i then b else b + 1;
      assert r[a] == d[a'] && r[b] == d[b'];
    }
  }

  lemma DictDeleteSame(d: PyDict, k: Value, k2: Value)
    requires DictValid(d) && DictHas(d, k) && KeyEq(k, k2)
    requires forall j :: 0 <= j < DictFind(d, k) ==> DictDelete(d, k)[j] == d[j]
    requires forall j :: DictFind(d, k) <= j < |d| - 1 ==> DictDelete(d, k)[j] == d[j + 1]
    ensures DictFind(DictDelete(d, k), k2) == |DictDelete(d, k)|
  {
    var i := DictFind(d, k);
    var r := DictDelete(d, k);
    forall j | 0 <= j < |r| ensures !KeyEq(r[j].key, k2) {
      if j < i {
        KeyEqEquivalence(d[j].key, k2, k);
        KeyEqEquivalence(k, k2, k);
      } else {
        assert r[j] == d[j + 1];
        assert !KeyEq(d[i].key, d[j + 1].key);
        KeyEqEquivalence(d[i].key, k, k2);
        KeyEqEquivalence(d[j + 1].key, k2, d[i].key);
        KeyEqEquivalence(d[i].key, k2, k2);
        KeyEqEquivalence(k2, d[i].key, d[i].key);
      }
    }
    FindIs(r, k2, |r|);
  }

  lemma DictDeleteOther(d: PyDict, k: Value, k2: Value)
    requires DictHas(d, k) && !KeyEq(k, k2)
    requires forall j :: 0 <= j < DictFind(d, k) ==> DictDelete(d, k)[j] == d[j]
    requires forall j :: DictFind(d, k) <= j < |d| - 1 ==> DictDelete(d, k)[j] == d[j + 1]
    ensures DictGet(DictDelete(d, k), k2) == DictGet(d, k2)
    ensures DictHas(DictDelete(d, k), k2) <==> DictHas(d, k2)
  {
    DeleteFindOther(d, k, k2);
  }

  /** Where another key sits once `k` is deleted: the same entry, at the
      same or the previous position. */
  lemma DeleteFindOther(d: PyDict, k: Value, k2: Value)
    requires DictHas(d, k) && !KeyEq(k, k2)
    requires forall j :: 0 <= j < DictFind(d, k) ==> DictDelete(d, k)[j] == d[j]
    requires forall j :: DictFind(d, k) <= j < |d| - 1 ==> DictDelete(d, k)[j] == d[j + 1]
    ensures DictFind(DictDelete(d, k), k2) < |DictDelete(d, k)| <==> DictFind(d, k2) < |d|
    ensures DictFind(d, k2) < |d| ==>
              DictDelete(d, k)[DictFind(DictDelete(d, k), k2)] == d[DictFind(d, k2)]
  {
    var i := DictFind(d, k);
    var f := DictFind(d, k2);
    KeyEqEquivalence(d[i].key, k, k2);
    KeyEqEquivalence(k, d[i].key, k2);
    assert !KeyEq(d[i].key, k2);
    if f < i {
      FindIs(DictDelete(d, k), k2, f);
    } else if f < |d| {
      DeleteFindAfter(d, k, k2);
    } else {
      DeleteFindAbsent(d, k, k2);
    }
  }

  lemma DeleteFindAfter(d: PyDict, k: Value, k2: Value)
    requires DictHas(d, k) && DictFind(d, k) < DictFind(d, k2) < |d|
    requires forall j :: 0 <= j < DictFind(d, k) ==> DictDelete(d, k)[j] == d[j]
    requires forall j :: DictFind(d, k) <= j < |d| - 1 ==> DictDelete(d, k)[j] == d[j + 1]
    ensures DictFind(DictDelete(d, k), k2) == DictFind(d, k2) - 1
  {
    var i := DictFind(d, k);
    var r := DictDelete(d, k);
    var f := DictFind(d, k2);
    forall j | 0 <= j < f - 1 ensures !KeyEq(r[j].key, k2) {
      if j >= i {
        assert r[j] == d[j + 1];
      } else {
        assert r[j] == d[j];
      }
    }
    assert r[f - 1] == d[f];
    FindIs(r, k2, f - 1);
  }

  lemma DeleteFindAbsent(d: PyDict, k: Value, k2: Value)
    requires DictHas(d, k) && DictFind(d, k2) == |d|
    requires forall j :: 0 <= j < DictFind(d, k) ==> DictDelete(d, k)[j] == d[j]
    requires forall j :: DictFind(d, k) <= j < |d| - 1 ==> DictDelete(d, k)[j] == d[j + 1]
    ensures DictFind(DictDelete(d, k), k2) == |DictDelete(d, k)|
  {
    var i := DictFind(d, k);
    var r := DictDelete(d, k);
    forall j | 0 <= j < |r| ensures !KeyEq(r[j].key, k2) {
      if j >= i {
        assert r[j] == d[j + 1];
      } else {
        assert r[j] == d[j];
      }
    }
    FindIs(r, k2, |r|);
  }

  // ---------------------------------------------------------------------
  // Keyword arguments and Python operators

  /** `kwargs.get(key, default)`. */
  function GetOr(kwargs: seq<Field>, key: string, default: Value): Value
  {
    match Lookup(kwargs, key)
    case Some(v) => v
    case None => default
  }

  /** Where Python's slice `s[a:]` (or `s[:a]`) starts (or stops) in a
      sequence of length `len`. */
  function SliceBound(len: nat, a: int): (k: nat)
    ensures k <= len
  {
    if a < 0 then (if len + a < 0 then 0 else len + a) else if a > len then len else a
  }

  /** Python `s[a:]`. */
  function PyFrom<T>(s: seq<T>, a: int): seq<T>
  {
    s[SliceBound(|s|, a)..]
  }

  /** Python `s[:b]`. */
  function PyUpTo<T>(s: seq<T>, b: int): seq<T>
  {
    s[..SliceBound(|s|, b)]
  }

  /** Python `a + b` on decoded values; `None` where Python raises
      `TypeError`. */
  function PyAdd(a: Value, b: Value): Option<Value>
  {
    if a.Str? && b.Str? then Some(Str(a.s + b.s))
    else if a.Arr? && b.Arr? then Some(Arr(a.items + b.items))
    else if NumberOf(a).Some? && NumberOf(b).Some? then Some(Num(NumberOf(a).value + NumberOf(b).value))
    else None
  }

  /** Python `a < b` on strings: lexicographic by code point. */
  predicate StrLess(a: string, b: string)
  {
    if a == [] then b != []
    else if b == [] then false
    else if a[0] != b[0] then a[0] < b[0]
    else StrLess(a[1..], b[1..])
  }

  /** Python `s.upper()` restricted to ASCII letters. */
  function UpperString(s: string): (r: string)
    ensures |r| == |s|
  {
    seq(|s|, i requires 0 <= i < |s| => UpperAscii(s[i]))
  }
}
