/**
 * `parse_response` of llmos_core/Prompts/PromptMainBoard.py: extract the
 * first JSON fragment that decodes from an LLM reply and turn it into a list
 * of calls `{call_type, func_name, kwargs[, reasoning]}`.
 *
 * `json.loads` is a parameter (`None` standing for a JSONDecodeError). The
 * regular expression `` ```json\s*([\s\S]*?)\s*``` `` is modelled by what it
 * selects once stripped: the text between the first "```json" and the first
 * "```" after it.
 */
module ParseResponse {
  import opened Values

  // ---------------------------------------------------------------------
  // Text helpers

  /** The characters Python's `str.isspace()` accepts: space, U+0009 to
      U+000D, U+001C to U+001F, U+0085, U+00A0, U+1680, U+2000 to U+200A,
      U+2028, U+2029, U+202F, U+205F and U+3000. */
  predicate IsSpace(c: char)
  {
    c == ' ' || '\U{9}' <= c <= '\U{D}' || '\U{1C}' <= c <= '\U{1F}' ||
    c == '\U{85}' || c == '\U{A0}' || c == '\U{1680}' || '\U{2000}' <= c <= '\U{200A}' ||
    c == '\U{2028}' || c == '\U{2029}' || c == '\U{202F}' || c == '\U{205F}' || c == '\U{3000}'
  }

  function StripStart(s: string): (r: string)
    ensures |r| <= |s| && r == s[|s| - |r|..]
    ensures r == [] || !IsSpace(r[0])
    ensures forall i :: 0 <= i < |s| - |r| ==> IsSpace(s[i])
  {
    if s != [] && IsSpace(s[0]) then StripStart(s[1..]) else s
  }

  function StripEnd(s: string): (r: string)
    ensures |r| <= |s| && r == s[..|r|]
    ensures r == [] || !IsSpace(r[|r| - 1])
    ensures forall i :: |r| <= i < |s| ==> IsSpace(s[i])
  {
    if s != [] && IsSpace(s[|s| - 1]) then StripEnd(s[..|s| - 1]) else s
  }

  /** `str.strip()`: no whitespace left at either end. */
  function Strip(s: string): (r: string)
    ensures r == [] || (!IsSpace(r[0]) && !IsSpace(r[|r| - 1]))
  {
    var t := StripStart(s);
    var r := StripEnd(t);
    assert r != [] ==> r[0] == t[0];
    r
  }

  /** What `str.strip()` removes is whitespace only: the result is the
      slice of the input between a whitespace prefix and suffix. */
  lemma StripSlice(s: string)
    ensures var a := |s| - |StripStart(s)|;
            a + |Strip(s)| <= |s| && Strip(s) == s[a..a + |Strip(s)|] &&
            (forall i :: 0 <= i < a ==> IsSpace(s[i])) &&
            (forall i :: a + |Strip(s)| <= i < |s| ==> IsSpace(s[i]))
  {
    var t := StripStart(s);
    var r := StripEnd(t);
    assert Strip(s) == r;
    SliceBetween(s, t, r);
  }

  /** A suffix `t` of `s` after whitespace, cut down to a prefix `r` before
      whitespace, is the slice of `s` between the two runs. */
  lemma SliceBetween(s: string, t: string, r: string)
    requires |t| <= |s| && t == s[|s| - |t|..]
    requires forall i :: 0 <= i < |s| - |t| ==> IsSpace(s[i])
    requires |r| <= |t| && r == t[..|r|]
    requires forall i :: |r| <= i < |t| ==> IsSpace(t[i])
    ensures var a := |s| - |t|;
            a + |r| <= |s| && r == s[a..a + |r|] &&
            (forall i :: 0 <= i < a ==> IsSpace(s[i])) &&
            (forall i :: a + |r| <= i < |s| ==> IsSpace(s[i]))
  {
    var a := |s| - |t|;
    forall i | a + |r| <= i < |s| ensures IsSpace(s[i]) {
      assert s[i] == t[i - a];
    }
  }

  /** `str.strip()` is idempotent. */
  lemma StripIdempotent(s: string)
    ensures Strip(Strip(s)) == Strip(s)
  {
    var r := Strip(s);
    if r != [] {
      assert StripStart(r) == r;
      assert StripEnd(r) == r;
    }
  }

  predicate OccursAt(s: string, pat: string, i: nat)
  {
    i + |pat| <= |s| && s[i..i + |pat|] == pat
  }

  /** The first occurrence of `pat` at or after `from`. */
  function FindFrom(s: string, pat: string, from: nat): (r: Option<nat>)
    ensures r.Some? ==> from <= r.value && OccursAt(s, pat, r.value) &&
                        forall j :: from <= j < r.value ==> !OccursAt(s, pat, j)
    ensures r.None? ==> forall j :: from <= j ==> !OccursAt(s, pat, j)
    decreases |s| - from
  {
    if from + |pat| > |s| then None
    else if OccursAt(s, pat, from) then Some(from)
    else FindFrom(s, pat, from + 1)
  }

  /** Only the fenced part is scanned when a ```` ```json ```` fence is
      present. */
  function Unfence(s: string): string
  {
    match FindFrom(s, "```json", 0)
    case None => s
    case Some(p) =>
      match FindFrom(s, "```", p + 7)
      case None => s
      case Some(q) => Strip(s[p + 7..q])
  }

  /** Python `str.find(c)`: the first index of `c`, or -1. */
  function Find(s: string, c: char): (r: int)
    ensures -1 <= r < |s|
    ensures r == -1 <==> c !in s
    ensures r >= 0 ==> s[r] == c && forall j :: 0 <= j < r ==> s[j] != c
  {
    if s == [] then -1
    else if s[0] == c then 0
    else var t := Find(s[1..], c); if t == -1 then -1 else t + 1
  }

  /** The update of `start_index` for one bracket kind. */
  function Earlier(start: int, idx: int): int
  {
    if idx != -1 && (start == -1 || idx < start) then idx else start
  }

  predicate IsBracket(c: char)
  {
    c == '{' || c == '['
  }

  /** The first-bracket position the scan starts from, or -1. */
  function StartIndex(text: string): int
  {
    Earlier(Earlier(-1, Find(text, '{')), Find(text, '['))
  }

  /** -1 exactly when there is no bracket; otherwise the first bracket of
      either kind. In particular no bracket occurs before it, so the
      `start_pos < start_index` filter of the candidate scan never skips a
      position. */
  lemma StartIndexMeaning(text: string)
    ensures StartIndex(text) == -1 <==> forall i :: 0 <= i < |text| ==> !IsBracket(text[i])
    ensures StartIndex(text) != -1 ==> 0 <= StartIndex(text) < |text| && IsBracket(text[StartIndex(text)])
    ensures forall i :: 0 <= i < |text| && IsBracket(text[i]) ==> StartIndex(text) <= i
  {
    var a := Find(text, '{');
    var b := Find(text, '[');
    if StartIndex(text) == -1 {
      forall i | 0 <= i < |text| ensures !IsBracket(text[i]) {
        assert text[i] != '{' && text[i] != '[';
      }
    }
  }

  /** The `for char in ['{', '[']` loop locating the first bracket. */
  method FindStart(text: string) returns (start: int)
    ensures start == StartIndex(text)
  {
    start := -1;
    var chars := ['{', '['];
    for k := 0 to 2
      invariant k == 0 ==> start == -1
      invariant k == 1 ==> start == Earlier(-1, Find(text, '{'))
      invariant k == 2 ==> start == StartIndex(text)
    {
      var idx := Find(text, chars[k]);
      if idx != -1 && (start == -1 || idx < start) {
        start := idx;
      }
    }
  }

  // ---------------------------------------------------------------------
  // Bracket-balance candidates

  function Delta(c: char, open: char, close: char): int
  {
    if c == open then 1 else if c == close then -1 else 0
  }

  /** Opening minus closing brackets of one kind. */
  function Balance(s: string, open: char, close: char): int
  {
    if s == [] then 0 else Balance(s[..|s| - 1], open, close) + Delta(s[|s| - 1], open, close)
  }

  /** The inner loop from index `i` on, `balance` counting `text[pos..i]`:
      every end where the count is back to 0 is tried; the first fragment
      that decodes is taken. */
  function ScanFrom(text: string, pos: nat, i: nat, balance: int, open: char, close: char,
                    loads: string -> Option<Value>): Option<Value>
    requires pos <= i <= |text|
    decreases |text| - i
  {
    if i == |text| then None
    else
      var b := balance + Delta(text[i], open, close);
      if b == 0 && loads(text[pos..i + 1]).Some? then loads(text[pos..i + 1])
      else ScanFrom(text, pos, i + 1, b, open, close, loads)
  }

  /** The loop over the start positions of one bracket kind, from `p` on. */
  function ScanStarts(text: string, open: char, close: char, p: nat, startIndex: int,
                      loads: string -> Option<Value>): Option<Value>
    requires p <= |text|
    decreases |text| - p
  {
    if p == |text| then None
    else if text[p] == open && p >= startIndex then
      match ScanFrom(text, p, p, 0, open, close, loads)
      case Some(v) => Some(v)
      case None => ScanStarts(text, open, close, p + 1, startIndex, loads)
    else ScanStarts(text, open, close, p + 1, startIndex, loads)
  }

  /** All '{' starts are tried before any '[' start. */
  function FirstCandidate(text: string, startIndex: int, loads: string -> Option<Value>): Option<Value>
  {
    match ScanStarts(text, '{', '}', 0, startIndex, loads)
    case Some(v) => Some(v)
    case None => ScanStarts(text, '[', ']', 0, startIndex, loads)
  }

  /** A fragment `text[pos..end]` the scan can take: balanced and decoding. */
  predicate Takes(text: string, pos: nat, end: nat, open: char, close: char, loads: string -> Option<Value>)
    requires pos < end <= |text|
  {
    Balance(text[pos..end], open, close) == 0 && loads(text[pos..end]).Some?
  }

  /** The scan from one start position returns the decoding of the shortest
      balanced fragment that decodes. */
  lemma {:induction false} ScanFromFinds(text: string, pos: nat, i: nat, balance: int, open: char, close: char,
                                         loads: string -> Option<Value>)
    requires pos <= i <= |text|
    requires balance == Balance(text[pos..i], open, close)
    ensures ScanFrom(text, pos, i, balance, open, close, loads).Some? ==>
              exists e :: i < e <= |text| && Takes(text, pos, e, open, close, loads) &&
                          loads(text[pos..e]) == ScanFrom(text, pos, i, balance, open, close, loads) &&
                          forall e' :: i < e' < e ==> !Takes(text, pos, e', open, close, loads)
    ensures ScanFrom(text, pos, i, balance, open, close, loads).None? ==>
              forall e :: i < e <= |text| ==> !Takes(text, pos, e, open, close, loads)
    decreases |text| - i
  {
    if i < |text| {
      var b := balance + Delta(text[i], open, close);
      assert text[pos..i + 1][..i - pos] == text[pos..i];
      assert b == Balance(text[pos..i + 1], open, close);
      ScanFromFinds(text, pos, i + 1, b, open, close, loads);
    }
  }

  /** Start `s` can yield a candidate for this bracket kind: it holds the
      opening bracket, lies at or after the first bracket, and some
      balanced fragment from it decodes. */
  predicate Viable(text: string, s: int, open: char, close: char, startIndex: int, loads: string -> Option<Value>)
  {
    0 <= s < |text| && text[s] == open && s >= startIndex &&
    exists e :: s < e <= |text| && Takes(text, s, e, open, close, loads)
  }

  /** The scan over the starts from `p` on finds nothing exactly when no
      start there is viable; otherwise it returns the decoding of the
      shortest decodable fragment from the first viable start. */
  lemma ScanStartsExact(text: string, open: char, close: char, p: nat, startIndex: int,
                        loads: string -> Option<Value>)
    requires p <= |text|
    ensures ScanStarts(text, open, close, p, startIndex, loads).None? <==>
              forall s :: p <= s < |text| ==> !Viable(text, s, open, close, startIndex, loads)
    ensures ScanStarts(text, open, close, p, startIndex, loads).Some? ==>
              exists s, e :: p <= s < e <= |text| && Viable(text, s, open, close, startIndex, loads) &&
                             Takes(text, s, e, open, close, loads) &&
                             loads(text[s..e]) == ScanStarts(text, open, close, p, startIndex, loads) &&
                             (forall s' :: p <= s' < s ==> !Viable(text, s', open, close, startIndex, loads)) &&
                             (forall e' :: s < e' < e ==> !Takes(text, s, e', open, close, loads))
  {
    ScanStartsNone(text, open, close, p, startIndex, loads);
    ScanStartsFirst(text, open, close, p, startIndex, loads);
  }

  /** One start: the inner scan finds something exactly when it is viable. */
  lemma ViableStart(text: string, open: char, close: char, p: nat, startIndex: int,
                    loads: string -> Option<Value>)
    requires p < |text| && text[p] == open && p >= startIndex
    ensures ScanFrom(text, p, p, 0, open, close, loads).Some? <==> Viable(text, p, open, close, startIndex, loads)
    ensures ScanFrom(text, p, p, 0, open, close, loads).Some? ==>
              exists e :: p < e <= |text| && Takes(text, p, e, open, close, loads) &&
                          loads(text[p..e]) == ScanFrom(text, p, p, 0, open, close, loads) &&
                          forall e' :: p < e' < e ==> !Takes(text, p, e', open, close, loads)
  {
    assert text[p..p] == [];
    ScanFromFinds(text, p, p, 0, open, close, loads);
  }

  lemma {:induction false} ScanStartsNone(text: string, open: char, close: char, p: nat, startIndex: int,
                                          loads: string -> Option<Value>)
    requires p <= |text|
    ensures ScanStarts(text, open, close, p, startIndex, loads).None? <==>
              forall s :: p <= s < |text| ==> !Viable(text, s, open, close, startIndex, loads)
    decreases |text| - p
  {
    if p < |text| {
      ScanStartsNone(text, open, close, p + 1, startIndex, loads);
      if text[p] == open && p >= startIndex {
        ViableStart(text, open, close, p, startIndex, loads);
      }
    }
  }

  lemma {:induction false} ScanStartsFirst(text: string, open: char, close: char, p: nat, startIndex: int,
                                           loads: string -> Option<Value>)
    requires p <= |text|
    ensures ScanStarts(text, open, close, p, startIndex, loads).Some? ==>
              exists s, e :: p <= s < e <= |text| && Viable(text, s, open, close, startIndex, loads) &&
                             Takes(text, s, e, open, close, loads) &&
                             loads(text[s..e]) == ScanStarts(text, open, close, p, startIndex, loads) &&
                             (forall s' :: p <= s' < s ==> !Viable(text, s', open, close, startIndex, loads)) &&
                             (forall e' :: s < e' < e ==> !Takes(text, s, e', open, close, loads))
    decreases |text| - p
  {
    if p < |text| {
      ScanStartsFirst(text, open, close, p + 1, startIndex, loads);
      if text[p] == open && p >= startIndex {
        ViableStart(text, open, close, p, startIndex, loads);
      }
    }
  }

  /** No candidate at all exactly when neither bracket kind has a viable
      start; a `{` candidate, when there is one, is the one taken. */
  lemma FirstCandidateExact(text: string, startIndex: int, loads: string -> Option<Value>)
    ensures FirstCandidate(text, startIndex, loads).None? <==>
              forall s :: 0 <= s < |text| ==>
                !Viable(text, s, '{', '}', startIndex, loads) && !Viable(text, s, '[', ']', startIndex, loads)
    ensures (exists s :: 0 <= s < |text| && Viable(text, s, '{', '}', startIndex, loads)) ==>
              FirstCandidate(text, startIndex, loads) == ScanStarts(text, '{', '}', 0, startIndex, loads)
  {
    ScanStartsExact(text, '{', '}', 0, startIndex, loads);
    ScanStartsExact(text, '[', ']', 0, startIndex, loads);
  }

  /** On a cleaned text holding a bracket, `parse_response` raises the
      "no valid JSON" error exactly when no start of either kind is
      viable. */
  lemma NoViableStartFails(cleaned: string, loads: string -> Option<Value>)
    requires StartIndex(cleaned) != -1
    ensures var start := StartIndex(cleaned);
            ParseCleanedSpec(cleaned, loads) == Failure(NoValidJson(start)) <==>
              forall s :: 0 <= s < |cleaned| ==>
                !Viable(cleaned, s, '{', '}', start, loads) && !Viable(cleaned, s, '[', ']', start, loads)
  {
    var start := StartIndex(cleaned);
    FirstCandidateExact(cleaned, start, loads);
    var c := FirstCandidate(cleaned, start, loads);
    if c.Some? && TopItems(c.value).Some? {
      var items := TopItems(c.value).value;
      if Collect(Checks(items), 0, []).Failure? {
        CollectFirstFailure(Checks(items), 0, []);
      }
    }
  }

  /** A '{' fragment that decodes is preferred over any '[' fragment, even
      one enclosing it. */
  lemma {:induction false} BracePreferred(text: string, startIndex: int, loads: string -> Option<Value>, p: nat)
    requires p < |text| && text[p] == '{' && p >= startIndex
    requires ScanFrom(text, p, p, 0, '{', '}', loads).Some?
    ensures FirstCandidate(text, startIndex, loads) == ScanStarts(text, '{', '}', 0, startIndex, loads)
    ensures FirstCandidate(text, startIndex, loads).Some?
  {
    BraceScanFinds(text, startIndex, loads, p, 0);
  }

  lemma {:induction false} BraceScanFinds(text: string, startIndex: int, loads: string -> Option<Value>, p: nat, q: nat)
    requires q <= p < |text| && text[p] == '{' && p >= startIndex
    requires ScanFrom(text, p, p, 0, '{', '}', loads).Some?
    ensures ScanStarts(text, '{', '}', q, startIndex, loads).Some?
    decreases p - q
  {
    if q < p {
      BraceScanFinds(text, startIndex, loads, p, q + 1);
    }
  }

  /** The inner loops of the candidate search for one bracket kind. */
  method ScanKind(text: string, open: char, close: char, startIndex: int, loads: string -> Option<Value>)
    returns (found: Option<Value>)
    ensures found == ScanStarts(text, open, close, 0, startIndex, loads)
  {
    var p := 0;
    while p < |text|
      invariant 0 <= p <= |text|
      invariant ScanStarts(text, open, close, 0, startIndex, loads) == ScanStarts(text, open, close, p, startIndex, loads)
    {
      if text[p] == open && p >= startIndex {
        var balance := 0;
        var i := p;
        while i < |text|
          invariant p <= i <= |text|
          invariant ScanFrom(text, p, p, 0, open, close, loads) == ScanFrom(text, p, i, balance, open, close, loads)
        {
          if text[i] == open {
            balance := balance + 1;
          } else if text[i] == close {
            balance := balance - 1;
          }
          if balance == 0 {
            var parsed := loads(text[p..i + 1]);
            if parsed.Some? {
              return parsed;
            }
          }
          i := i + 1;
        }
      }
      p := p + 1;
    }
    return None;
  }

  // ---------------------------------------------------------------------
  // Structure validation

  datatype ParseError =
    | NoJsonStart                       // ValueError: no '{' or '['
    | NoValidJson(start: nat)           // ValueError: no candidate decodes
    | NotContainer                      // TypeError: neither dict nor list
    | ItemNotObject(index: nat)         // ValueError: item is not a dict
    | IllegalFields(illegal: set<string>)  // ValueError: keys outside the allowed four
    | MissingFields(missing: seq<string>)  // ValueError: call_type / func_name missing
    | KwargsNotDict                     // ValueError: kwargs is not a dict

  datatype Parsed = Calls(calls: seq<Value>) | Failure(error: ParseError)

  function AllowedKeys(): seq<string>
  {
    ["call_type", "func_name", "kwargs", "reasoning"]
  }

  function NeedKeys(): seq<string>
  {
    ["call_type", "func_name"]
  }

  /** `item.get(key, default)`. */
  function Get(fs: seq<Field>, key: string, default: Value): Value
  {
    match Lookup(fs, key)
    case Some(v) => v
    case None => default
  }

  function Illegal(fs: seq<Field>): set<string>
  {
    set k | k in Keys(fs) && k !in AllowedKeys()
  }

  function Missing(fs: seq<Field>): seq<string>
  {
    (if "call_type" in Keys(fs) then [] else ["call_type"]) +
    (if "func_name" in Keys(fs) then [] else ["func_name"])
  }

  /** The call built from one valid item. */
  function CallOf(fs: seq<Field>, kwargs: Value): Value
  {
    var reasoning := Get(fs, "reasoning", Null);
    Obj([ Field("call_type", Get(fs, "call_type", Null)),
          Field("func_name", Get(fs, "func_name", Null)),
          Field("kwargs", kwargs) ] +
        (if PyTruthy(reasoning) then [Field("reasoning", reasoning)] else []))
  }

  /** The outcome of checking one item. */
  datatype ItemCheck = Valid(call: Value) | Invalid(error: ParseError)

  /** One iteration of the item loop: the checks in source order. */
  function CheckItem(item: Value, idx: nat): ItemCheck
  {
    if !item.Obj? then Invalid(ItemNotObject(idx))
    else if Illegal(item.fields) != {} then Invalid(IllegalFields(Illegal(item.fields)))
    else if Missing(item.fields) != [] then Invalid(MissingFields(Missing(item.fields)))
    else
      var kwargs := Get(item.fields, "kwargs", Obj([]));
      if !kwargs.Obj? then Invalid(KwargsNotDict)
      else Valid(CallOf(item.fields, kwargs))
  }

  /** Every item checked, by position. */
  function Checks(items: seq<Value>): (cs: seq<ItemCheck>)
    ensures |cs| == |items| && forall k :: 0 <= k < |items| ==> cs[k] == CheckItem(items[k], k)
  {
    seq(|items|, k requires 0 <= k < |items| => CheckItem(items[k], k))
  }

  /** The item loop from index `idx` on, `acc` holding the calls so far:
      stop at the first invalid item. */
  function Collect(checks: seq<ItemCheck>, idx: nat, acc: seq<Value>): Parsed
    requires idx <= |checks|
    decreases |checks| - idx
  {
    if idx == |checks| then Calls(acc)
    else match checks[idx]
      case Invalid(e) => Failure(e)
      case Valid(c) => Collect(checks, idx + 1, acc + [c])
  }

  /** A dict is wrapped into a one-element list; a list is kept; anything
      else is a TypeError. */
  function TopItems(data: Value): Option<seq<Value>>
  {
    if data.Obj? then Some([data]) else if data.Arr? then Some(data.items) else None
  }

  /** The whole of `parse_response`. */
  function ParseSpec(responseText: string, loads: string -> Option<Value>): Parsed
  {
    ParseCleanedSpec(Unfence(Strip(responseText)), loads)
  }

  function ParseCleanedSpec(cleaned: string, loads: string -> Option<Value>): Parsed
  {
    var start := StartIndex(cleaned);
    if start == -1 then Failure(NoJsonStart)
    else match FirstCandidate(cleaned, start, loads)
      case None => Failure(NoValidJson(start))
      case Some(data) =>
        match TopItems(data)
        case None => Failure(NotContainer)
        case Some(items) => Collect(Checks(items), 0, [])
  }

  /** The `for start_char in ['{', '[']` loop: '[' starts are tried only
      when no '{' start yields a candidate. */
  method ExtractCandidate(cleaned: string, start: int, loads: string -> Option<Value>) returns (found: Option<Value>)
    ensures found == FirstCandidate(cleaned, start, loads)
  {
    found := ScanKind(cleaned, '{', '}', start, loads);
    if found.None? {
      found := ScanKind(cleaned, '[', ']', start, loads);
    }
  }

  /** The `for idx, item in enumerate(data)` loop. */
  method BuildCalls(items: seq<Value>) returns (r: Parsed)
    ensures r == Collect(Checks(items), 0, [])
  {
    var calls: seq<Value> := [];
    for idx := 0 to |items|
      invariant Collect(Checks(items), 0, []) == Collect(Checks(items), idx, calls)
    {
      var checked := CheckItem(items[idx], idx);
      if checked.Invalid? {
        return Failure(checked.error);
      }
      calls := calls + [checked.call];
    }
    return Calls(calls);
  }

  method ParseResponse(responseText: string, loads: string -> Option<Value>) returns (r: Parsed)
    ensures r == ParseSpec(responseText, loads)
  {
    var cleaned := Unfence(Strip(responseText));
    r := ParseCleaned(cleaned, loads);
  }

  /** The scan and the validation, on the cleaned text. */
  method ParseCleaned(cleaned: string, loads: string -> Option<Value>) returns (r: Parsed)
    ensures r == ParseCleanedSpec(cleaned, loads)
  {
    var start := FindStart(cleaned);
    if start == -1 {
      return Failure(NoJsonStart);
    }
    var found := ExtractCandidate(cleaned, start, loads);
    if found.None? {
      return Failure(NoValidJson(start));
    }
    var items := TopItems(found.value);
    if items.None? {
      return Failure(NotContainer);
    }
    r := BuildCalls(items.value);
  }

  // ---------------------------------------------------------------------
  // Properties

  /** A reply with no bracket after cleaning raises the no-start error. */
  lemma NoBracketFails(responseText: string, loads: string -> Option<Value>)
    requires forall c :: c in Unfence(Strip(responseText)) ==> !IsBracket(c)
    ensures ParseSpec(responseText, loads) == Failure(NoJsonStart)
  {
    var cleaned := Unfence(Strip(responseText));
    StartIndexMeaning(cleaned);
    assert forall i :: 0 <= i < |cleaned| ==> cleaned[i] in cleaned;
  }

  /** The item loop succeeds exactly when every item passes its checks. */
  lemma {:induction false} CollectAccepted(checks: seq<ItemCheck>, idx: nat, acc: seq<Value>)
    requires idx <= |checks|
    ensures Collect(checks, idx, acc).Calls? <==> forall k :: idx <= k < |checks| ==> checks[k].Valid?
    decreases |checks| - idx
  {
    if idx < |checks| && checks[idx].Valid? {
      CollectAccepted(checks, idx + 1, acc + [checks[idx].call]);
    }
  }

  /** On success there is one call per item, in item order. */
  lemma {:induction false} CollectElementwise(checks: seq<ItemCheck>, idx: nat, acc: seq<Value>)
    requires idx <= |checks|
    requires Collect(checks, idx, acc).Calls?
    ensures |Collect(checks, idx, acc).calls| == |acc| + |checks| - idx
    ensures Collect(checks, idx, acc).calls[..|acc|] == acc
    ensures forall k :: idx <= k < |checks| ==> checks[k] == Valid(Collect(checks, idx, acc).calls[|acc| + k - idx])
    decreases |checks| - idx
  {
    if idx < |checks| {
      var acc' := acc + [checks[idx].call];
      CollectElementwise(checks, idx + 1, acc');
      var r := Collect(checks, idx + 1, acc').calls;
      assert r[..|acc|] == r[..|acc'|][..|acc|];
      assert r[|acc|] == r[..|acc'|][|acc|];
      forall k | idx < k < |checks| ensures checks[k] == Valid(r[|acc| + k - idx]) {
        assert |acc'| + k - (idx + 1) == |acc| + k - idx;
      }
    }
  }

  /** On failure the error is that of the first item that fails. */
  lemma {:induction false} CollectFirstFailure(checks: seq<ItemCheck>, idx: nat, acc: seq<Value>)
    requires idx <= |checks|
    requires Collect(checks, idx, acc).Failure?
    ensures exists k :: idx <= k < |checks| && checks[k] == Invalid(Collect(checks, idx, acc).error) &&
                        forall k' :: idx <= k' < k ==> checks[k'].Valid?
    decreases |checks| - idx
  {
    if checks[idx].Valid? {
      CollectFirstFailure(checks, idx + 1, acc + [checks[idx].call]);
    }
  }

  /** The item loop on a decoded list: the calls are exactly the items'
      calls in order when every item is valid, and otherwise the error is
      that of the first invalid item. */
  lemma ItemsOutcome(items: seq<Value>)
    ensures Collect(Checks(items), 0, []).Calls? <==> forall k :: 0 <= k < |items| ==> CheckItem(items[k], k).Valid?
    ensures Collect(Checks(items), 0, []).Calls? ==>
              |Collect(Checks(items), 0, []).calls| == |items| &&
              forall k :: 0 <= k < |items| ==> CheckItem(items[k], k) == Valid(Collect(Checks(items), 0, []).calls[k])
    ensures Collect(Checks(items), 0, []).Failure? ==>
              exists k :: 0 <= k < |items| && CheckItem(items[k], k) == Invalid(Collect(Checks(items), 0, []).error) &&
                          forall k' :: 0 <= k' < k ==> CheckItem(items[k'], k').Valid?
  {
    var cs := Checks(items);
    ChecksOutcome(cs);
    var r := Collect(cs, 0, []);
    if r.Failure? {
      var k :| 0 <= k < |cs| && cs[k] == Invalid(r.error) && forall k' :: 0 <= k' < k ==> cs[k'].Valid?;
      assert CheckItem(items[k], k) == Invalid(r.error);
    }
  }

  /** `ItemsOutcome` for any sequence of item checks. */
  lemma ChecksOutcome(cs: seq<ItemCheck>)
    ensures Collect(cs, 0, []).Calls? <==> forall k :: 0 <= k < |cs| ==> cs[k].Valid?
    ensures Collect(cs, 0, []).Calls? ==>
              |Collect(cs, 0, []).calls| == |cs| &&
              forall k :: 0 <= k < |cs| ==> cs[k] == Valid(Collect(cs, 0, []).calls[k])
    ensures Collect(cs, 0, []).Failure? ==>
              exists k :: 0 <= k < |cs| && cs[k] == Invalid(Collect(cs, 0, []).error) &&
                          forall k' :: 0 <= k' < k ==> cs[k'].Valid?
  {
    CollectAccepted(cs, 0, []);
    if Collect(cs, 0, []).Calls? {
      CollectElementwise(cs, 0, []);
    } else {
      CollectFirstFailure(cs, 0, []);
    }
  }

  /** Each call holds exactly call_type, func_name and a dict kwargs, plus
      reasoning exactly when the item's reasoning is truthy. */
  lemma CallShape(item: Value, idx: nat)
    requires CheckItem(item, idx).Valid?
    ensures var c := CheckItem(item, idx).call;
            c.Obj? &&
            Keys(c.fields) == (if PyTruthy(Get(item.fields, "reasoning", Null))
                               then ["call_type", "func_name", "kwargs", "reasoning"]
                               else ["call_type", "func_name", "kwargs"]) &&
            Lookup(c.fields, "call_type") == Lookup(item.fields, "call_type") &&
            Lookup(c.fields, "func_name") == Lookup(item.fields, "func_name") &&
            Lookup(c.fields, "kwargs").Some? && Lookup(c.fields, "kwargs").value.Obj?
  {
    var c := CheckItem(item, idx).call;
    var fs := c.fields;
    KeysIndex(fs, 0);
    KeysIndex(fs, 1);
    KeysIndex(fs, 2);
    if |fs| == 4 {
      KeysIndex(fs, 3);
    }
    LookupAt(fs, 0, "call_type");
    LookupAt(fs, 1, "func_name");
    LookupAt(fs, 2, "kwargs");
  }

  /** An item with a key outside the allowed four (such as `{"extra":
      null}`, which also lacks both required keys) is rejected for exactly
      those keys, before the required keys are looked at. */
  lemma IllegalBeforeMissing(fs: seq<Field>, k: string, idx: nat)
    requires k in Keys(fs) && k !in AllowedKeys()
    ensures CheckItem(Obj(fs), idx) == Invalid(IllegalFields(Illegal(fs)))
    ensures k in Illegal(fs)
    ensures forall k' :: k' in Illegal(fs) <==> k' in Keys(fs) && k' !in AllowedKeys()
  {
  }

  /** A top-level dict gives exactly one call. */
  lemma DictWrapped(responseText: string, loads: string -> Option<Value>)
    requires ParseSpec(responseText, loads).Calls?
    requires var cleaned := Unfence(Strip(responseText));
             FirstCandidate(cleaned, StartIndex(cleaned), loads).Some? &&
             FirstCandidate(cleaned, StartIndex(cleaned), loads).value.Obj?
    ensures |ParseSpec(responseText, loads).calls| == 1
  {
    var cleaned := Unfence(Strip(responseText));
    var data := FirstCandidate(cleaned, StartIndex(cleaned), loads).value;
    ItemsOutcome([data]);
  }
}
