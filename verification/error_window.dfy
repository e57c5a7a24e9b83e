/**
 * The error window (Windows/error_window/error_window.py): a log of the
 * errors the model's replies produced, kept to the latest fifty records,
 * with a running total and a count per error type. Its handlers record an
 * error, query the log by type, clear it (all of it, or the records older
 * than a time stamp), report the statistics and suggest a fix for a
 * recorded error. The clock reading a record is stamped with is a
 * parameter.
 */
module ErrorWindow {
  import opened Values
  import opened BaseWindow

  /** One record; `resolved` is always `False`. */
  datatype ErrorRecord = ErrorRecord(id: int, timestamp: string, errorType: Value, message: Value, context: Value)

  /** The window's state: the records and `error_stats` (whose
      `recent_errors` list stays empty and is left out). */
  datatype ErrorLog = ErrorLog(records: seq<ErrorRecord>, total: nat, byType: PyDict)

  /** `max_records`. */
  const MaxRecords := 50
  /** How many records the prompt shows. */
  const ShownRecords := 5
  /** How many items of a message the prompt shows. */
  const MessageHeadLength := 50

  function EmptyLog(): ErrorLog
  {
    ErrorLog([], 0, [])
  }

  function ErrorHandlers(): set<string>
  {
    {"error_record", "error_query", "error_clear", "error_statistics", "error_suggest_fix"}
  }

  /** A record as the query reply lists it. */
  function RecordValue(r: ErrorRecord): Value
  {
    Obj([ Field("id", Num(r.id)), Field("timestamp", Str(r.timestamp)), Field("error_type", r.errorType),
          Field("error_message", r.message), Field("context", r.context), Field("resolved", Bool(false)) ])
  }

  // ---------------------------------------------------------------------
  // Counts per type

  function Count(v: Value): int
  {
    if v.Num? then v.n else 0
  }

  /** The sum of the per-type counts. */
  function Tally(d: PyDict): int
    decreases |d|
  {
    if d == [] then 0 else Tally(d[..|d| - 1]) + Count(d[|d| - 1].val)
  }

  /** `errors_by_type[t] += 1`, or `= 1` for a new type. */
  function Bump(d: PyDict, t: Value): PyDict
  {
    if DictHas(d, t) then DictPut(d, t, Num(Count(DictGet(d, t)) + 1)) else DictPut(d, t, Num(1))
  }

  /** The per-type counts are positive, keyed by distinct hashable types,
      and add up to at most the total (a record whose type cannot be a
      dict key is counted in the total only). */
  predicate Counted(log: ErrorLog)
  {
    DictValid(log.byType) &&
    (forall i :: 0 <= i < |log.byType| ==> log.byType[i].val.Num? && log.byType[i].val.n >= 1) &&
    Tally(log.byType) <= log.total
  }

  // ---------------------------------------------------------------------
  // The handlers

  /** `_error_record`: append a record numbered by the current length,
      count it, then drop the oldest beyond fifty. An unhashable type
      raises after the append and the total but before the count and the
      trim. */
  function ErrorRecordOp(log: ErrorLog, kwargs: seq<Field>, now: string): Handled<ErrorLog>
  {
    var t := GetOr(kwargs, "error_type", Str("unknown"));
    var rec := ErrorRecord(|log.records|, now, t, GetOr(kwargs, "error_message", Str("")),
                           GetOr(kwargs, "context", Obj([])));
    var appended := log.records + [rec];
    if !Hashable(t) then Handled(log.(records := appended, total := log.total + 1), Raised("TypeError"))
    else
      Handled(ErrorLog(if |appended| > MaxRecords then appended[1..] else appended, log.total + 1, Bump(log.byType, t)),
              StatusReply("recorded", [ Field("error_id", Num(|log.records|)), Field("error_type", t),
                                        Field("timestamp", Str(now)) ]))
  }

  /** The records whose type equals `filter`, in order. */
  function Matching(rs: seq<ErrorRecord>, filter: Value): seq<ErrorRecord>
    decreases |rs|
  {
    if rs == [] then []
    else Matching(rs[..|rs| - 1], filter) + (if PyEq(rs[|rs| - 1].errorType, filter) then [rs[|rs| - 1]] else [])
  }

  /** The records `type_filter` selects: all of them for "all". */
  function Selected(rs: seq<ErrorRecord>, filter: Value): seq<ErrorRecord>
  {
    if PyEq(filter, Str("all")) then rs else Matching(rs, filter)
  }

  /** `_error_query`: the last `limit` selected records (Python
      `xs[-limit:]`, so a limit of 0 keeps them all); a limit that is not a
      number raises. */
  function ErrorQuery(log: ErrorLog, kwargs: seq<Field>): Reply
  {
    var selected := Selected(log.records, GetOr(kwargs, "type_filter", Str("all")));
    var limit := GetOr(kwargs, "limit", Num(10));
    if NumberOf(limit).None? then Raised("TypeError")
    else
      var shown := PyFrom(selected, -NumberOf(limit).value);
      StatusReply("ok", [ Field("count", Num(|shown|)),
                          Field("errors", Arr(seq(|shown|, i requires 0 <= i < |shown| => RecordValue(shown[i])))) ])
  }

  /** The records stamped no earlier than `before`. */
  function NotBefore(rs: seq<ErrorRecord>, before: string): seq<ErrorRecord>
    decreases |rs|
  {
    if rs == [] then []
    else NotBefore(rs[..|rs| - 1], before) + (if !StrLess(rs[|rs| - 1].timestamp, before) then [rs[|rs| - 1]] else [])
  }

  function ClearedReply(cleared: int, remaining: int): Reply
  {
    StatusReply("cleared", [Field("cleared_count", Num(cleared)), Field("remaining_count", Num(remaining))])
  }

  /** `_error_clear`: with a truthy `before_time` keep the records stamped
      at or after it (the statistics stay; comparing a time stamp with a
      non-string raises); without one, empty the log and reset the
      statistics. */
  function ErrorClear(log: ErrorLog, kwargs: seq<Field>): Handled<ErrorLog>
  {
    var before := GetOr(kwargs, "before_time", Null);
    if !PyTruthy(before) then Handled(EmptyLog(), ClearedReply(|log.records|, 0))
    else if before.Str? then
      var kept := NotBefore(log.records, before.s);
      Handled(log.(records := kept), ClearedReply(|log.records| - |kept|, |kept|))
    else if log.records == [] then Handled(log, ClearedReply(0, 0))
    else Handled(log, Raised("TypeError"))
  }

  /** `_error_statistics`. */
  function ErrorStatistics(log: ErrorLog): Reply
  {
    Statistics(log.total, log.byType)
  }

  /** The suggestion table; `None` where the lookup raises (an unhashable
      type). */
  function Suggestion(t: Value): Option<string>
  {
    if !Hashable(t) then None
    else if t == Str("parse_error") then Some("检查大模型输出格式，确保符合JSON规范")
    else if t == Str("timeout_error") then Some("增加超时时间或优化模型调用逻辑")
    else if t == Str("rate_limit") then Some("降低请求频率，添加重试机制")
    else if t == Str("content_filter") then Some("检查输入内容是否包含敏感信息")
    else if t == Str("model_error") then Some("尝试更换模型或检查模型服务状态")
    else if t == Str("unknown") then Some("检查网络连接和API配置")
    else Some("检查系统日志和配置")
  }

  /** `_error_suggest_fix`: the id is a position in the current list
      (negative positions count from the end). */
  function ErrorSuggestFix(log: ErrorLog, kwargs: seq<Field>): Reply
  {
    var id := GetOr(kwargs, "error_id", Null);
    var n := |log.records|;
    if IsNone(id) then ErrorReply("无效的异常ID: None")
    else if NumberOf(id).None? then Raised("TypeError")
    else
      var k := NumberOf(id).value;
      if k >= n then ErrorReply("无效的异常ID: " + PyStr(id))
      else if k < -n then Raised("IndexError")
      else
        var r := log.records[if k < 0 then k + n else k];
        match Suggestion(r.errorType)
        case None => Raised("TypeError")
        case Some(text) =>
          StatusReply("ok", [ Field("error_id", id), Field("error_type", r.errorType),
                              Field("suggestion", Str(text)), Field("context", r.context) ])
  }

  // ---------------------------------------------------------------------
  // Rendering

  /** `error_message[:50]` in an f-string; `None` where slicing raises. */
  function MessageHead(m: Value): Option<string>
  {
    match m
    case Str(s) => Some(PyUpTo(s, MessageHeadLength))
    case Arr(items) => Some(PyRepr(Arr(PyUpTo(items, MessageHeadLength))))
    case _ => None
  }

  function RecordLine(position: nat, r: ErrorRecord): Option<string>
  {
    match MessageHead(r.message)
    case None => None
    case Some(head) =>
      Some("[" + NatToString(position) + "] " + r.timestamp + " - " + PyStr(r.errorType) + ": " + head + "...\n")
  }

  /** The numbered lines for `rs`, or `None` if one of them raises. */
  function RecordLines(rs: seq<ErrorRecord>): Option<string>
    decreases |rs|
  {
    if rs == [] then Some("")
    else
      match (RecordLines(rs[..|rs| - 1]), RecordLine(|rs|, rs[|rs| - 1]))
      case (Some(a), Some(b)) => Some(a + b)
      case _ => None
  }

  function TypeLines(d: PyDict): string
    decreases |d|
  {
    if d == [] then "" else TypeLines(d[..|d| - 1]) + "  - " + PyStr(d[|d| - 1].key) + ": " + PyStr(d[|d| - 1].val) + "\n"
  }

  function StatsText(log: ErrorLog): string
  {
    "\n### 异常统计 ###\n" + "总异常数: " + NatToString(log.total) + "\n" +
    (if log.byType == [] then "" else "按类型分布:\n" + TypeLines(log.byType))
  }

  /** The state section; `None` where it raises. */
  function ErrorState(log: ErrorLog): Option<string>
  {
    if log.records == [] then Some("### 当前没有异常记录 ###\n")
    else
      match RecordLines(PyFrom(log.records, -ShownRecords))
      case None => None
      case Some(lines) => Some("### 最近异常记录 ###\n" + lines + StatsText(log))
  }

  function ErrorMeta(description: string): string
  {
    "\n### 异常窗口功能说明 ###\n" + description + "\n\n功能:\n" +
    "- 记录大模型回复过程中产生的各种异常\n- 提供异常分类和统计信息\n- 支持异常查询和过滤\n- 提供异常处理建议\n\n" +
    "可调用的函数:\n" +
    "- error_record(error_type, error_message, context): 记录新异常\n" +
    "- error_query(type_filter=\"all\"): 查询异常记录\n" +
    "- error_clear(before_time=None): 清理异常记录\n" +
    "- error_statistics(): 获取异常统计\n" +
    "- error_suggest_fix(error_id): 获取异常修复建议\n"
  }

  // ---------------------------------------------------------------------
  // The window object

  class ErrorWindowObject {
    const name: string
    const description: string
    var records: seq<ErrorRecord>
    var total: nat
    var byType: PyDict

    function Log(): ErrorLog
      reads this
    {
      ErrorLog(records, total, byType)
    }

    /** `ErrorWindow(window_name)`; the description is the text of the
        window's description file, or its fallback. */
    constructor (windowName: string, description: string)
      ensures name == WindowName(Some(windowName)) && this.description == description
      ensures Log() == EmptyLog() && Counted(Log())
    {
      name := WindowName(Some(windowName));
      this.description := description;
      records := [];
      total := 0;
      byType := [];
    }

    method Record(kwargs: seq<Field>, now: string) returns (reply: Reply)
      requires Counted(Log())
      modifies this
      ensures Counted(Log())
      ensures Handled(Log(), reply) == ErrorRecordOp(old(Log()), kwargs, now)
    {
      RecordKeepsCounted(Log(), kwargs, now);
      var t := GetOr(kwargs, "error_type", Str("unknown"));
      var id := |records|;
      records := records + [ErrorRecord(id, now, t, GetOr(kwargs, "error_message", Str("")),
                                        GetOr(kwargs, "context", Obj([])))];
      total := total + 1;
      if !Hashable(t) {
        return Raised("TypeError");
      }
      byType := Bump(byType, t);
      if |records| > MaxRecords {
        records := records[1..];
      }
      reply := StatusReply("recorded", [Field("error_id", Num(id)), Field("error_type", t), Field("timestamp", Str(now))]);
    }

    /** Filters the log with a loop, as the list comprehension does. */
    method Query(kwargs: seq<Field>) returns (reply: Reply)
      ensures reply == ErrorQuery(Log(), kwargs)
    {
      var filter := GetOr(kwargs, "type_filter", Str("all"));
      var limit := GetOr(kwargs, "limit", Num(10));
      var selected := records;
      if !PyEq(filter, Str("all")) {
        selected := [];
        for i := 0 to |records|
          invariant selected == Matching(records[..i], filter)
        {
          assert records[..i + 1][..i] == records[..i];
          if PyEq(records[i].errorType, filter) {
            selected := selected + [records[i]];
          }
        }
        assert records[..|records|] == records;
      }
      if NumberOf(limit).None? {
        return Raised("TypeError");
      }
      var shown := PyFrom(selected, -NumberOf(limit).value);
      reply := StatusReply("ok", [ Field("count", Num(|shown|)),
                                   Field("errors", Arr(seq(|shown|, i requires 0 <= i < |shown| => RecordValue(shown[i])))) ]);
    }

    method Clear(kwargs: seq<Field>) returns (reply: Reply)
      requires Counted(Log())
      modifies this
      ensures Counted(Log())
      ensures Handled(Log(), reply) == ErrorClear(old(Log()), kwargs)
    {
      var before := GetOr(kwargs, "before_time", Null);
      if !PyTruthy(before) {
        reply := ClearedReply(|records|, 0);
        records, total, byType := [], 0, [];
        return;
      }
      if !before.Str? {
        if records == [] {
          return ClearedReply(0, 0);
        }
        return Raised("TypeError");
      }
      var kept := [];
      for i := 0 to |records|
        invariant kept == NotBefore(records[..i], before.s)
      {
        assert records[..i + 1][..i] == records[..i];
        if !StrLess(records[i].timestamp, before.s) {
          kept := kept + [records[i]];
        }
      }
      assert records[..|records|] == records;
      reply := ClearedReply(|records| - |kept|, |kept|);
      records := kept;
    }

    /** `forward()`, the inherited layout; `None` where the state raises. */
    function Forward(): Option<string>
      reads this
    {
      match ErrorState(Log())
      case None => None
      case Some(state) => Some(DefaultForward(name, ErrorMeta(description), state))
    }
  }

  // ---------------------------------------------------------------------
  // Properties

  lemma {:induction false} TallyAppend(d: PyDict, e: Entry)
    ensures Tally(d + [e]) == Tally(d) + Count(e.val)
  {
    assert (d + [e])[..|d|] == d;
  }

  lemma {:induction false} TallyUpdate(d: PyDict, i: nat, e: Entry)
    requires i < |d|
    ensures Tally(d[i := e]) == Tally(d) - Count(d[i].val) + Count(e.val)
    decreases |d|
  {
    var d' := d[i := e];
    if i == |d| - 1 {
      assert d'[..|d| - 1] == d[..|d| - 1];
    } else {
      TallyUpdate(d[..|d| - 1], i, e);
      assert d'[..|d| - 1] == d[..|d| - 1][i := e];
    }
  }

  /** Counting a type adds one to its count and one to the tally. */
  lemma BumpCounts(d: PyDict, t: Value)
    requires Hashable(t) && DictValid(d)
    requires forall i :: 0 <= i < |d| ==> d[i].val.Num? && d[i].val.n >= 1
    ensures var r := Bump(d, t);
            DictValid(r) && Tally(r) == Tally(d) + 1 &&
            DictGet(r, t) == Num(Count(DictGet(d, t)) + 1) &&
            (forall i :: 0 <= i < |r| ==> r[i].val.Num? && r[i].val.n >= 1)
  {
    var v := if DictHas(d, t) then Num(Count(DictGet(d, t)) + 1) else Num(1);
    assert Bump(d, t) == DictPut(d, t, v);
    DictPutValid(d, t, v);
    DictPutGet(d, t, v, t);
    KeyEqEquivalence(t, t, t);
    if DictHas(d, t) {
      BumpExisting(d, t, v);
    } else {
      TallyAppend(d, Entry(t, v));
    }
  }

  lemma BumpExisting(d: PyDict, t: Value, v: Value)
    requires DictHas(d, t) && v == Num(Count(DictGet(d, t)) + 1)
    requires forall i :: 0 <= i < |d| ==> d[i].val.Num? && d[i].val.n >= 1
    ensures Tally(DictPut(d, t, v)) == Tally(d) + 1
    ensures forall i :: 0 <= i < |DictPut(d, t, v)| ==> DictPut(d, t, v)[i].val.Num? && DictPut(d, t, v)[i].val.n >= 1
  {
    var i := DictFind(d, t);
    assert DictPut(d, t, v) == d[i := Entry(d[i].key, v)];
    TallyUpdate(d, i, Entry(d[i].key, v));
  }

  /** Recording keeps the counts consistent, whether it succeeds or
      raises. */
  lemma RecordKeepsCounted(log: ErrorLog, kwargs: seq<Field>, now: string)
    requires Counted(log)
    ensures Counted(ErrorRecordOp(log, kwargs, now).state)
  {
    var t := GetOr(kwargs, "error_type", Str("unknown"));
    if Hashable(t) {
      BumpCounts(log.byType, t);
    }
  }

  /** Clearing keeps the counts consistent. */
  lemma ClearKeepsCounted(log: ErrorLog, kwargs: seq<Field>)
    requires Counted(log)
    ensures Counted(ErrorClear(log, kwargs).state)
  {
  }

  /** A successful record: the new record, numbered by the old length and
      stamped with the clock reading, is last; the log is the latest fifty
      records; the total and the type's count go up by one. */
  lemma RecordStores(log: ErrorLog, kwargs: seq<Field>, now: string)
    requires Counted(log) && |log.records| <= MaxRecords
    requires Hashable(GetOr(kwargs, "error_type", Str("unknown")))
    ensures var t := GetOr(kwargs, "error_type", Str("unknown"));
            var rec := ErrorRecord(|log.records|, now, t, GetOr(kwargs, "error_message", Str("")),
                                   GetOr(kwargs, "context", Obj([])));
            var r := ErrorRecordOp(log, kwargs, now).state;
            r.records == PyFrom(log.records + [rec], -MaxRecords) && |r.records| <= MaxRecords &&
            r.records[|r.records| - 1] == rec &&
            r.total == log.total + 1 && Tally(r.byType) == Tally(log.byType) + 1 &&
            DictGet(r.byType, t) == Num(Count(DictGet(log.byType, t)) + 1)
    ensures var reply := ErrorRecordOp(log, kwargs, now).reply;
            reply.Returned? && JsGet(reply.v, "status") == Str("recorded") &&
            JsGet(reply.v, "error_id") == Num(|log.records|) &&
            JsGet(reply.v, "error_type") == GetOr(kwargs, "error_type", Str("unknown")) &&
            JsGet(reply.v, "timestamp") == Str(now)
  {
    RecordState(log, kwargs, now);
    var t := GetOr(kwargs, "error_type", Str("unknown"));
    assert ErrorRecordOp(log, kwargs, now).reply ==
           StatusReply("recorded", [ Field("error_id", Num(|log.records|)), Field("error_type", t),
                                     Field("timestamp", Str(now)) ]);
    RecordedReply(|log.records|, t, now);
  }

  lemma RecordState(log: ErrorLog, kwargs: seq<Field>, now: string)
    requires Counted(log) && |log.records| <= MaxRecords
    requires Hashable(GetOr(kwargs, "error_type", Str("unknown")))
    ensures var t := GetOr(kwargs, "error_type", Str("unknown"));
            var rec := ErrorRecord(|log.records|, now, t, GetOr(kwargs, "error_message", Str("")),
                                   GetOr(kwargs, "context", Obj([])));
            var r := ErrorRecordOp(log, kwargs, now).state;
            r.records == PyFrom(log.records + [rec], -MaxRecords) && |r.records| <= MaxRecords &&
            r.records[|r.records| - 1] == rec &&
            r.total == log.total + 1 && Tally(r.byType) == Tally(log.byType) + 1 &&
            DictGet(r.byType, t) == Num(Count(DictGet(log.byType, t)) + 1)
  {
    BumpCounts(log.byType, GetOr(kwargs, "error_type", Str("unknown")));
  }

  /** The reply of a successful record reads back its four fields. */
  lemma RecordedReply(id: nat, t: Value, now: string)
    ensures var v := StatusReply("recorded", [ Field("error_id", Num(id)), Field("error_type", t),
                                               Field("timestamp", Str(now)) ]).v;
            JsGet(v, "status") == Str("recorded") && JsGet(v, "error_id") == Num(id) &&
            JsGet(v, "error_type") == t && JsGet(v, "timestamp") == Str(now)
  {
    var rest := [ Field("error_id", Num(id)), Field("error_type", t), Field("timestamp", Str(now)) ];
    LookupAt([Field("status", Str("recorded"))] + rest, 0, "status");
    StatusReplyGet("recorded", rest, 0);
    StatusReplyGet("recorded", rest, 1);
    StatusReplyGet("recorded", rest, 2);
  }

  /** A type that cannot be a dict key still lands in a full log, which
      then holds fifty-one records. */
  lemma UnhashableTypeOverfills(log: ErrorLog, kwargs: seq<Field>, now: string)
    requires |log.records| == MaxRecords && !Hashable(GetOr(kwargs, "error_type", Str("unknown")))
    ensures var r := ErrorRecordOp(log, kwargs, now);
            r.reply == Raised("TypeError") && |r.state.records| == MaxRecords + 1 &&
            r.state.total == log.total + 1 && r.state.byType == log.byType
  {
  }

  /** Ids are positions at insertion time: once the log is full, every new
      record gets id 50, so two successive records share an id. */
  lemma IdsRepeatWhenFull(log: ErrorLog, a: seq<Field>, b: seq<Field>, now: string, later: string)
    requires |log.records| == MaxRecords
    requires Hashable(GetOr(a, "error_type", Str("unknown"))) && Hashable(GetOr(b, "error_type", Str("unknown")))
    ensures var once := ErrorRecordOp(log, a, now).state;
            var twice := ErrorRecordOp(once, b, later).state;
            once.records[MaxRecords - 1].id == MaxRecords && twice.records[MaxRecords - 1].id == MaxRecords &&
            twice.records[MaxRecords - 2].id == MaxRecords
  {
    var once := ErrorRecordOp(log, a, now).state;
    assert |once.records| == MaxRecords;
  }

  /** Every record `Matching` keeps has the type, in the original order. */
  lemma {:induction false} MatchingSound(rs: seq<ErrorRecord>, filter: Value)
    ensures var m := Matching(rs, filter);
            |m| <= |rs| && forall r :: r in m ==> r in rs && PyEq(r.errorType, filter)
    decreases |rs|
  {
    if rs != [] {
      MatchingSound(rs[..|rs| - 1], filter);
      assert forall r :: r in rs[..|rs| - 1] ==> r in rs;
    }
  }

  /** Every record of the type is kept. */
  lemma {:induction false} MatchingComplete(rs: seq<ErrorRecord>, filter: Value)
    ensures forall r :: r in rs && PyEq(r.errorType, filter) ==> r in Matching(rs, filter)
    decreases |rs|
  {
    if rs != [] {
      MatchingComplete(rs[..|rs| - 1], filter);
      assert forall r :: r in rs ==> r in rs[..|rs| - 1] || r == rs[|rs| - 1];
    }
  }

  /** A positive limit shows the last `limit` selected records (all of them
      if fewer); a limit of 0 shows every selected record. */
  lemma QueryShowsLatest(log: ErrorLog, kwargs: seq<Field>, n: int)
    requires GetOr(kwargs, "limit", Num(10)) == Num(n) && n >= 0
    ensures var selected := Selected(log.records, GetOr(kwargs, "type_filter", Str("all")));
            var count := if n == 0 || n >= |selected| then |selected| else n;
            ErrorQuery(log, kwargs) ==
              StatusReply("ok", [ Field("count", Num(count)),
                                  Field("errors", Arr(seq(count, i requires 0 <= i < count =>
                                                            RecordValue(selected[|selected| - count + i])))) ])
  {
    var selected := Selected(log.records, GetOr(kwargs, "type_filter", Str("all")));
    var count := if n == 0 || n >= |selected| then |selected| else n;
    var shown := PyFrom(selected, -n);
    assert |shown| == count;
    assert seq(|shown|, i requires 0 <= i < |shown| => RecordValue(shown[i])) ==
           seq(count, i requires 0 <= i < count => RecordValue(selected[|selected| - count + i]));
  }

  /** Clearing without a time stamp empties the log and resets the
      statistics, reporting how many records went. */
  lemma ClearAll(log: ErrorLog, kwargs: seq<Field>)
    requires !PyTruthy(GetOr(kwargs, "before_time", Null))
    ensures ErrorClear(log, kwargs) == Handled(EmptyLog(), ClearedReply(|log.records|, 0))
    ensures ErrorState(ErrorClear(log, kwargs).state) == Some("### 当前没有异常记录 ###\n")
  {
  }

  /** Clearing before a time keeps exactly the records stamped at or after
      it, in order, and the statistics; the counts add up. */
  lemma {:induction false} NotBeforeExact(rs: seq<ErrorRecord>, before: string)
    ensures var kept := NotBefore(rs, before);
            |kept| <= |rs| &&
            (forall r :: r in kept <==> r in rs && !StrLess(r.timestamp, before))
    decreases |rs|
  {
    if rs != [] {
      NotBeforeExact(rs[..|rs| - 1], before);
      assert forall r :: r in rs <==> r in rs[..|rs| - 1] || r == rs[|rs| - 1];
    }
  }

  lemma ClearBefore(log: ErrorLog, kwargs: seq<Field>, before: string)
    requires GetOr(kwargs, "before_time", Null) == Str(before) && before != ""
    ensures var r := ErrorClear(log, kwargs);
            var kept := r.state.records;
            r.state == log.(records := kept) &&
            (forall x :: x in kept <==> x in log.records && !StrLess(x.timestamp, before)) &&
            r.reply == ClearedReply(|log.records| - |kept|, |kept|) && |kept| <= |log.records|
  {
    NotBeforeExact(log.records, before);
  }

  /** An id past the end, or none, is refused; an id in range gets the
      suggestion for its record's type, and an unlisted type the generic
      one. */
  lemma SuggestFixCases(log: ErrorLog, kwargs: seq<Field>, k: int)
    requires GetOr(kwargs, "error_id", Null) == Num(k)
    ensures k >= |log.records| ==> ErrorSuggestFix(log, kwargs) == ErrorReply("无效的异常ID: " + IntToString(k))
    ensures 0 <= k < |log.records| && Hashable(log.records[k].errorType) ==>
              ErrorSuggestFix(log, kwargs) ==
                StatusReply("ok", [ Field("error_id", Num(k)), Field("error_type", log.records[k].errorType),
                                    Field("suggestion", Str(Suggestion(log.records[k].errorType).value)),
                                    Field("context", log.records[k].context) ])
    ensures k < -|log.records| ==> ErrorSuggestFix(log, kwargs) == Raised("IndexError")
  {
  }

  /** Every hashable type gets a suggestion; the six listed types their
      own, every other type the generic one. */
  lemma SuggestionTable(t: Value)
    requires Hashable(t)
    ensures Suggestion(t).Some?
    ensures (t !in [Str("parse_error"), Str("timeout_error"), Str("rate_limit"), Str("content_filter"),
                    Str("model_error"), Str("unknown")]) ==> Suggestion(t) == Some("检查系统日志和配置")
  {
  }

  /** A rendered non-empty log ends with its statistics. */
  lemma StateShowsTotal(log: ErrorLog)
    requires log.records != [] && ErrorState(log).Some?
    ensures var text := ErrorState(log).value;
            var stats := StatsText(log);
            |text| >= |stats| && text[|text| - |stats|..] == stats
  {
  }

  /** A message that cannot be sliced makes the lines raise. */
  lemma {:induction false} RecordLinesFail(rs: seq<ErrorRecord>, i: nat)
    requires i < |rs| && MessageHead(rs[i].message).None?
    ensures RecordLines(rs).None?
    decreases |rs|
  {
    if i < |rs| - 1 {
      RecordLinesFail(rs[..|rs| - 1], i);
    }
  }
}
