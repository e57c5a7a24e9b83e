/**
 * The flow stack prompt window (Windows/stack_window/flowStackWindow.py):
 * a task stack whose top frame carries the next instruction to execute and
 * a bounded history of the instructions already executed, with their
 * results and the model's reasoning. Setting a new instruction records the
 * previous one, refuses an instruction repeated within the last five
 * recorded steps, and keeps at most ten records; replacing a frame clears
 * its history; popping a frame can write its result into the parent's
 * variables. It is registered under "flowStack" and, replacing the plain
 * stack, under "stack".
 */
module FlowStack {
  import opened Values
  import opened BaseWindow
  import Stack

  /** One record of `action_history`. */
  datatype HistEntry = HistEntry(step: int, instruction: Value, result: Value, reasoning: Value)

  /** A task frame. */
  datatype FlowFrame = FlowFrame(
    name: Value, description: Value, variables: Value, nextInstruction: Value,
    retKey: Value, failReason: Value, history: seq<HistEntry>, stepCounter: int)

  /** How many records `_stack_set_instruction` keeps. */
  const HistoryLimit := 10
  /** How many recent records the loop check compares against. */
  const LoopWindow := 5
  /** How many recent records the prompt shows. */
  const ShownSteps := 3

  function FlowHandlers(): set<string>
  {
    {"stack_push", "stack_pop", "stack_set_instruction", "stack_setvar", "stack_replace"}
  }

  /** The history holds one record per step taken, up to the latest ten,
      numbered consecutively up to the frame's step counter. */
  predicate FrameValid(f: FlowFrame)
  {
    |f.history| == (if f.stepCounter < HistoryLimit then f.stepCounter else HistoryLimit) &&
    forall i :: 0 <= i < |f.history| ==> f.history[i].step == f.stepCounter - |f.history| + 1 + i
  }

  predicate StackValid(s: seq<FlowFrame>)
  {
    forall i :: 0 <= i < |s| ==> FrameValid(s[i])
  }

  // ---------------------------------------------------------------------
  // Push, pop, setvar, replace

  /** `_stack_push`: a description and a first instruction are required;
      a falsy name becomes "task_<depth>". */
  function FlowPush(s: seq<FlowFrame>, kwargs: seq<Field>): Handled<seq<FlowFrame>>
  {
    var description := GetOr(kwargs, "description", Null);
    var next := GetOr(kwargs, "next_instruction", Null);
    if !PyTruthy(description) then Handled(s, ErrorReply("stack_push requires 'description'"))
    else if !PyTruthy(next) then Handled(s, ErrorReply("stack_push requires 'next_instruction'"))
    else
      var frame := FlowFrame(PyOr(GetOr(kwargs, "name", Null), Str("task_" + NatToString(|s|))),
                             description, GetOr(kwargs, "variables", Obj([])), next,
                             GetOr(kwargs, "ret_key", Null), Null, [], 0);
      Handled(s + [frame], StatusReply("ok", [Field("stack_size", Num(|s| + 1)), Field("step", Num(1))]))
  }

  /** What writing `vars[key] = v` does, or the exception it raises. */
  datatype Written = Written(vars: Value) | WriteFails(error: string)

  /** `parent_frame['variables'][ret_key] = ret_value`: a dict stores the
      value under a hashable key, a list under an in-range index; anything
      else raises. Frame variables are string-keyed objects here, so a
      non-string key is stored under its `json.dumps` key text (`1` under
      "1", `True` under "true") where Python keeps it a distinct key. */
  function WriteVariable(vars: Value, key: Value, v: Value): Written
  {
    match vars
    case Obj(fs) =>
      if !Hashable(key) then WriteFails("TypeError")
      else Written(Obj(Put(fs, DictKeyText(key), v)))
    case Arr(items) =>
      if NumberOf(key).None? then WriteFails("TypeError")
      else
        var n := NumberOf(key).value;
        if -|items| <= n < |items| then
          Written(Arr(items[(if n < 0 then n + |items| else n) := v]))
        else WriteFails("IndexError")
    case _ => WriteFails("TypeError")
  }

  /** `_stack_pop`: the popped frame's result goes back into the parent's
      variables under the caller's `ret_key` or, failing that, the frame's
      own. A failing write raises after the frame is already gone. */
  function FlowPop(s: seq<FlowFrame>, kwargs: seq<Field>): Handled<seq<FlowFrame>>
  {
    if s == [] then Handled(s, ErrorReply("stack empty"))
    else
      var frame := s[|s| - 1];
      var rest := s[..|s| - 1];
      var result := GetOr(kwargs, "result", Null);
      var key := PyOr(GetOr(kwargs, "ret_key", Null), frame.retKey);
      var reply := StatusReply("ok", [ Field("stack_size", Num(|rest|)),
                                       Field("message", Str("Task '" + PyStr(frame.name) + "' completed with "
                                                            + IntToString(frame.stepCounter) + " steps")) ]);
      if rest == [] || !PyTruthy(key) || IsNone(result) then Handled(rest, reply)
      else
        var parent := rest[|rest| - 1];
        match WriteVariable(parent.variables, key, result)
        case WriteFails(e) => Handled(rest, Raised(e))
        case Written(vars) => Handled(rest[..|rest| - 1] + [parent.(variables := vars)], reply)
  }

  /** `_stack_setvar`: as in the plain stack. */
  function FlowSetVar(s: seq<FlowFrame>, kwargs: seq<Field>): Handled<seq<FlowFrame>>
  {
    var nv := GetOr(kwargs, "variables", Obj([]));
    if !nv.Obj? || nv.fields == [] then
      Handled(s, ErrorReply("variables argument must be a non-empty dictionary"))
    else if s == [] then Handled(s, ErrorReply("no active frame to update variables in"))
    else
      var top := s[|s| - 1];
      if !top.variables.Obj? then Handled(s, Raised("TypeError"))
      else Handled(s[..|s| - 1] + [top.(variables := Obj(Spread(top.variables.fields, nv.fields)))],
                   StatusReply("ok", [ Field("updated_keys", Arr(Stack.KeyList(nv.fields))),
                                       Field("stack_size", Num(|s|)) ]))
  }

  /** `kwargs[key]` if the call passed `key`, else `current`. */
  function IfGiven(kwargs: seq<Field>, key: string, current: Value): Value
  {
    GetOr(kwargs, key, current)
  }

  /** `_stack_replace`: backtrack. A reason is required; the fields the
      call names are overwritten and the history starts over. */
  function FlowReplace(s: seq<FlowFrame>, kwargs: seq<Field>): Handled<seq<FlowFrame>>
  {
    if s == [] then Handled(s, ErrorReply("stack empty"))
    else
      var reason := GetOr(kwargs, "fail_reason", Null);
      if !PyTruthy(reason) then Handled(s, ErrorReply("fail_reason is required for stack_replace"))
      else
        var top := s[|s| - 1];
        var top' := top.(description := IfGiven(kwargs, "description", top.description),
                         variables := IfGiven(kwargs, "variables", top.variables),
                         nextInstruction := IfGiven(kwargs, "next_instruction", top.nextInstruction),
                         failReason := reason, history := [], stepCounter := 0);
        Handled(s[..|s| - 1] + [top'],
                StatusReply("ok", [ Field("replaced", top.name), Field("fail_reason", reason),
                                    Field("history_cleared", Bool(true)) ]))
  }

  // ---------------------------------------------------------------------
  // Setting the next instruction

  /** The records the loop check looks at: the last five. */
  function RecentRecords(h: seq<HistEntry>): seq<HistEntry>
  {
    PyFrom(h, -LoopWindow)
  }

  /** `new_instruction in recent_instructions`: a string equals only the
      same string. */
  predicate Repeats(h: seq<HistEntry>, instruction: string)
  {
    exists e :: e in RecentRecords(h) && e.instruction == Str(instruction)
  }

  /** The latest record of an instruction (compared with Python `==`,
      one side being hashable), searching from the end. */
  function LatestRecord(h: seq<HistEntry>, instruction: Value): (r: Option<HistEntry>)
    ensures r.Some? ==> r.value in h && KeyEq(r.value.instruction, instruction)
    ensures r.None? ==> forall e :: e in h ==> !KeyEq(e.instruction, instruction)
    decreases |h|
  {
    if h == [] then None
    else if KeyEq(h[|h| - 1].instruction, instruction) then Some(h[|h| - 1])
    else
      assert forall e :: e in h ==> e in h[..|h| - 1] || e == h[|h| - 1];
      LatestRecord(h[..|h| - 1], instruction)
  }

  /** A repeated instruction has a latest record to quote. */
  lemma RepeatIsRecorded(h: seq<HistEntry>, instruction: string)
    requires Repeats(h, instruction)
    ensures LatestRecord(h, Str(instruction)).Some?
  {
    var e :| e in RecentRecords(h) && e.instruction == Str(instruction);
    assert e in h;
  }

  function LoopMessage(instruction: string, prev: HistEntry): string
  {
    "检测到循环: 指令 '" + instruction + "' 在步骤 #" + IntToString(prev.step) + " " +
    "已尝试过，结果为 '" + PyStr(prev.result) + "'。" +
    "你必须尝试不同的方法，或使用 stack_replace/stack_pop 改变策略。"
  }

  /** The bookkeeping of an accepted instruction: a truthy current
      instruction is recorded with the caller's result and reasoning under
      the next step number, the oldest record is dropped beyond ten, and
      the new instruction becomes current. */
  function Record(f: FlowFrame, instruction: string, result: Value, reasoning: Value): FlowFrame
  {
    if PyTruthy(f.nextInstruction) then
      var step := f.stepCounter + 1;
      var h := f.history + [HistEntry(step, f.nextInstruction, result, reasoning)];
      f.(stepCounter := step, history := if |h| > HistoryLimit then h[1..] else h,
         nextInstruction := Str(instruction))
    else f.(nextInstruction := Str(instruction))
  }

  /** `_stack_set_instruction`, its checks in the order the source makes
      them. */
  function FlowSetInstruction(s: seq<FlowFrame>, kwargs: seq<Field>): Handled<seq<FlowFrame>>
  {
    var instruction := GetOr(kwargs, "instruction", Null);
    var reasoning := GetOr(kwargs, "reason", Null);
    var result := GetOr(kwargs, "last_result", Null);
    if !PyTruthy(instruction) || !instruction.Str? then
      Handled(s, ErrorReply("instruction argument must be a non-empty string"))
    else if !PyTruthy(reasoning) then
      Handled(s, ErrorReply("reason is required: 你必须解释为什么要执行这个指令，以及它与上一步有何不同"))
    else if !PyTruthy(result) then
      Handled(s, ErrorReply("last_result is required: 你必须说明上一步的执行结果是什么"))
    else if s == [] then Handled(s, ErrorReply("no active frame to update instruction in"))
    else
      var top := s[|s| - 1];
      if Repeats(top.history, instruction.s) then
        RepeatIsRecorded(top.history, instruction.s);
        Handled(s, ErrorReply(LoopMessage(instruction.s, LatestRecord(top.history, instruction).value)))
      else
        var top' := Record(top, instruction.s, result, reasoning);
        Handled(s[..|s| - 1] + [top'],
                StatusReply("ok", [ Field("new_instruction", instruction),
                                    Field("step", Num(top'.stepCounter + 1)),
                                    Field("stack_size", Num(|s|)) ]))
  }

  // ---------------------------------------------------------------------
  // Rendering

  function LowerAscii(c: char): char
  {
    if 'A' <= c <= 'Z' then (c as int + 32) as char else c
  }

  /** `s.lower()`, for ASCII letters. */
  function LowerString(s: string): (r: string)
    ensures |r| == |s|
  {
    seq(|s|, i requires 0 <= i < |s| => LowerAscii(s[i]))
  }

  /** Python `sub in s` on strings. */
  predicate Contains(s: string, sub: string)
    decreases |s|
  {
    |s| >= |sub| && (s[..|sub|] == sub || (s != [] && Contains(s[1..], sub)))
  }

  /** The failure test of the rendering, for a string result: it mentions
      "fail" or "locked", in any case. */
  predicate Failing(e: HistEntry)
  {
    e.result.Str? &&
    ((e.result.s != "" && Contains(LowerString(e.result.s), "fail")) || Contains(LowerString(e.result.s), "locked"))
  }

  /** The rendering walks the whole history calling `.lower()` on every
      result and hashing every failed instruction; it raises unless every
      result is a string and every failed instruction hashable. */
  predicate HistoryRenderable(h: seq<HistEntry>)
  {
    forall i :: 0 <= i < |h| ==> h[i].result.Str? && (Failing(h[i]) ==> Hashable(h[i].instruction))
  }

  /** The set `failed_instructions`, listed in order of first failure.
      Python iterates a set in hash order, which for strings varies from
      run to run; this is one fixed choice of that order. */
  function FailedInstructions(h: seq<HistEntry>): seq<Value>
    decreases |h|
  {
    if h == [] then []
    else
      var acc := FailedInstructions(h[..|h| - 1]);
      var e := h[|h| - 1];
      if Failing(e) && !(exists x :: x in acc && KeyEq(x, e.instruction)) then acc + [e.instruction] else acc
  }

  /** Two lines per shown record. */
  function StepLines(es: seq<HistEntry>): seq<string>
    decreases |es|
  {
    if es == [] then []
    else ["  Step #" + IntToString(es[0].step) + ": " + PyStr(es[0].instruction) + " → " + PyStr(es[0].result),
          "           Reasoning: " + PyStr(es[0].reasoning)] + StepLines(es[1..])
  }

  /** One line per failed instruction, quoting its latest record. */
  function FailedLines(h: seq<HistEntry>, instructions: seq<Value>): seq<string>
    decreases |instructions|
  {
    if instructions == [] then []
    else
      var line := match LatestRecord(h, instructions[0])
        case Some(r) => ["  - " + PyStr(instructions[0]) + ": " + PyStr(r.result) + " (步骤 #" + IntToString(r.step) + ")"]
        case None => [];
      line + FailedLines(h, instructions[1..])
  }

  function HistoryLines(h: seq<HistEntry>): seq<string>
  {
    if h == [] then []
    else
      ["\n[Execution History - 你是如何走到这一步的]"] + StepLines(PyFrom(h, -ShownSteps)) +
      ["  (当前 INSTRUCTION 是基于以上历史做出的下一步决策)"] +
      (if FailedInstructions(h) == [] then []
       else ["\n[Tried and Failed - 已知无效的路径]"] + FailedLines(h, FailedInstructions(h)))
  }

  function FlowFrameLines(f: FlowFrame): seq<string>
  {
    ["Function " + PyStr(f.name) + ": " + PyStr(f.description)]
    + (if PyTruthy(f.variables) then ["Variables: " + PyStr(f.variables)] else [])
    + (if PyTruthy(f.nextInstruction) then ["-> INSTRUCTION: " + PyStr(f.nextInstruction)] else [])
    + HistoryLines(f.history)
    + (if PyTruthy(f.failReason) then ["\n[Previous failure reason: " + PyStr(f.failReason) + "]"] else [])
  }

  predicate Renderable(s: seq<FlowFrame>)
  {
    forall i :: 0 <= i < |s| ==> HistoryRenderable(s[i].history)
  }

  /** The state section; `None` where the rendering raises. */
  function FlowState(s: seq<FlowFrame>): Option<string>
  {
    if s == [] then Some("### STACK EMPTY ###\n")
    else if !Renderable(s) then None
    else Some("### STACK DATA ###\n" + Join(seq(|s|, i requires 0 <= i < |s| => Join(FlowFrameLines(s[i]), "\n")), "\n"))
  }

  /** `forward()`: description, then state, with no window tags. */
  function FlowForward(description: string, s: seq<FlowFrame>): Option<string>
  {
    match FlowState(s)
    case None => None
    case Some(state) => Some("\n" + description + "\n" + state)
  }

  // ---------------------------------------------------------------------
  // The window object

  class FlowStackWindow {
    const name: string
    const description: string
    var frames: seq<FlowFrame>

    predicate Valid()
      reads this
    {
      StackValid(frames)
    }

    /** `FlowStackPromptWindow(window_name)` (the default name is
        "FlowStackWindow"). */
    constructor (windowName: Option<string>, description: string)
      ensures name == WindowName(windowName) && this.description == description
      ensures frames == [] && Valid()
    {
      name := WindowName(windowName);
      this.description := description;
      frames := [];
    }

    method Push(kwargs: seq<Field>) returns (reply: Reply)
      requires Valid()
      modifies this
      ensures Valid()
      ensures Handled(frames, reply) == FlowPush(old(frames), kwargs)
    {
      var description := GetOr(kwargs, "description", Null);
      var next := GetOr(kwargs, "next_instruction", Null);
      if !PyTruthy(description) {
        return ErrorReply("stack_push requires 'description'");
      }
      if !PyTruthy(next) {
        return ErrorReply("stack_push requires 'next_instruction'");
      }
      var frame := FlowFrame(PyOr(GetOr(kwargs, "name", Null), Str("task_" + NatToString(|frames|))),
                             description, GetOr(kwargs, "variables", Obj([])), next,
                             GetOr(kwargs, "ret_key", Null), Null, [], 0);
      frames := frames + [frame];
      reply := StatusReply("ok", [Field("stack_size", Num(|frames|)), Field("step", Num(1))]);
    }

    method Pop(kwargs: seq<Field>) returns (reply: Reply)
      requires Valid()
      modifies this
      ensures Valid()
      ensures Handled(frames, reply) == FlowPop(old(frames), kwargs)
    {
      PopKeepsValid(frames, kwargs);
      if frames == [] {
        return ErrorReply("stack empty");
      }
      var frame := frames[|frames| - 1];
      frames := frames[..|frames| - 1];
      var result := GetOr(kwargs, "result", Null);
      var key := PyOr(GetOr(kwargs, "ret_key", Null), frame.retKey);
      reply := StatusReply("ok", [ Field("stack_size", Num(|frames|)),
                                   Field("message", Str("Task '" + PyStr(frame.name) + "' completed with "
                                                        + IntToString(frame.stepCounter) + " steps")) ]);
      if frames != [] && PyTruthy(key) && !IsNone(result) {
        var parent := frames[|frames| - 1];
        match WriteVariable(parent.variables, key, result)
        case WriteFails(e) =>
          reply := Raised(e);
        case Written(vars) =>
          frames := frames[..|frames| - 1] + [parent.(variables := vars)];
      }
    }

    method SetVar(kwargs: seq<Field>) returns (reply: Reply)
      requires Valid()
      modifies this
      ensures Valid()
      ensures Handled(frames, reply) == FlowSetVar(old(frames), kwargs)
    {
      var nv := GetOr(kwargs, "variables", Obj([]));
      if !nv.Obj? || nv.fields == [] {
        return ErrorReply("variables argument must be a non-empty dictionary");
      }
      if frames == [] {
        return ErrorReply("no active frame to update variables in");
      }
      var top := frames[|frames| - 1];
      if !top.variables.Obj? {
        return Raised("TypeError");
      }
      var current, updated := Stack.MergeVariables(top.variables.fields, nv.fields);
      frames := frames[..|frames| - 1] + [top.(variables := Obj(current))];
      reply := StatusReply("ok", [Field("updated_keys", Arr(updated)), Field("stack_size", Num(|frames|))]);
    }

    method Replace(kwargs: seq<Field>) returns (reply: Reply)
      requires Valid()
      modifies this
      ensures Valid()
      ensures Handled(frames, reply) == FlowReplace(old(frames), kwargs)
    {
      if frames == [] {
        return ErrorReply("stack empty");
      }
      var reason := GetOr(kwargs, "fail_reason", Null);
      if !PyTruthy(reason) {
        return ErrorReply("fail_reason is required for stack_replace");
      }
      var top := frames[|frames| - 1];
      var name := top.name;
      if Lookup(kwargs, "description").Some? {
        top := top.(description := Lookup(kwargs, "description").value);
      }
      if Lookup(kwargs, "variables").Some? {
        top := top.(variables := Lookup(kwargs, "variables").value);
      }
      if Lookup(kwargs, "next_instruction").Some? {
        top := top.(nextInstruction := Lookup(kwargs, "next_instruction").value);
      }
      top := top.(failReason := reason, history := [], stepCounter := 0);
      frames := frames[..|frames| - 1] + [top];
      reply := StatusReply("ok", [Field("replaced", name), Field("fail_reason", reason),
                                  Field("history_cleared", Bool(true))]);
    }

    method SetInstruction(kwargs: seq<Field>) returns (reply: Reply)
      requires Valid()
      modifies this
      ensures Valid()
      ensures Handled(frames, reply) == FlowSetInstruction(old(frames), kwargs)
    {
      SetInstructionKeepsValid(frames, kwargs);
      var instruction := GetOr(kwargs, "instruction", Null);
      var reasoning := GetOr(kwargs, "reason", Null);
      var result := GetOr(kwargs, "last_result", Null);
      if !PyTruthy(instruction) || !instruction.Str? {
        return ErrorReply("instruction argument must be a non-empty string");
      }
      if !PyTruthy(reasoning) {
        return ErrorReply("reason is required: 你必须解释为什么要执行这个指令，以及它与上一步有何不同");
      }
      if !PyTruthy(result) {
        return ErrorReply("last_result is required: 你必须说明上一步的执行结果是什么");
      }
      if frames == [] {
        return ErrorReply("no active frame to update instruction in");
      }
      var top := frames[|frames| - 1];
      if Repeats(top.history, instruction.s) {
        RepeatIsRecorded(top.history, instruction.s);
        var prev := LatestRecord(top.history, instruction).value;
        return ErrorReply(LoopMessage(instruction.s, prev));
      }
      assert FrameValid(top);
      var step := top.stepCounter;
      var history := top.history;
      if PyTruthy(top.nextInstruction) {
        step := step + 1;
        history := history + [HistEntry(step, top.nextInstruction, result, reasoning)];
        if |history| > HistoryLimit {
          history := history[1..];
        }
      }
      var top' := top.(stepCounter := step, history := history, nextInstruction := instruction);
      assert top' == Record(top, instruction.s, result, reasoning);
      frames := frames[..|frames| - 1] + [top'];
      reply := StatusReply("ok", [ Field("new_instruction", instruction),
                                   Field("step", Num(top'.stepCounter + 1)),
                                   Field("stack_size", Num(|frames|)) ]);
    }

    function Forward(): Option<string>
      reads this
    {
      FlowForward(description, frames)
    }
  }

  // ---------------------------------------------------------------------
  // Properties

  lemma TopKeepsValid(s: seq<FlowFrame>, top: FlowFrame)
    requires s != [] && StackValid(s) && FrameValid(top)
    ensures StackValid(s[..|s| - 1] + [top])
  {
  }

  /** Recording keeps the history bounded by ten and consecutively
      numbered up to the step counter. */
  lemma RecordKeepsValid(f: FlowFrame, instruction: string, result: Value, reasoning: Value)
    requires FrameValid(f)
    ensures FrameValid(Record(f, instruction, result, reasoning))
  {
    if PyTruthy(f.nextInstruction) {
      var step := f.stepCounter + 1;
      var h := f.history + [HistEntry(step, f.nextInstruction, result, reasoning)];
      assert forall i :: 0 <= i < |h| ==> h[i].step == step - |h| + 1 + i;
      if |h| > HistoryLimit {
        var h' := h[1..];
        assert forall i :: 0 <= i < |h'| ==> h'[i] == h[i + 1];
      }
    }
  }

  /** An accepted instruction with a current one to record: the counter
      advances, the record goes last, and the history is the latest ten
      records, as `action_history[-10:]`. */
  lemma RecordKeepsLatest(f: FlowFrame, instruction: string, result: Value, reasoning: Value)
    requires FrameValid(f) && PyTruthy(f.nextInstruction)
    ensures var r := Record(f, instruction, result, reasoning);
            var entry := HistEntry(f.stepCounter + 1, f.nextInstruction, result, reasoning);
            r.stepCounter == f.stepCounter + 1 && r.nextInstruction == Str(instruction) &&
            r.history == PyFrom(f.history + [entry], -HistoryLimit) &&
            r.history != [] && r.history[|r.history| - 1] == entry &&
            r.(history := f.history, stepCounter := f.stepCounter, nextInstruction := f.nextInstruction) == f
  {
  }

  /** Without a current instruction nothing is recorded. */
  lemma RecordWithoutCurrent(f: FlowFrame, instruction: string, result: Value, reasoning: Value)
    requires !PyTruthy(f.nextInstruction)
    ensures Record(f, instruction, result, reasoning) == f.(nextInstruction := Str(instruction))
  {
  }

  lemma PopKeepsValid(s: seq<FlowFrame>, kwargs: seq<Field>)
    requires StackValid(s)
    ensures StackValid(FlowPop(s, kwargs).state)
  {
    if |s| >= 2 {
      var rest := s[..|s| - 1];
      assert StackValid(rest);
      assert FrameValid(rest[|rest| - 1]);
    }
  }

  lemma SetInstructionKeepsValid(s: seq<FlowFrame>, kwargs: seq<Field>)
    requires StackValid(s)
    ensures StackValid(FlowSetInstruction(s, kwargs).state)
  {
    var instruction := GetOr(kwargs, "instruction", Null);
    if s != [] && instruction.Str? {
      RecordKeepsValid(s[|s| - 1], instruction.s, GetOr(kwargs, "last_result", Null), GetOr(kwargs, "reason", Null));
    }
  }

  /** Every handler keeps every frame's history bounded and consecutively
      numbered. */
  lemma HandlersKeepValid(s: seq<FlowFrame>, kwargs: seq<Field>)
    requires StackValid(s)
    ensures StackValid(FlowPush(s, kwargs).state)
    ensures StackValid(FlowPop(s, kwargs).state)
    ensures StackValid(FlowSetVar(s, kwargs).state)
    ensures StackValid(FlowReplace(s, kwargs).state)
    ensures StackValid(FlowSetInstruction(s, kwargs).state)
  {
    PushKeepsValid(s, kwargs);
    PopKeepsValid(s, kwargs);
    SetVarKeepsValid(s, kwargs);
    ReplaceKeepsValid(s, kwargs);
    SetInstructionKeepsValid(s, kwargs);
  }

  lemma PushKeepsValid(s: seq<FlowFrame>, kwargs: seq<Field>)
    requires StackValid(s)
    ensures StackValid(FlowPush(s, kwargs).state)
  {
  }

  lemma SetVarKeepsValid(s: seq<FlowFrame>, kwargs: seq<Field>)
    requires StackValid(s)
    ensures StackValid(FlowSetVar(s, kwargs).state)
  {
  }

  lemma ReplaceKeepsValid(s: seq<FlowFrame>, kwargs: seq<Field>)
    requires StackValid(s)
    ensures StackValid(FlowReplace(s, kwargs).state)
  {
  }

  /** `stack_set_instruction` changes the stack exactly when its arguments
      are present, there is a frame, and the instruction is not among the
      last five recorded; then only the top frame changes, to the
      recorded one. */
  lemma SetInstructionAccepted(s: seq<FlowFrame>, kwargs: seq<Field>)
    requires StackValid(s)
    ensures var instruction := GetOr(kwargs, "instruction", Null);
            var accepted := PyTruthy(instruction) && instruction.Str? &&
                            PyTruthy(GetOr(kwargs, "reason", Null)) && PyTruthy(GetOr(kwargs, "last_result", Null)) &&
                            s != [] && !Repeats(s[|s| - 1].history, instruction.s);
            (FlowSetInstruction(s, kwargs).state != s <==> accepted) &&
            (accepted ==> FlowSetInstruction(s, kwargs).state ==
                            s[..|s| - 1] + [Record(s[|s| - 1], instruction.s, GetOr(kwargs, "last_result", Null),
                                                   GetOr(kwargs, "reason", Null))])
  {
    var instruction := GetOr(kwargs, "instruction", Null);
    if PyTruthy(instruction) && instruction.Str? && s != [] {
      var top := s[|s| - 1];
      var top' := Record(top, instruction.s, GetOr(kwargs, "last_result", Null), GetOr(kwargs, "reason", Null));
      assert top' != top by {
        if PyTruthy(top.nextInstruction) {
          assert top'.stepCounter == top.stepCounter + 1;
        } else {
          assert top'.nextInstruction != top.nextInstruction;
        }
      }
      assert (s[..|s| - 1] + [top'])[|s| - 1] == top';
    }
  }

  /** A refused repeat changes nothing and quotes the instruction's latest
      record. */
  lemma LoopRefused(s: seq<FlowFrame>, kwargs: seq<Field>, x: string)
    requires GetOr(kwargs, "instruction", Null) == Str(x) && x != ""
    requires PyTruthy(GetOr(kwargs, "reason", Null)) && PyTruthy(GetOr(kwargs, "last_result", Null))
    requires s != [] && Repeats(s[|s| - 1].history, x)
    ensures var prev := LatestRecord(s[|s| - 1].history, Str(x));
            prev.Some? && prev.value.instruction == Str(x) &&
            FlowSetInstruction(s, kwargs) == Handled(s, ErrorReply(LoopMessage(x, prev.value)))
  {
    RepeatIsRecorded(s[|s| - 1].history, x);
  }

  /** Setting the instruction that is already current: unless it is
      among the last five records, it is accepted and recorded as the
      newest entry under the next step number; either way, setting it
      once more is refused with the loop message quoting its latest
      record and changes nothing. */
  lemma RepeatCurrentRefused(s: seq<FlowFrame>, kwargs: seq<Field>, x: string)
    requires StackValid(s)
    requires GetOr(kwargs, "instruction", Null) == Str(x) && x != ""
    requires PyTruthy(GetOr(kwargs, "reason", Null)) && PyTruthy(GetOr(kwargs, "last_result", Null))
    requires s != [] && s[|s| - 1].nextInstruction == Str(x)
    ensures var top := s[|s| - 1];
            var result := GetOr(kwargs, "last_result", Null);
            var reasoning := GetOr(kwargs, "reason", Null);
            var once := FlowSetInstruction(s, kwargs).state;
            (Repeats(top.history, x) ==> once == s) &&
            (!Repeats(top.history, x) ==>
               once == s[..|s| - 1] + [Record(top, x, result, reasoning)] &&
               FlowSetInstruction(s, kwargs).reply.Returned? &&
               once[|once| - 1].history[|once[|once| - 1].history| - 1] ==
                 HistEntry(top.stepCounter + 1, Str(x), result, reasoning)) &&
            once != [] && LatestRecord(once[|once| - 1].history, Str(x)).Some? &&
            FlowSetInstruction(once, kwargs) ==
              Handled(once, ErrorReply(LoopMessage(x, LatestRecord(once[|once| - 1].history, Str(x)).value)))
  {
    var once := FlowSetInstruction(s, kwargs).state;
    SetCurrentOnce(s, kwargs, x);
    LoopRefused(once, kwargs, x);
  }

  /** The first call of `RepeatCurrentRefused`: after it, the instruction
      is among the top frame's last five records. */
  lemma SetCurrentOnce(s: seq<FlowFrame>, kwargs: seq<Field>, x: string)
    requires StackValid(s)
    requires GetOr(kwargs, "instruction", Null) == Str(x) && x != ""
    requires PyTruthy(GetOr(kwargs, "reason", Null)) && PyTruthy(GetOr(kwargs, "last_result", Null))
    requires s != [] && s[|s| - 1].nextInstruction == Str(x)
    ensures var top := s[|s| - 1];
            var result := GetOr(kwargs, "last_result", Null);
            var reasoning := GetOr(kwargs, "reason", Null);
            var once := FlowSetInstruction(s, kwargs).state;
            (Repeats(top.history, x) ==> once == s) &&
            (!Repeats(top.history, x) ==>
               once == s[..|s| - 1] + [Record(top, x, result, reasoning)] &&
               FlowSetInstruction(s, kwargs).reply.Returned? &&
               once[|once| - 1].history[|once[|once| - 1].history| - 1] ==
                 HistEntry(top.stepCounter + 1, Str(x), result, reasoning)) &&
            once != [] && Repeats(once[|once| - 1].history, x)
  {
    var top := s[|s| - 1];
    if !Repeats(top.history, x) {
      var result := GetOr(kwargs, "last_result", Null);
      var reasoning := GetOr(kwargs, "reason", Null);
      var top' := Record(top, x, result, reasoning);
      RecordKeepsLatest(top, x, result, reasoning);
      var once := s[..|s| - 1] + [top'];
      assert FlowSetInstruction(s, kwargs).state == once;
      assert once[|once| - 1] == top';
      var last := top'.history[|top'.history| - 1];
      assert last.instruction == Str(x);
      assert last in RecentRecords(top'.history) by {
        var h := top'.history;
        assert PyFrom(h, -LoopWindow)[|PyFrom(h, -LoopWindow)| - 1] == last;
      }
      assert Repeats(top'.history, x);
    }
  }

  /** A successful replace leaves the top frame with an empty history, a
      zero step counter and the given reason, so no instruction counts as
      a loop afterwards. */
  lemma ReplaceClearsHistory(s: seq<FlowFrame>, kwargs: seq<Field>, x: string)
    requires s != [] && PyTruthy(GetOr(kwargs, "fail_reason", Null))
    ensures var r := FlowReplace(s, kwargs).state;
            |r| == |s| && r[..|s| - 1] == s[..|s| - 1] &&
            r[|s| - 1].history == [] && r[|s| - 1].stepCounter == 0 &&
            r[|s| - 1].failReason == GetOr(kwargs, "fail_reason", Null) &&
            r[|s| - 1].name == s[|s| - 1].name && !Repeats(r[|s| - 1].history, x)
  {
    var r := FlowReplace(s, kwargs).state;
    assert r[..|s| - 1] == s[..|s| - 1];
  }

  /** A refused replace changes nothing. */
  lemma ReplaceRequiresReason(s: seq<FlowFrame>, kwargs: seq<Field>)
    requires !PyTruthy(GetOr(kwargs, "fail_reason", Null))
    ensures FlowReplace(s, kwargs).state == s
    ensures s != [] ==> FlowReplace(s, kwargs).reply == ErrorReply("fail_reason is required for stack_replace")
  {
  }

  /** A push with a description and a first instruction adds a fresh frame
      with no history; a pop without a result then restores the stack. */
  lemma PushThenPop(s: seq<FlowFrame>, kwargs: seq<Field>)
    requires PyTruthy(GetOr(kwargs, "description", Null)) && PyTruthy(GetOr(kwargs, "next_instruction", Null))
    ensures var pushed := FlowPush(s, kwargs).state;
            |pushed| == |s| + 1 && pushed[..|s|] == s &&
            pushed[|s|].history == [] && pushed[|s|].stepCounter == 0 &&
            pushed[|s|].nextInstruction == GetOr(kwargs, "next_instruction", Null) &&
            PyTruthy(pushed[|s|].name) &&
            FlowPop(pushed, []).state == s
  {
    var pushed := FlowPush(s, kwargs).state;
    assert pushed[..|s|] == s;
    var name := PyOr(GetOr(kwargs, "name", Null), Str("task_" + NatToString(|s|)));
    assert PyTruthy(name) by {
      assert ("task_" + NatToString(|s|))[0] == 't';
    }
  }

  /** A push missing its description or first instruction changes
      nothing. */
  lemma PushRequires(s: seq<FlowFrame>, kwargs: seq<Field>)
    requires !PyTruthy(GetOr(kwargs, "description", Null)) || !PyTruthy(GetOr(kwargs, "next_instruction", Null))
    ensures FlowPush(s, kwargs).state == s && FlowPush(s, kwargs).reply.Returned?
  {
  }

  /** Every key but `k` reads the same in both objects. */
  ghost predicate OthersUnchanged(a: seq<Field>, b: seq<Field>, k: string)
  {
    forall k' :: k' != k ==> Lookup(a, k') == Lookup(b, k')
  }

  /** Popping with a result and a string key into a parent whose
      variables are a dict: the frame is gone and the parent reads the
      result back under the key, every other variable unchanged. */
  lemma PopWritesBack(s: seq<FlowFrame>, kwargs: seq<Field>, k: string)
    requires |s| >= 2 && !IsNone(GetOr(kwargs, "result", Null))
    requires PyOr(GetOr(kwargs, "ret_key", Null), s[|s| - 1].retKey) == Str(k) && k != ""
    requires s[|s| - 2].variables.Obj?
    ensures var r := FlowPop(s, kwargs).state;
            var result := GetOr(kwargs, "result", Null);
            |r| == |s| - 1 && r[..|r| - 1] == s[..|s| - 2] &&
            r[|r| - 1].variables.Obj? &&
            Lookup(r[|r| - 1].variables.fields, k) == Some(result) &&
            OthersUnchanged(r[|r| - 1].variables.fields, s[|s| - 2].variables.fields, k) &&
            r[|r| - 1].(variables := s[|s| - 2].variables) == s[|s| - 2]
  {
    var rest := s[..|s| - 1];
    var parent := s[|s| - 2];
    var result := GetOr(kwargs, "result", Null);
    assert rest[..|rest| - 1] == s[..|s| - 2] && rest[|rest| - 1] == parent;
    assert DictKeyText(Str(k)) == k;
    var vars := Obj(Put(parent.variables.fields, k, result));
    assert WriteVariable(parent.variables, Str(k), result) == Written(vars);
    assert FlowPop(s, kwargs).state == s[..|s| - 2] + [parent.(variables := vars)];
    PutLookup(parent.variables.fields, k, result);
  }

  /** A write-back that fails still pops the frame before it raises. The
      write fails with TypeError when the parent's variables are neither a
      dict nor a list, when a dict is given an unhashable key, or when a
      list is given a key that is not an integer, and with IndexError when
      a list index is out of range. */
  lemma PopRaisesAfterPopping(s: seq<FlowFrame>, kwargs: seq<Field>)
    requires |s| >= 2 && !IsNone(GetOr(kwargs, "result", Null))
    requires PyTruthy(PyOr(GetOr(kwargs, "ret_key", Null), s[|s| - 1].retKey))
    ensures var vars := s[|s| - 2].variables;
            var key := PyOr(GetOr(kwargs, "ret_key", Null), s[|s| - 1].retKey);
            var w := WriteVariable(vars, key, GetOr(kwargs, "result", Null));
            (w.WriteFails? ==> FlowPop(s, kwargs) == Handled(s[..|s| - 1], Raised(w.error))) &&
            (!vars.Obj? && !vars.Arr? ==> w == WriteFails("TypeError")) &&
            (vars.Obj? && !Hashable(key) ==> w == WriteFails("TypeError")) &&
            (vars.Arr? && NumberOf(key).None? ==> w == WriteFails("TypeError")) &&
            (vars.Arr? && NumberOf(key).Some? && !(-|vars.items| <= NumberOf(key).value < |vars.items|) ==>
               w == WriteFails("IndexError"))
  {
  }

  /** `stack_setvar` refuses a missing or empty dict and an empty stack,
      raises on variables that are not a dict, and otherwise changes only
      the top frame's variables: the given keys read back their new values,
      the others keep theirs, and history, step counter and instruction
      are untouched. */
  lemma FlowSetVarMerges(s: seq<FlowFrame>, kwargs: seq<Field>, k: string)
    requires var nv := GetOr(kwargs, "variables", Obj([])); nv.Obj? ==> UniqueKeys(nv.fields)
    ensures var nv := GetOr(kwargs, "variables", Obj([]));
            !nv.Obj? || nv.fields == [] ==>
              FlowSetVar(s, kwargs) == Handled(s, ErrorReply("variables argument must be a non-empty dictionary"))
    ensures var nv := GetOr(kwargs, "variables", Obj([]));
            nv.Obj? && nv.fields != [] && s == [] ==>
              FlowSetVar(s, kwargs) == Handled(s, ErrorReply("no active frame to update variables in"))
    ensures var nv := GetOr(kwargs, "variables", Obj([]));
            nv.Obj? && nv.fields != [] && s != [] && !s[|s| - 1].variables.Obj? ==>
              FlowSetVar(s, kwargs) == Handled(s, Raised("TypeError"))
    ensures var nv := GetOr(kwargs, "variables", Obj([]));
            nv.Obj? && nv.fields != [] && s != [] && s[|s| - 1].variables.Obj? ==>
              var r := FlowSetVar(s, kwargs);
              var top := r.state[|s| - 1];
              |r.state| == |s| && r.state[..|s| - 1] == s[..|s| - 1] &&
              top.(variables := s[|s| - 1].variables) == s[|s| - 1] && top.variables.Obj? &&
              Lookup(top.variables.fields, k) ==
                (if k in Keys(nv.fields) then Lookup(nv.fields, k) else Lookup(s[|s| - 1].variables.fields, k)) &&
              JsGet(r.reply.v, "updated_keys") == Arr(Stack.KeyList(nv.fields))
  {
    var nv := GetOr(kwargs, "variables", Obj([]));
    if nv.Obj? && nv.fields != [] && s != [] && s[|s| - 1].variables.Obj? {
      SpreadLookup(s[|s| - 1].variables.fields, nv.fields, k);
      StatusReplyGet("ok", [ Field("updated_keys", Arr(Stack.KeyList(nv.fields))), Field("stack_size", Num(|s|)) ], 0);
    }
  }

  /** Every listed instruction is that of a failing record. */
  lemma {:induction false} FailedInstructionsSound(h: seq<HistEntry>)
    ensures forall x :: x in FailedInstructions(h) ==> exists e :: e in h && Failing(e) && e.instruction == x
    decreases |h|
  {
    if h != [] {
      FailedInstructionsSound(h[..|h| - 1]);
      assert forall e' :: e' in h[..|h| - 1] ==> e' in h;
    }
  }

  /** Every failing record's instruction is listed (up to Python `==`). */
  lemma {:induction false} FailedInstructionsComplete(h: seq<HistEntry>)
    ensures forall e :: e in h && Failing(e) ==> exists x :: x in FailedInstructions(h) && KeyEq(x, e.instruction)
    decreases |h|
  {
    if h != [] {
      var init := h[..|h| - 1];
      var e := h[|h| - 1];
      FailedInstructionsComplete(init);
      assert forall e' :: e' in h ==> e' in init || e' == e;
      KeyEqEquivalence(e.instruction, e.instruction, e.instruction);
    }
  }

  /** No two items are equal as dict keys. */
  predicate DistinctKeys(r: seq<Value>)
  {
    forall i, j :: 0 <= i < j < |r| ==> !KeyEq(r[i], r[j])
  }

  /** No instruction is listed twice (as a Python set would hold it). */
  lemma {:induction false} FailedInstructionsDistinct(h: seq<HistEntry>)
    ensures DistinctKeys(FailedInstructions(h))
    decreases |h|
  {
    if h != [] {
      var init := h[..|h| - 1];
      var e := h[|h| - 1];
      FailedInstructionsDistinct(init);
      var acc := FailedInstructions(init);
      if Failing(e) && !(exists x :: x in acc && KeyEq(x, e.instruction)) {
        var r := acc + [e.instruction];
        forall i, j | 0 <= i < j < |r| ensures !KeyEq(r[i], r[j]) {
          if j == |acc| {
            assert r[i] == acc[i] && r[j] == e.instruction;
            assert acc[i] in acc;
          } else {
            assert r[i] == acc[i] && r[j] == acc[j];
            assert !KeyEq(acc[i], acc[j]);
          }
        }
        assert FailedInstructions(h) == r;
      }
    }
  }

  /** A record whose result is not a string makes the state rendering
      raise. */
  lemma NonTextResultBreaksRendering(s: seq<FlowFrame>, description: string, i: nat, j: nat)
    requires i < |s| && j < |s[i].history| && !s[i].history[j].result.Str?
    ensures FlowState(s).None? && FlowForward(description, s).None?
  {
  }
}
