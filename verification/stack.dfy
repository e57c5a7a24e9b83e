/**
 * The plain stack prompt window (Windows/stack_window/stack_window.py): a
 * list of call frames the model pushes, pops, annotates with variables and
 * replaces after a failure, shown in the prompt bottom frame first. The
 * frame record and the push, pop and replace handlers are shared with the
 * older content-carrying stacks (module `ContentStack`).
 */
module Stack {
  import opened Values
  import opened BaseWindow

  /** A frame dict. `content` exists only in the older stacks; the plain
      window never sets or reads it, and it stays `None` there. */
  datatype Frame = Frame(name: Value, description: Value, variables: Value, failReason: Value, content: Value)

  function PlainHandlers(): set<string>
  {
    {"stack_push", "stack_pop", "stack_setvar", "stack_replace"}
  }

  // ---------------------------------------------------------------------
  // Handlers as functions of the frame list

  /** The frame `_stack_push` builds; the default name counts the frames
      already on the stack, and applies only when the argument is absent. */
  function PushedFrame(kwargs: seq<Field>, size: nat): Frame
  {
    Frame(GetOr(kwargs, "name", Str("func_" + NatToString(size))),
          GetOr(kwargs, "description", Str("")),
          GetOr(kwargs, "variables", Obj([])),
          Null, Null)
  }

  function StackPush(s: seq<Frame>, kwargs: seq<Field>): Handled<seq<Frame>>
  {
    Handled(s + [PushedFrame(kwargs, |s|)], StatusReply("ok", [Field("stack_size", Num(|s| + 1))]))
  }

  /** `_stack_pop`: the caller's `result` is echoed, not stored. */
  function StackPop(s: seq<Frame>, kwargs: seq<Field>): Handled<seq<Frame>>
  {
    if s == [] then Handled(s, ErrorReply("stack empty"))
    else Handled(s[..|s| - 1],
                 StatusReply("ok", [ Field("popped", s[|s| - 1].name),
                                     Field("result", GetOr(kwargs, "result", Null)),
                                     Field("stack_size", Num(|s| - 1)) ]))
  }

  /** The keys of a dict, as the list `updated_keys`. */
  function KeyList(fs: seq<Field>): (r: seq<Value>)
    ensures |r| == |fs| && forall i :: 0 <= i < |fs| ==> r[i] == Str(fs[i].key)
  {
    seq(|fs|, i requires 0 <= i < |fs| => Str(fs[i].key))
  }

  /** `_stack_setvar`: merge a non-empty dict into the top frame's
      variables. Item assignment on variables that are not a dict raises
      before anything changes. */
  function StackSetVar(s: seq<Frame>, kwargs: seq<Field>): Handled<seq<Frame>>
  {
    var nv := GetOr(kwargs, "variables", Obj([]));
    if !nv.Obj? || nv.fields == [] then
      Handled(s, ErrorReply("variables argument must be a non-empty dictionary"))
    else if s == [] then Handled(s, ErrorReply("no active frame to update variables in"))
    else
      var top := s[|s| - 1];
      if !top.variables.Obj? then Handled(s, Raised("TypeError"))
      else Handled(s[..|s| - 1] + [top.(variables := Obj(Spread(top.variables.fields, nv.fields)))],
                   StatusReply("ok", [ Field("updated_keys", Arr(KeyList(nv.fields))),
                                       Field("stack_size", Num(|s|)) ]))
  }

  /** `_stack_replace`: reset the top frame's description and variables and
      record why it failed; the name stays. */
  function StackReplace(s: seq<Frame>, kwargs: seq<Field>): Handled<seq<Frame>>
  {
    if s == [] then Handled(s, ErrorReply("stack empty"))
    else
      var top := s[|s| - 1];
      var reason := GetOr(kwargs, "fail_reason", Str("unknown failure"));
      Handled(s[..|s| - 1] + [top.(description := GetOr(kwargs, "description", Str("")),
                                   variables := GetOr(kwargs, "variables", Obj([])),
                                   failReason := reason)],
              StatusReply("ok", [Field("replaced", top.name), Field("fail_reason", reason)]))
  }

  /** The merge loop of `_stack_setvar`: write the new variables one at a
      time into the frame's dict, collecting their keys. */
  method MergeVariables(current: seq<Field>, nv: seq<Field>) returns (merged: seq<Field>, updated: seq<Value>)
    ensures merged == Spread(current, nv)
    ensures updated == KeyList(nv)
  {
    merged := current;
    updated := [];
    for i := 0 to |nv|
      invariant Spread(merged, nv[i..]) == Spread(current, nv)
      invariant updated == KeyList(nv[..i])
    {
      assert nv[i..][1..] == nv[i + 1..];
      merged := Put(merged, nv[i].key, nv[i].val);
      updated := updated + [Str(nv[i].key)];
    }
    assert nv[..|nv|] == nv;
  }

  // ---------------------------------------------------------------------
  // Rendering

  /** The lines every stack prints for a frame: its name and description,
      then its variables and its failure reason when they are truthy. */
  function FrameLines(f: Frame): seq<string>
  {
    ["Function " + PyStr(f.name) + ": " + PyStr(f.description)]
    + (if PyTruthy(f.variables) then ["Variables: " + PyStr(f.variables)] else [])
    + (if PyTruthy(f.failReason) then ["[Previous failure: " + PyStr(f.failReason) + "]"] else [])
  }

  function FrameText(f: Frame): string
  {
    Join(FrameLines(f), "\n")
  }

  function FrameTexts(s: seq<Frame>): (r: seq<string>)
    ensures |r| == |s| && forall i :: 0 <= i < |s| ==> r[i] == FrameText(s[i])
  {
    seq(|s|, i requires 0 <= i < |s| => FrameText(s[i]))
  }

  /** The plain window's state section. */
  function PlainState(s: seq<Frame>): string
  {
    if s == [] then "### STACK EMPTY ###\n"
    else "### STACK DATA ###\n" + Join(FrameTexts(s), "\n")
  }

  // ---------------------------------------------------------------------
  // The window object

  class StackWindow {
    const name: string
    const description: string
    var frames: seq<Frame>

    /** `StackPromptWindow(window_name)` (the default name is "Stack"). */
    constructor (windowName: Option<string>, description: string)
      ensures name == WindowName(windowName) && this.description == description && frames == []
    {
      name := WindowName(windowName);
      this.description := description;
      frames := [];
    }

    method Push(kwargs: seq<Field>) returns (reply: Reply)
      modifies this
      ensures Handled(frames, reply) == StackPush(old(frames), kwargs)
    {
      frames := frames + [PushedFrame(kwargs, |frames|)];
      reply := StatusReply("ok", [Field("stack_size", Num(|frames|))]);
    }

    method Pop(kwargs: seq<Field>) returns (reply: Reply)
      modifies this
      ensures Handled(frames, reply) == StackPop(old(frames), kwargs)
    {
      if frames == [] {
        return ErrorReply("stack empty");
      }
      var top := frames[|frames| - 1];
      frames := frames[..|frames| - 1];
      reply := StatusReply("ok", [ Field("popped", top.name),
                                   Field("result", GetOr(kwargs, "result", Null)),
                                   Field("stack_size", Num(|frames|)) ]);
    }

    method SetVar(kwargs: seq<Field>) returns (reply: Reply)
      modifies this
      ensures Handled(frames, reply) == StackSetVar(old(frames), kwargs)
    {
      var nv := GetOr(kwargs, "variables", Obj([]));
      if !nv.Obj? || nv.fields == [] {
        return ErrorReply("variables argument must be a non-empty dictionary");
      }
      if frames == [] {
        return ErrorReply("no active frame to update variables in");
      }
      var top := frames[|frames| - 1];
      if !top.variables.Obj? {
        return Raised("TypeError");
      }
      var current, updated := MergeVariables(top.variables.fields, nv.fields);
      frames := frames[..|frames| - 1] + [top.(variables := Obj(current))];
      reply := StatusReply("ok", [Field("updated_keys", Arr(updated)), Field("stack_size", Num(|frames|))]);
    }

    method Replace(kwargs: seq<Field>) returns (reply: Reply)
      modifies this
      ensures Handled(frames, reply) == StackReplace(old(frames), kwargs)
    {
      if frames == [] {
        return ErrorReply("stack empty");
      }
      var top := frames[|frames| - 1];
      var reason := GetOr(kwargs, "fail_reason", Str("unknown failure"));
      frames := frames[..|frames| - 1] + [top.(description := GetOr(kwargs, "description", Str("")),
                                               variables := GetOr(kwargs, "variables", Obj([])),
                                               failReason := reason)];
      reply := StatusReply("ok", [Field("replaced", top.name), Field("fail_reason", reason)]);
    }

    /** `forward()`: the inherited layout. */
    function Forward(): string
      reads this
    {
      DefaultForward(name, description + "\n", PlainState(frames))
    }

    function DividedSnapshot(): seq<Field>
      reads this
    {
      Divided(name, Str(description + "\n"), Str(PlainState(frames)))
    }
  }

  // ---------------------------------------------------------------------
  // Properties

  /** Last in, first out: popping right after a push restores the stack
      and reports the pushed frame's name, which defaults to
      "func_<depth>" when the call gives none. */
  lemma PushThenPop(s: seq<Frame>, kwargs: seq<Field>, popArgs: seq<Field>)
    ensures var pushed := StackPush(s, kwargs).state;
            StackPop(pushed, popArgs).state == s &&
            JsGet(StackPop(pushed, popArgs).reply.v, "popped") == GetOr(kwargs, "name", Str("func_" + NatToString(|s|)))
    ensures JsGet(StackPush(s, kwargs).reply.v, "stack_size") == Num(|s| + 1)
  {
    var f := PushedFrame(kwargs, |s|);
    assert StackPush(s, kwargs).state == s + [f];
    assert f.name == GetOr(kwargs, "name", Str("func_" + NatToString(|s|)));
    PushedOnTop(s, kwargs, popArgs);
    StatusReplyGet("ok", [Field("stack_size", Num(|s| + 1))], 0);
  }

  lemma PushedOnTop(s: seq<Frame>, kwargs: seq<Field>, popArgs: seq<Field>)
    ensures StackPop(s + [PushedFrame(kwargs, |s|)], popArgs).state == s
    ensures JsGet(StackPop(s + [PushedFrame(kwargs, |s|)], popArgs).reply.v, "popped") == PushedFrame(kwargs, |s|).name
  {
    var pushed := s + [PushedFrame(kwargs, |s|)];
    assert pushed[..|pushed| - 1] == s;
    var top := pushed[|pushed| - 1];
    StatusReplyGet("ok", [ Field("popped", top.name),
                           Field("result", GetOr(popArgs, "result", Null)),
                           Field("stack_size", Num(|s|)) ], 0);
  }

  /** Popping or replacing on an empty stack is reported and changes
      nothing; pop otherwise drops exactly the top frame. */
  lemma PopAndReplaceGuards(s: seq<Frame>, kwargs: seq<Field>)
    ensures s == [] ==> StackPop(s, kwargs) == Handled(s, ErrorReply("stack empty"))
    ensures s == [] ==> StackReplace(s, kwargs) == Handled(s, ErrorReply("stack empty"))
    ensures s != [] ==> StackPop(s, kwargs).state + [s[|s| - 1]] == s
  {
  }

  /** Replacing touches only the top frame, keeps its name, and stores the
      reason (by default "unknown failure") that the next rendering shows
      when it is truthy. */
  lemma ReplaceResetsTop(s: seq<Frame>, kwargs: seq<Field>)
    requires s != []
    ensures var r := StackReplace(s, kwargs).state;
            |r| == |s| && r[..|s| - 1] == s[..|s| - 1] &&
            r[|s| - 1].name == s[|s| - 1].name &&
            r[|s| - 1].failReason == GetOr(kwargs, "fail_reason", Str("unknown failure")) &&
            r[|s| - 1].description == GetOr(kwargs, "description", Str("")) &&
            r[|s| - 1].variables == GetOr(kwargs, "variables", Obj([]))
  {
  }

  /** A successful `stack_setvar` changes only the top frame's variables:
      each key of the argument now reads its new value, every other key
      reads as before, and the reply lists the argument's keys in order.
      (`variables` is a Python dict, so its keys are distinct.) */
  lemma SetVarMerges(s: seq<Frame>, kwargs: seq<Field>, k: string)
    requires var nv := GetOr(kwargs, "variables", Obj([])); nv.Obj? ==> UniqueKeys(nv.fields)
    ensures var nv := GetOr(kwargs, "variables", Obj([]));
            !nv.Obj? || nv.fields == [] ==>
              StackSetVar(s, kwargs) == Handled(s, ErrorReply("variables argument must be a non-empty dictionary"))
    ensures var nv := GetOr(kwargs, "variables", Obj([]));
            nv.Obj? && nv.fields != [] && s == [] ==>
              StackSetVar(s, kwargs) == Handled(s, ErrorReply("no active frame to update variables in"))
    ensures var nv := GetOr(kwargs, "variables", Obj([]));
            nv.Obj? && nv.fields != [] && s != [] && s[|s| - 1].variables.Obj? ==>
              var r := StackSetVar(s, kwargs);
              var top := r.state[|s| - 1];
              |r.state| == |s| && r.state[..|s| - 1] == s[..|s| - 1] &&
              top.name == s[|s| - 1].name && top.description == s[|s| - 1].description &&
              top.failReason == s[|s| - 1].failReason && top.variables.Obj? &&
              Lookup(top.variables.fields, k) ==
                (if k in Keys(nv.fields) then Lookup(nv.fields, k) else Lookup(s[|s| - 1].variables.fields, k)) &&
              JsGet(r.reply.v, "updated_keys") == Arr(KeyList(nv.fields))
  {
    var nv := GetOr(kwargs, "variables", Obj([]));
    if nv.Obj? && nv.fields != [] && s != [] && s[|s| - 1].variables.Obj? {
      SpreadLookup(s[|s| - 1].variables.fields, nv.fields, k);
      LookupAt([ Field("status", Str("ok")), Field("updated_keys", Arr(KeyList(nv.fields))),
                 Field("stack_size", Num(|s|)) ], 1, "updated_keys");
    }
  }

  lemma {:induction false} JoinLast(parts: seq<string>, sep: string)
    requires parts != []
    ensures |Join(parts, sep)| >= |parts[|parts| - 1]|
    ensures Join(parts, sep)[|Join(parts, sep)| - |parts[|parts| - 1]|..] == parts[|parts| - 1]
    decreases |parts|
  {
    if |parts| > 1 {
      JoinLast(parts[1..], sep);
      var rest := Join(parts[1..], sep);
      var last := parts[|parts| - 1];
      assert parts[1..][|parts[1..]| - 1] == last;
      var j := parts[0] + sep + rest;
      assert j[|j| - |rest|..] == rest;
      assert j[|j| - |last|..] == rest[|rest| - |last|..];
    }
  }

  /** The state section is the empty marker exactly when the stack is
      empty, and otherwise ends with the top frame. */
  lemma PlainStateShowsTop(s: seq<Frame>)
    ensures PlainState(s) == "### STACK EMPTY ###\n" <==> s == []
    ensures s != [] ==>
              var t := PlainState(s);
              var top := FrameText(s[|s| - 1]);
              |t| >= |top| && t[|t| - |top|..] == top
  {
    if s != [] {
      EndsWithTop(FrameTexts(s));
      NotEmptyMarker(Join(FrameTexts(s), "\n"));
    }
  }

  lemma EndsWithTop(texts: seq<string>)
    requires texts != []
    ensures var t := "### STACK DATA ###\n" + Join(texts, "\n");
            |t| >= |texts[|texts| - 1]| && t[|t| - |texts[|texts| - 1]|..] == texts[|texts| - 1]
  {
    JoinLast(texts, "\n");
    SuffixOfSuffix("### STACK DATA ###\n", Join(texts, "\n"), texts[|texts| - 1]);
  }

  lemma NotEmptyMarker(body: string)
    ensures "### STACK DATA ###\n" + body != "### STACK EMPTY ###\n"
  {
    var t := "### STACK DATA ###\n" + body;
    assert t[10] == 'D';
    assert "### STACK EMPTY ###\n"[10] == 'E';
  }

  lemma SuffixOfSuffix(head: string, body: string, tail: string)
    requires |body| >= |tail| && body[|body| - |tail|..] == tail
    ensures var t := head + body; |t| >= |tail| && t[|t| - |tail|..] == tail
  {
    var t := head + body;
    assert t[|t| - |tail|..] == body[|body| - |tail|..];
  }
}
