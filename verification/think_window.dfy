/**
 * The think window (Windows/think_window/think_window.py): it holds the
 * model's last thought, set by its one handler `new_think`, and prints it
 * after its meta text. The meta text is the decoded content of the
 * window's description file, a constructor parameter.
 */
module ThinkWindow {
  import opened Values
  import opened BaseWindow

  function ThinkHandlers(): set<string>
  {
    {"new_think"}
  }

  /** The state section: the thought when it is truthy. */
  function ThinkState(content: Value): string
  {
    if PyTruthy(content) then "#last_thinks#:" + PyStr(content) else "#No last think"
  }

  /** `new_think`: the `content` argument, `None` when it is missing; the
      handler returns `None`. */
  function NewThink(kwargs: seq<Field>): Handled<Value>
  {
    Handled(GetOr(kwargs, "content", Null), Returned(Null))
  }

  class ThinkWindowObject {
    const name: string
    const meta: Value
    var content: Value

    /** `ThinkWindow(window_name)` (the default name is "think_window"). */
    constructor (windowName: Option<string>, meta: Value)
      ensures name == WindowName(windowName) && this.meta == meta && content == Null
    {
      name := WindowName(windowName);
      this.meta := meta;
      content := Null;
    }

    method Think(kwargs: seq<Field>) returns (reply: Reply)
      modifies this
      ensures Handled(content, reply) == NewThink(kwargs)
    {
      content := GetOr(kwargs, "content", Null);
      reply := Returned(Null);
    }

    /** `forward()`: meta and state with nothing between them. */
    function Forward(): string
      reads this
    {
      PyStr(meta) + ThinkState(content)
    }
  }

  /** The content after a run of `new_think` calls. */
  function ThinkRun(content: Value, calls: seq<seq<Field>>): Value
    decreases |calls|
  {
    if calls == [] then content else ThinkRun(NewThink(calls[0]).state, calls[1..])
  }

  /** Before any thought the state says there is none; afterwards it shows
      the thought exactly when the thought is truthy (so an empty string or
      a call without content reads as no thought). */
  lemma ThinkStates(kwargs: seq<Field>)
    ensures ThinkState(Null) == "#No last think"
    ensures var c := NewThink(kwargs).state;
            (PyTruthy(c) ==> ThinkState(c) == "#last_thinks#:" + PyStr(c)) &&
            (ThinkState(c) == "#No last think" <==> !PyTruthy(c))
    ensures Lookup(kwargs, "content").None? ==> NewThink(kwargs).state == Null
  {
    var c := NewThink(kwargs).state;
    if PyTruthy(c) {
      assert ThinkState(c)[1] == 'l';
    }
  }

  /** Only the latest call of a run decides the thought: earlier thoughts
      and the content before the run leave no trace. */
  lemma {:induction false} LatestThoughtWins(content: Value, calls: seq<seq<Field>>)
    ensures calls == [] ==> ThinkRun(content, calls) == content
    ensures calls != [] ==> ThinkRun(content, calls) == GetOr(calls[|calls| - 1], "content", Null)
    decreases |calls|
  {
    if calls != [] {
      LatestThoughtWins(NewThink(calls[0]).state, calls[1..]);
      if |calls| > 1 {
        assert calls[1..][|calls[1..]| - 1] == calls[|calls| - 1];
      }
    }
  }
}
