/**
 * The two older stacks whose frames carry free text: the first stack
 * window (Windows/stack_window.py) and the stack prompt module
 * (Modules/stack_module.py). They share the plain window's push, pop and
 * replace handlers, add `stack_append`, which grows the top frame's
 * `content` with Python's `+=`, and print that content after the frame's
 * other lines. They differ only in how they lay out the whole stack.
 */
module ContentStack {
  import opened Values
  import opened BaseWindow
  import opened Stack

  function ContentHandlers(): set<string>
  {
    {"stack_push", "stack_pop", "stack_append", "stack_replace"}
  }

  /** Python `a += b` on decoded values: a list extends in place with the
      items of any iterable (a string's characters, a dict's keys); other
      types fall back to `a + b`. `None` where Python raises TypeError. */
  function InPlaceAdd(a: Value, b: Value): Option<Value>
  {
    if a.Arr? then
      match b
      case Arr(items) => Some(Arr(a.items + items))
      case Str(t) => Some(Arr(a.items + seq(|t|, i requires 0 <= i < |t| => Str([t[i]]))))
      case Obj(fs) => Some(Arr(a.items + seq(|fs|, i requires 0 <= i < |fs| => Str(fs[i].key))))
      case _ => None
    else PyAdd(a, b)
  }

  /** `_stack_append`: there is no empty-stack guard, so `self.stack[-1]`
      raises IndexError. A `None` content is replaced; any other content is
      extended with `+=`. The reply carries the literal text "new_content". */
  function StackAppend(s: seq<Frame>, kwargs: seq<Field>): Handled<seq<Frame>>
  {
    if s == [] then Handled(s, Raised("IndexError"))
    else
      var top := s[|s| - 1];
      var c := GetOr(kwargs, "content", Null);
      var grown := if IsNone(top.content) then Some(c) else InPlaceAdd(top.content, c);
      if grown.None? then Handled(s, Raised("TypeError"))
      else Handled(s[..|s| - 1] + [top.(content := grown.value)],
                   StatusReply("ok", [Field("new_content", Str("new_content"))]))
  }

  // ---------------------------------------------------------------------
  // Rendering

  /** A frame's lines: the plain window's, then the content when it is
      truthy. */
  function ContentLines(f: Frame): seq<string>
  {
    FrameLines(f) + (if PyTruthy(f.content) then [PyStr(f.content)] else [])
  }

  /** `"\n".join` accepts only strings: a truthy content that is not a
      string makes the rendering raise TypeError. */
  predicate Renderable(s: seq<Frame>)
  {
    forall i :: 0 <= i < |s| ==> !PyTruthy(s[i].content) || s[i].content.Str?
  }

  function ContentTexts(s: seq<Frame>): (r: seq<string>)
    ensures |r| == |s| && forall i :: 0 <= i < |s| ==> r[i] == Join(ContentLines(s[i]), "\n")
  {
    seq(|s|, i requires 0 <= i < |s| => Join(ContentLines(s[i]), "\n"))
  }

  /** The first window's state section; `None` where it raises. */
  function ContentState(s: seq<Frame>): Option<string>
  {
    if s == [] then Some("### STACK EMPTY ###\n")
    else if !Renderable(s) then None
    else Some("### STACK DATA ###\n" + Join(ContentTexts(s), "\n"))
  }

  /** The first window's `forward`: description, then state, with no
      window tags. */
  function WindowForward(description: string, s: seq<Frame>): Option<string>
  {
    match ContentState(s)
    case None => None
    case Some(state) => Some("\n" + description + "\n" + state)
  }

  /** The module's `forward`: the description appears only between frames
      (or alone, for an empty stack). */
  function ModuleForward(description: string, s: seq<Frame>): Option<string>
  {
    if s == [] then Some("\n" + description + "\n### STACK EMPTY ###\n")
    else if !Renderable(s) then None
    else Some(Join(ContentTexts(s), "\n" + description + "\n"))
  }

  // ---------------------------------------------------------------------
  // The stack object

  class ContentStackWindow {
    const name: string
    const description: string
    var frames: seq<Frame>

    constructor (name: string, description: string)
      ensures this.name == name && this.description == description && frames == []
    {
      this.name := name;
      this.description := description;
      frames := [];
    }

    method Push(kwargs: seq<Field>) returns (reply: Reply)
      modifies this
      ensures Handled(frames, reply) == StackPush(old(frames), kwargs)
    {
      frames := frames + [PushedFrame(kwargs, |frames|)];
      reply := StatusReply("ok", [Field("stack_size", Num(|frames|))]);
    }

    method Pop(kwargs: seq<Field>) returns (reply: Reply)
      modifies this
      ensures Handled(frames, reply) == StackPop(old(frames), kwargs)
    {
      if frames == [] {
        return ErrorReply("stack empty");
      }
      var top := frames[|frames| - 1];
      frames := frames[..|frames| - 1];
      reply := StatusReply("ok", [ Field("popped", top.name),
                                   Field("result", GetOr(kwargs, "result", Null)),
                                   Field("stack_size", Num(|frames|)) ]);
    }

    method Append(kwargs: seq<Field>) returns (reply: Reply)
      modifies this
      ensures Handled(frames, reply) == StackAppend(old(frames), kwargs)
    {
      if frames == [] {
        return Raised("IndexError");
      }
      var top := frames[|frames| - 1];
      var c := GetOr(kwargs, "content", Null);
      var grown := if IsNone(top.content) then Some(c) else InPlaceAdd(top.content, c);
      if grown.None? {
        return Raised("TypeError");
      }
      frames := frames[..|frames| - 1] + [top.(content := grown.value)];
      reply := StatusReply("ok", [Field("new_content", Str("new_content"))]);
    }

    method Replace(kwargs: seq<Field>) returns (reply: Reply)
      modifies this
      ensures Handled(frames, reply) == StackReplace(old(frames), kwargs)
    {
      if frames == [] {
        return ErrorReply("stack empty");
      }
      var top := frames[|frames| - 1];
      var reason := GetOr(kwargs, "fail_reason", Str("unknown failure"));
      frames := frames[..|frames| - 1] + [top.(description := GetOr(kwargs, "description", Str("")),
                                               variables := GetOr(kwargs, "variables", Obj([])),
                                               failReason := reason)];
      reply := StatusReply("ok", [Field("replaced", top.name), Field("fail_reason", reason)]);
    }

    function Forward(): Option<string>
      reads this
    {
      WindowForward(description, frames)
    }

    function ModuleText(): Option<string>
      reads this
    {
      ModuleForward(description, frames)
    }
  }

  // ---------------------------------------------------------------------
  // Properties

  /** Appending two texts to a fresh frame leaves their concatenation as
      its content, and touches nothing else. */
  lemma AppendConcatenates(s: seq<Frame>, a: string, b: string)
    requires s != [] && s[|s| - 1].content == Null
    ensures var once := StackAppend(s, [Field("content", Str(a))]).state;
            var twice := StackAppend(once, [Field("content", Str(b))]).state;
            |twice| == |s| && twice[..|s| - 1] == s[..|s| - 1] &&
            twice[|s| - 1] == s[|s| - 1].(content := Str(a + b))
  {
    var once := StackAppend(s, [Field("content", Str(a))]).state;
    assert once[|s| - 1].content == Str(a);
    assert once[..|s| - 1] == s[..|s| - 1];
  }

  /** `stack_append` raises on an empty stack, and raises (changing
      nothing) when the content cannot be extended, as a string with a
      list or a number with a string. */
  lemma AppendFailures(s: seq<Frame>, kwargs: seq<Field>)
    ensures s == [] ==> StackAppend(s, kwargs) == Handled(s, Raised("IndexError"))
    ensures s != [] && !IsNone(s[|s| - 1].content) &&
            InPlaceAdd(s[|s| - 1].content, GetOr(kwargs, "content", Null)).None? ==>
              StackAppend(s, kwargs) == Handled(s, Raised("TypeError"))
    ensures s != [] && s[|s| - 1].content.Str? && GetOr(kwargs, "content", Null).Arr? ==>
              StackAppend(s, kwargs) == Handled(s, Raised("TypeError"))
  {
  }

  /** Appending a string to a list content extends the list in place with
      one one-character string per character, as Python's `list.__iadd__`
      does; the old items stay first and nothing else changes. */
  lemma AppendToListExtends(s: seq<Frame>, kwargs: seq<Field>)
    requires s != [] && s[|s| - 1].content.Arr? && GetOr(kwargs, "content", Null).Str?
    ensures var items := s[|s| - 1].content.items;
            var t := GetOr(kwargs, "content", Null).s;
            var r := StackAppend(s, kwargs);
            var top := r.state[|s| - 1];
            |r.state| == |s| && r.state[..|s| - 1] == s[..|s| - 1] && r.reply.Returned? &&
            top.(content := s[|s| - 1].content) == s[|s| - 1] && top.content.Arr? &&
            |top.content.items| == |items| + |t| && top.content.items[..|items|] == items &&
            forall i :: 0 <= i < |t| ==> top.content.items[|items| + i] == Str([t[i]])
  {
  }

  /** Frames whose content is falsy render exactly as in the plain window. */
  lemma ContentAgreesWithPlain(s: seq<Frame>)
    requires forall i :: 0 <= i < |s| ==> !PyTruthy(s[i].content)
    ensures ContentState(s) == Some(PlainState(s))
  {
    if s != [] {
      assert Renderable(s);
      assert ContentTexts(s) == FrameTexts(s) by {
        forall i | 0 <= i < |s| ensures ContentLines(s[i]) == FrameLines(s[i]) {
          assert FrameLines(s[i]) + [] == FrameLines(s[i]);
        }
      }
    }
  }

  /** A truthy content that is not a string anywhere on the stack makes
      both layouts raise. */
  lemma NonTextContentBreaksRendering(s: seq<Frame>, description: string, i: nat)
    requires i < |s| && PyTruthy(s[i].content) && !s[i].content.Str?
    ensures ContentState(s).None? && WindowForward(description, s).None?
    ensures ModuleForward(description, s).None?
  {
  }

  lemma JoinFirst(parts: seq<string>, sep: string)
    requires parts != []
    ensures |Join(parts, sep)| >= |parts[0]| && Join(parts, sep)[..|parts[0]|] == parts[0]
  {
  }

  /** The module never prints its description before the first frame: a
      one-frame stack is just that frame, and a longer one starts with the
      bottom frame. */
  lemma ModuleStartsWithBottomFrame(description: string, s: seq<Frame>)
    requires s != [] && Renderable(s)
    ensures var text := ModuleForward(description, s).value;
            var bottom := Join(ContentLines(s[0]), "\n");
            |text| >= |bottom| && text[..|bottom|] == bottom
    ensures |s| == 1 ==> ModuleForward(description, s) == Some(Join(ContentLines(s[0]), "\n"))
  {
    JoinFirst(ContentTexts(s), "\n" + description + "\n");
  }
}
