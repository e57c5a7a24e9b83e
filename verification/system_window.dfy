/**
 * The system window (Windows/system_window/system_window.py): an
 * aggregate of four sub-windows, in the order kernel, heap, stack, code.
 * It exports the union of their handlers (later windows winning on a
 * shared name) and builds its prompt and its snapshots by walking the
 * four in order. The kernel and code sub-windows print a static text;
 * both read the kernel description file, whose content is a constructor
 * parameter. The constructor's file arguments reach the sub-windows as
 * their window names.
 */
module SystemWindow {
  import opened Values
  import opened BaseWindow
  import Heap
  import Stack

  /** What the aggregate reads from one sub-window. */
  datatype Part = Part(name: string, meta: string, state: string, text: string, handlers: set<string>)

  /** The kernel sub-window: its text is the meta section. */
  function KernelPart(name: string, content: string): (p: Part)
    ensures p.name == name && p.meta == content && p.state == "" && p.handlers == {}
    ensures p.text == DefaultForward(p.name, p.meta, p.state)
  {
    Part(name, content, "", DefaultForward(name, content, ""), {})
  }

  /** The code sub-window: its text is the state section. */
  function CodePart(name: string, content: string): (p: Part)
    ensures p.name == name && p.meta == "" && p.state == content && p.handlers == {}
    ensures p.text == DefaultForward(p.name, p.meta, p.state)
  {
    Part(name, "", content, DefaultForward(name, "", content), {})
  }

  /** `forward()`: the sub-windows' texts, in order. */
  function Concat(ps: seq<Part>): string
    decreases |ps|
  {
    if ps == [] then "" else Concat(ps[..|ps| - 1]) + ps[|ps| - 1].text
  }

  /** The loop of `forward()`: `desc += module.forward()` over the
      sub-windows. */
  method ConcatTexts(ps: seq<Part>) returns (text: string)
    ensures text == Concat(ps)
  {
    text := "";
    for i := 0 to |ps|
      invariant text == Concat(ps[..i])
    {
      assert ps[..i + 1][..i] == ps[..i];
      text := text + ps[i].text;
    }
    assert ps[..|ps|] == ps;
  }

  /** `export_handlers()`: each handler name bound to the position of the
      last sub-window exporting it. */
  function Owners(ps: seq<Part>): map<string, nat>
    decreases |ps|
  {
    if ps == [] then map[]
    else Owners(ps[..|ps| - 1]) + Bind(ps[|ps| - 1].handlers, |ps| - 1)
  }

  /** The loop of the constructor and of `export_handlers()`: the handler
      table filled sub-window by sub-window, a later one overwriting an
      earlier binding. */
  method BindAll(ps: seq<Part>) returns (handlers: map<string, nat>)
    ensures handlers == Owners(ps)
  {
    handlers := map[];
    for i := 0 to |ps|
      invariant handlers == Owners(ps[..i])
    {
      assert ps[..i + 1][..i] == ps[..i];
      handlers := handlers + Bind(ps[i].handlers, i);
    }
    assert ps[..|ps|] == ps;
  }

  /** Every name in `hs` bound to `i`. */
  function Bind(hs: set<string>, i: nat): (m: map<string, nat>)
    ensures m.Keys == hs && forall h :: h in hs ==> m[h] == i
  {
    map h | h in hs :: i
  }

  /** `get_divided_snapshot()`: the sub-windows' snapshots merged, later
      names winning. */
  function Merged(ps: seq<Part>): seq<Field>
    decreases |ps|
  {
    if ps == [] then []
    else
      var last := ps[|ps| - 1];
      Spread(Merged(ps[..|ps| - 1]), Divided(last.name, Str(last.meta), Str(last.state)))
  }

  /** `get_descriptions()`: name to meta text, later names winning. */
  function Descriptions(ps: seq<Part>): seq<Field>
    decreases |ps|
  {
    if ps == [] then [] else Put(Descriptions(ps[..|ps| - 1]), ps[|ps| - 1].name, Str(ps[|ps| - 1].meta))
  }

  /** `get_state_snapshot()`: name to state text, later names winning. */
  function States(ps: seq<Part>): seq<Field>
    decreases |ps|
  {
    if ps == [] then [] else Put(States(ps[..|ps| - 1]), ps[|ps| - 1].name, Str(ps[|ps| - 1].state))
  }

  class SystemWindowObject {
    const name: string
    const kernelName: string
    const codeName: string
    const content: string
    const heap: Heap.HeapWindow
    const stack: Stack.StackWindow
    var handlers: map<string, nat>

    function Parts(): seq<Part>
      reads this, heap, stack
    {
      [ KernelPart(kernelName, content),
        Part(heap.name, heap.description + "\n", Heap.WindowState(heap.data), heap.Forward(), Heap.HeapHandlers()),
        Part(stack.name, stack.description + "\n", Stack.PlainState(stack.frames), stack.Forward(), Stack.PlainHandlers()),
        CodePart(codeName, content) ]
    }

    /** `SystemPromptWindow(kernel_file, heap_file, stack_file, code_file)`:
        each argument becomes a sub-window's name; the handler table is
        filled window by window. */
    constructor (kernelFile: Option<string>, heapFile: Option<string>, stackFile: Option<string>,
                 codeFile: Option<string>, kernelText: string, heapDescription: string, stackDescription: string)
      ensures name == UndefinedName() && kernelName == WindowName(kernelFile) && codeName == WindowName(codeFile)
      ensures content == kernelText && fresh(heap) && fresh(stack)
      ensures heap.name == WindowName(heapFile) && heap.data == [] && heap.description == heapDescription
      ensures stack.name == WindowName(stackFile) && stack.frames == [] && stack.description == stackDescription
      ensures handlers == Owners(Parts())
    {
      name := UndefinedName();
      kernelName := WindowName(kernelFile);
      codeName := WindowName(codeFile);
      content := kernelText;
      heap := new Heap.HeapWindow(heapFile, heapDescription);
      stack := new Stack.StackWindow(stackFile, stackDescription);
      new;
      handlers := BindAll(Parts());
    }

    method Forward() returns (text: string)
      ensures text == Concat(Parts())
    {
      text := ConcatTexts(Parts());
    }

    method ExportHandlers() returns (table: map<string, nat>)
      ensures table == Owners(Parts())
    {
      table := BindAll(Parts());
    }

    method DividedSnapshot() returns (snap: seq<Field>)
      ensures snap == Merged(Parts())
    {
      var ps := Parts();
      snap := [];
      for i := 0 to |ps|
        invariant snap == Merged(ps[..i])
      {
        assert ps[..i + 1][..i] == ps[..i];
        snap := Spread(snap, Divided(ps[i].name, Str(ps[i].meta), Str(ps[i].state)));
      }
      assert ps[..|ps|] == ps;
    }

    method GetDescriptions() returns (d: seq<Field>)
      ensures d == Descriptions(Parts())
    {
      var ps := Parts();
      d := [];
      for i := 0 to |ps|
        invariant d == Descriptions(ps[..i])
      {
        assert ps[..i + 1][..i] == ps[..i];
        d := Put(d, ps[i].name, Str(ps[i].meta));
      }
      assert ps[..|ps|] == ps;
    }

    method GetStateSnapshot() returns (d: seq<Field>)
      ensures d == States(Parts())
    {
      var ps := Parts();
      d := [];
      for i := 0 to |ps|
        invariant d == States(ps[..i])
      {
        assert ps[..i + 1][..i] == ps[..i];
        d := Put(d, ps[i].name, Str(ps[i].state));
      }
      assert ps[..|ps|] == ps;
    }
  }

  // ---------------------------------------------------------------------
  // Properties

  /** The prompt is the four texts in the order kernel, heap, stack, code. */
  lemma ForwardInOrder(ps: seq<Part>)
    requires |ps| == 4
    ensures Concat(ps) == ps[0].text + ps[1].text + ps[2].text + ps[3].text
  {
    assert ps[..1][..0] == [];
    assert Concat(ps[..1]) == ps[0].text;
    assert ps[..2][..1] == ps[..1];
    assert Concat(ps[..2]) == ps[0].text + ps[1].text;
    assert ps[..3][..2] == ps[..2];
    assert Concat(ps[..3]) == ps[0].text + ps[1].text + ps[2].text;
  }

  /** A name is handled by the last sub-window exporting it, and only
      exported names are handled. */
  lemma {:induction false} OwnersLastWins(ps: seq<Part>, h: string)
    ensures h in Owners(ps) <==> exists i :: 0 <= i < |ps| && h in ps[i].handlers
    ensures h in Owners(ps) ==>
              var i := Owners(ps)[h];
              i < |ps| && h in ps[i].handlers && forall j :: i < j < |ps| ==> h !in ps[j].handlers
    decreases |ps|
  {
    if ps != [] {
      var init := ps[..|ps| - 1];
      OwnersLastWins(init, h);
      assert forall i :: 0 <= i < |init| ==> init[i] == ps[i];
    }
  }

  /** The heap's three handler names and the plain stack's four are
      distinct. */
  lemma HandlerNamesDistinct()
    ensures Heap.HeapHandlers() !! Stack.PlainHandlers()
    ensures |Heap.HeapHandlers() + Stack.PlainHandlers()| == 7
  {
    var hs, ss := Heap.HeapHandlers(), Stack.PlainHandlers();
    assert hs == {"heap_set", "heap_get", "heap_delete"};
    assert ss == {"stack_push", "stack_pop", "stack_setvar", "stack_replace"};
    assert |hs| == 3 && |ss| == 4;
    assert hs !! ss;
  }

  lemma FourOwners(ps: seq<Part>)
    requires |ps| == 4
    ensures Owners(ps) == Bind(ps[0].handlers, 0) + Bind(ps[1].handlers, 1) + Bind(ps[2].handlers, 2) + Bind(ps[3].handlers, 3)
  {
    var b0, b1, b2, b3 := Bind(ps[0].handlers, 0), Bind(ps[1].handlers, 1), Bind(ps[2].handlers, 2), Bind(ps[3].handlers, 3);
    assert ps[..1][..0] == [];
    assert Owners(ps[..1]) == map[] + b0;
    assert map[] + b0 == b0;
    assert ps[..2][..1] == ps[..1];
    assert Owners(ps[..2]) == b0 + b1;
    assert ps[..3][..2] == ps[..2];
    assert Owners(ps[..3]) == b0 + b1 + b2;
  }

  lemma TwoOwners(a: set<string>, b: set<string>)
    requires a !! b
    ensures var t := Bind({}, 0) + Bind(a, 1) + Bind(b, 2) + Bind({}, 3);
            t.Keys == a + b && (forall h :: h in a ==> t[h] == 1) && (forall h :: h in b ==> t[h] == 2)
  {
  }

  /** The system window's table: the heap's three handlers and the plain
      stack's four, none shared. */
  lemma SystemHandlers(kernel: Part, heap: Part, stack: Part, code: Part)
    requires kernel.handlers == {} && code.handlers == {}
    requires heap.handlers == Heap.HeapHandlers() && stack.handlers == Stack.PlainHandlers()
    ensures var table := Owners([kernel, heap, stack, code]);
            table.Keys == Heap.HeapHandlers() + Stack.PlainHandlers() && |table.Keys| == 7 &&
            (forall h :: h in Heap.HeapHandlers() ==> table[h] == 1) &&
            (forall h :: h in Stack.PlainHandlers() ==> table[h] == 2)
  {
    FourOwners([kernel, heap, stack, code]);
    HandlerNamesDistinct();
    TwoOwners(heap.handlers, stack.handlers);
  }

  /** Sub-window `i` is the last one named `k`. */
  predicate LastNamed(ps: seq<Part>, i: int, k: string)
  {
    0 <= i < |ps| && ps[i].name == k && forall j :: i < j < |ps| ==> ps[j].name != k
  }

  /** `get_descriptions()` has a key exactly for each sub-window name,
      holding the meta text of the last sub-window with that name. */
  lemma {:induction false} DescriptionsLastWins(ps: seq<Part>, k: string)
    ensures k in Keys(Descriptions(ps)) <==> exists i :: 0 <= i < |ps| && ps[i].name == k
    ensures forall i :: LastNamed(ps, i, k) ==> Lookup(Descriptions(ps), k) == Some(Str(ps[i].meta))
    decreases |ps|
  {
    if ps != [] {
      var init := ps[..|ps| - 1];
      var last := ps[|ps| - 1];
      assert Descriptions(ps) == Put(Descriptions(init), last.name, Str(last.meta));
      DescriptionsLastWins(init, k);
      PutLookup(Descriptions(init), last.name, Str(last.meta));
      assert forall i :: 0 <= i < |init| ==> init[i] == ps[i];
      forall i | LastNamed(ps, i, k) ensures Lookup(Descriptions(ps), k) == Some(Str(ps[i].meta)) {
        if i < |init| {
          assert LastNamed(init, i, k);
        }
      }
    }
  }

  /** `get_state_snapshot()` has a key exactly for each sub-window name,
      holding the state text of the last sub-window with that name. */
  lemma {:induction false} StatesLastWins(ps: seq<Part>, k: string)
    ensures k in Keys(States(ps)) <==> exists i :: 0 <= i < |ps| && ps[i].name == k
    ensures forall i :: LastNamed(ps, i, k) ==> Lookup(States(ps), k) == Some(Str(ps[i].state))
    decreases |ps|
  {
    if ps != [] {
      var init := ps[..|ps| - 1];
      var last := ps[|ps| - 1];
      assert States(ps) == Put(States(init), last.name, Str(last.state));
      StatesLastWins(init, k);
      PutLookup(States(init), last.name, Str(last.state));
      assert forall i :: 0 <= i < |init| ==> init[i] == ps[i];
      forall i | LastNamed(ps, i, k) ensures Lookup(States(ps), k) == Some(Str(ps[i].state)) {
        if i < |init| {
          assert LastNamed(init, i, k);
        }
      }
    }
  }

  /** `get_divided_snapshot()` has a key exactly for each sub-window name,
      holding the `{meta, state}` pair of the last sub-window with that
      name. */
  lemma {:induction false} MergedLastWins(ps: seq<Part>, k: string)
    ensures k in Keys(Merged(ps)) <==> exists i :: 0 <= i < |ps| && ps[i].name == k
    ensures forall i :: LastNamed(ps, i, k) ==>
              Lookup(Merged(ps), k) == Some(Obj([Field("meta", Str(ps[i].meta)), Field("state", Str(ps[i].state))]))
    decreases |ps|
  {
    if ps != [] {
      var init := ps[..|ps| - 1];
      var last := ps[|ps| - 1];
      var d := Divided(last.name, Str(last.meta), Str(last.state));
      assert Merged(ps) == Spread(Merged(init), d);
      MergedLastWins(init, k);
      SpreadLookup(Merged(init), d, k);
      assert forall i :: 0 <= i < |init| ==> init[i] == ps[i];
      forall i | LastNamed(ps, i, k)
        ensures Lookup(Merged(ps), k) == Some(Obj([Field("meta", Str(ps[i].meta)), Field("state", Str(ps[i].state))]))
      {
        if i < |init| {
          assert LastNamed(init, i, k);
        }
      }
    }
  }

  /** With the default (missing) file arguments every sub-window is named
      "undefined_windowName", so each snapshot map has a single key, held
      by the code sub-window: its descriptions entry is empty and its
      state entry is the kernel text. */
  lemma NamesCollapse(heap: Part, stack: Part, content: string)
    requires heap.name == UndefinedName() && stack.name == UndefinedName()
    ensures var ps := [KernelPart(UndefinedName(), content), heap, stack, CodePart(UndefinedName(), content)];
            Descriptions(ps) == [Field(UndefinedName(), Str(""))] &&
            States(ps) == [Field(UndefinedName(), Str(content))] &&
            Merged(ps) == Divided(UndefinedName(), Str(""), Str(content))
  {
    var ps := [KernelPart(UndefinedName(), content), heap, stack, CodePart(UndefinedName(), content)];
    assert ps[..3][..2] == ps[..2];
    assert ps[..2][..1] == ps[..1];
    assert ps[..1][..0] == [];
    var n := UndefinedName();
    assert Descriptions(ps[..1]) == [Field(n, Str(content))];
    assert Descriptions(ps[..2]) == [Field(n, Str(heap.meta))];
    assert Descriptions(ps[..3]) == [Field(n, Str(stack.meta))];
    assert States(ps[..1]) == [Field(n, Str(""))];
    assert States(ps[..2]) == [Field(n, Str(heap.state))];
    assert States(ps[..3]) == [Field(n, Str(stack.state))];
    MergedNamed(ps[..3], n);
    SpreadOne(Merged(ps[..3]), n, Str(""), Str(content));
  }

  /** Merging in a one-window snapshot. */
  lemma SpreadOne(base: seq<Field>, n: string, meta: Value, state: Value)
    requires Keys(base) == [n]
    ensures Spread(base, Divided(n, meta, state)) == Divided(n, meta, state)
  {
    var d := Divided(n, meta, state);
    assert Spread(base, d) == Spread(Put(base, d[0].key, d[0].val), d[1..]);
    assert d[1..] == [];
    assert |base| == 1;
    assert Put(base, n, d[0].val) == d;
  }

  lemma {:induction false} MergedNamed(ps: seq<Part>, n: string)
    requires ps != [] && forall i :: 0 <= i < |ps| ==> ps[i].name == n
    ensures Keys(Merged(ps)) == [n]
    decreases |ps|
  {
    var last := ps[|ps| - 1];
    var d := Divided(n, Str(last.meta), Str(last.state));
    if |ps| == 1 {
      assert ps[..0] == [];
      assert Merged(ps) == Spread([], d);
      assert Spread([], d) == Spread(Put([], n, d[0].val), d[1..]);
      assert d[1..] == [];
    } else {
      MergedNamed(ps[..|ps| - 1], n);
      SpreadOne(Merged(ps[..|ps| - 1]), n, Str(last.meta), Str(last.state));
    }
  }
}
