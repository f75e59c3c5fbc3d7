/**
  The host side of the Rego guest: two checkpoints into a guest heap that only grows within a call. The guest is any
  program that allocates by moving a heap pointer up, may trap in any call, and when it does may leave anything at or
  above the heap pointer it started from. One memory cell holds one byte of text or one word.
 */
module RegoArena {
  import opened Options

  const I32_MAX := 0x7fff_ffff

  datatype Layout = Layout(root: nat, cells: seq<int>)

  /** The cells of a JSON value, with its root inside them. */
  type Image = i: Layout | i.root < |i.cells| witness Layout(0, [0])

  /** What the guest can see when it evaluates: the allocated memory and the address of the evaluation context. */
  datatype View = View(memory: seq<int>, ctx: nat)

  /** What a call of the guest returns, and the cells it allocates for that. */
  datatype Outcome = Outcome(result: int, cells: seq<int>)

  /**
    A compiled policy. `layout` gives the cells of a parsed JSON text when they start at a given address, `builtins` and
    `entrypoints` the two listings on the memory allocated so far, `solve` what evaluation does, and `dump` the text of
    a value. `decodes` is the verdict of the host's own decoder on a text, and `dictionary` what it makes of a text that
    holds names with their numbers.
   */
  datatype Program = Program(
    initial: seq<int>,
    layout: (seq<int>, nat) -> Option<Image>,
    builtins: seq<int> -> Outcome,
    entrypoints: seq<int> -> Outcome,
    solve: View -> Outcome,
    dump: (seq<int>, int) -> seq<int>,
    decodes: seq<int> -> bool,
    dictionary: seq<int> -> Option<map<string, int>>)

  // ---- what one call should compute ----

  /** Memory after a JSON text has been pushed, and the address of its value. */
  ghost function Pushed(program: Program, memory: seq<int>, text: seq<int>): Option<(seq<int>, nat)> {
    match program.layout(text, |memory| + |text|)
    case None => None
    case Some(image) => Some((memory + text + image.cells, |memory| + |text| + image.root))
  }

  /** The view that evaluation gets: the memory with data and input, then the context with its four fields. */
  ghost function ViewOf(dataAddr: nat, withInput: seq<int>, inputAddr: nat, entrypoint: int): View {
    View(withInput + [inputAddr, dataAddr, entrypoint, 0], |withInput|)
  }

  ghost function UpToZero(s: seq<int>): seq<int> {
    if s == [] || s[0] == 0 then [] else [s[0]] + UpToZero(s[1..])
  }

  ghost function Solved(program: Program, view: View): seq<int>
    requires view.ctx + 3 < |view.memory|
  {
    view.memory[view.ctx + 3 := program.solve(view).result] + program.solve(view).cells
  }

  /** The text of a value as the host reads it, if its decoder takes it. */
  ghost function Pulled(program: Program, memory: seq<int>, addr: int): Option<seq<int>> {
    var text := UpToZero(program.dump(memory, addr) + [0]);
    if program.decodes(text) then Some(text) else None
  }

  ghost function AnswerTo(program: Program, view: View): Option<seq<int>>
    requires view.ctx + 3 < |view.memory|
  {
    Pulled(program, Solved(program, view), program.solve(view).result)
  }

  /**
    This text is what the guest makes of its own result: the dump, up to its first zero, of the value at the address
    that evaluation returned. The memory dumped is the one evaluation was handed, with that address in the last field of
    the context, followed by the cells that evaluation allocated.
   */
  ghost predicate IsResult(program: Program, view: View, text: seq<int>)
    requires view.ctx + 3 < |view.memory|
  {
    var outcome := program.solve(view);
    var memory := view.memory[view.ctx + 3 := outcome.result] + outcome.cells;
    0 !in text && text + [0] <= program.dump(memory, outcome.result) + [0] && program.decodes(text)
  }

  lemma {:induction false} UpToZeroIs(s: seq<int>)
    requires 0 in s
    ensures 0 !in UpToZero(s) && UpToZero(s) + [0] <= s
  {
    if s[0] != 0 {
      UpToZeroIs(s[1..]);
      assert UpToZero(s) + [0] == [s[0]] + (UpToZero(s[1..]) + [0]);
    }
  }

  lemma {:induction false} UpToZeroOnly(s: seq<int>, text: seq<int>)
    requires 0 !in text && text + [0] <= s
    ensures UpToZero(s) == text
  {
    assert (text + [0])[|text|] == 0 && s[|text|] == 0;
    assert forall i :: 0 <= i < |text| ==> s[i] == (text + [0])[i] == text[i];
    UpToZeroStop(s, |text|);
    assert s[..|text|] == text;
  }

  /** An answer is the guest's result, and there is none only if the host cannot decode that. */
  lemma AnswerIsResult(program: Program, view: View)
    requires view.ctx + 3 < |view.memory|
    ensures forall text :: AnswerTo(program, view) == Some(text) <==> IsResult(program, view, text)
  {
    var outcome := program.solve(view);
    var dumped := program.dump(view.memory[view.ctx + 3 := outcome.result] + outcome.cells, outcome.result) + [0];
    assert dumped[|dumped| - 1] == 0;
    UpToZeroIs(dumped);
    forall text | IsResult(program, view, text) ensures AnswerTo(program, view) == Some(text) {
      UpToZeroOnly(dumped, text);
    }
  }

  /** The view on memory that holds the data, if the input can be laid out. */
  ghost function ViewFrom(program: Program, loaded: seq<int>, dataAddr: nat, input: seq<int>, entrypoint: int)
    : (v: Option<View>)
    ensures v.Some? ==> v.value.ctx + 4 == |v.value.memory|
  {
    match Pushed(program, loaded, input)
    case None => None
    case Some((withInput, inputAddr)) => Some(ViewOf(dataAddr, withInput, inputAddr, entrypoint))
  }

  /** The view of one call: a function of the module's static memory and of this call alone. */
  ghost function CallView(program: Program, fixed: seq<int>, request: Request): (v: Option<View>)
    ensures v.Some? ==> v.value.ctx + 4 == |v.value.memory|
  {
    match Pushed(program, fixed, request.data)
    case None => None
    case Some((loaded, dataAddr)) => ViewFrom(program, loaded, dataAddr, request.input, request.entrypoint)
  }

  ghost function AnswerOn(program: Program, view: Option<View>): Option<seq<int>>
    requires view.Some? ==> view.value.ctx + 3 < |view.value.memory|
  {
    if view.Some? then AnswerTo(program, view.value) else None
  }

  /** The answer to one call, likewise. */
  ghost function Answer(program: Program, fixed: seq<int>, request: Request): Option<seq<int>> {
    AnswerOn(program, CallView(program, fixed, request))
  }

  datatype Request = Request(entrypoint: int, input: seq<int>, data: seq<int>)

  /** What evaluation finds when it starts: its view and the heap pointer. */
  datatype Handed = Handed(view: View, heap: nat)

  // ---- the guest ----

  class Guest {
    const program: Program
    var memory: seq<int>
    var heap: nat
    /** How many calls have trapped. */
    var traps: nat
    /** What each evaluation so far was handed, whether or not it came to an end. */
    ghost var evals: seq<Handed>

    ghost predicate Valid()
      reads this
    {
      heap <= |memory|
    }

    ghost function Live(): seq<int>
      reads this
      requires Valid()
    {
      memory[..heap]
    }

    constructor (program: Program)
      ensures Valid() && this.program == program && Live() == program.initial && traps == 0 && evals == []
    {
      this.program := program;
      memory := program.initial;
      heap := |program.initial|;
      traps := 0;
      evals := [];
    }

    /** Abandoning a call half-way: whatever lay at or above the heap pointer may be overwritten. */
    method Scribble()
      requires Valid()
      modifies this`memory, this`heap
      ensures Valid() && old(Live()) <= Live() && |memory| >= old(|memory|)
    {
      var junk: seq<int> := *;
      var bump: int := *;
      if heap + |junk| < |memory| {
        memory := memory[..heap] + junk + memory[heap + |junk|..];
      } else {
        memory := memory[..heap] + junk;
      }
      if bump >= 0 && heap + bump <= |memory| {
        heap := heap + bump;
      }
      assert memory[..old(heap)] == old(Live());
    }

    method Trap()
      requires Valid()
      modifies this`memory, this`heap, this`traps
      ensures Valid() && old(Live()) <= Live() && |memory| >= old(|memory|) && traps == old(traps) + 1
    {
      Scribble();
      traps := traps + 1;
    }

    /** Allocates the given cells. */
    method Append(cells: seq<int>)
      requires Valid()
      modifies this`memory, this`heap
      ensures Valid() && Live() == old(Live()) + cells && |memory| >= old(|memory|)
    {
      var end := heap + |cells|;
      memory := memory[..heap] + cells + if end < |memory| then memory[end..] else [];
      heap := end;
      assert memory[..heap] == old(memory[..heap]) + cells;
    }

    method HeapPtrSet(p: nat) returns (ok: bool)
      requires Valid() && p <= |memory|
      modifies this`memory, this`heap, this`traps
      ensures memory == old(memory)
      ensures if ok then heap == p && traps == old(traps) else heap == old(heap) && traps == old(traps) + 1
    {
      ok := *;
      if ok { heap := p; } else { traps := traps + 1; }
    }

    method HeapPtrGet() returns (p: Option<nat>)
      modifies this`traps
      ensures if p.Some? then p.value == heap && traps == old(traps) else traps == old(traps) + 1
    {
      if * {
        p := Some(heap);
      } else {
        traps := traps + 1;
        p := None;
      }
    }

    /** opa_malloc: the block starts at the old heap pointer, with anything in it. */
    method Malloc(n: nat) returns (addr: Option<nat>)
      requires Valid()
      modifies this`memory, this`heap, this`traps
      ensures Valid() && old(Live()) <= Live() && |memory| >= old(|memory|)
      ensures addr.None? ==> traps == old(traps) + 1
      ensures addr.Some? ==> addr.value == old(heap) && heap == old(heap) + n && traps == old(traps)
    {
      if * {
        Trap();
        return None;
      }
      addr := Some(heap);
      Append(seq(n, _ => 0));
    }

    /** Memory::write from the host into an allocated block. */
    method Write(addr: nat, cells: seq<int>)
      requires Valid() && addr + |cells| == heap
      modifies this`memory
      ensures Valid() && Live() == old(Live())[..addr] + cells && |memory| == old(|memory|)
    {
      memory := memory[..addr] + cells + memory[heap..];
    }

    /** opa_json_parse: 0 when the text is no JSON. */
    method JsonParse(addr: nat, size: nat) returns (value: Option<nat>)
      requires Valid() && addr + size <= heap && heap > 0
      modifies this`memory, this`heap, this`traps
      ensures Valid() && old(Live()) <= Live() && |memory| >= old(|memory|)
      ensures value.None? ==> traps == old(traps) + 1
      ensures value.Some? ==> traps == old(traps)
      ensures value.Some? ==>
                match program.layout(old(memory[addr..addr + size]), old(heap))
                case None => value == Some(0)
                case Some(image) => value == Some(old(heap) + image.root) && Live() == old(Live()) + image.cells
    {
      if * {
        Trap();
        return None;
      }
      match program.layout(memory[addr..addr + size], heap)
      case None =>
        Scribble();
        return Some(0);
      case Some(image) =>
        value := Some(heap + image.root);
        Append(image.cells);
    }

    /** opa_eval_ctx_new: a context with its four fields zero. */
    method EvalCtxNew() returns (ctx: Option<nat>)
      requires Valid()
      modifies this`memory, this`heap, this`traps
      ensures Valid() && old(Live()) <= Live() && |memory| >= old(|memory|)
      ensures ctx.None? ==> traps == old(traps) + 1
      ensures ctx.Some? ==> ctx.value == old(heap) && Live() == old(Live()) + [0, 0, 0, 0] && traps == old(traps)
    {
      if * {
        Trap();
        return None;
      }
      ctx := Some(heap);
      Append([0, 0, 0, 0]);
    }

    /** opa_eval_ctx_set_input, _data and _entrypoint write fields 0, 1 and 2 of the context. */
    method EvalCtxSet(ctx: nat, field: nat, value: int) returns (ok: bool)
      requires Valid() && ctx + 3 < heap && field < 3
      modifies this`memory, this`traps
      ensures Valid() && |memory| == old(|memory|)
      ensures if ok then Live() == old(Live())[ctx + field := value] && traps == old(traps)
              else Live() == old(Live()) && traps == old(traps) + 1
    {
      ok := *;
      if ok { memory := memory[ctx + field := value]; } else { traps := traps + 1; }
    }

    /** eval: allocates what it needs and stores the address of its result in the context. */
    method Eval(ctx: nat) returns (ok: bool)
      requires Valid() && ctx + 3 < heap
      modifies this
      ensures Valid() && |memory| >= old(|memory|)
      ensures old(Live())[..ctx] <= Live() && heap >= old(heap)
      ensures ok ==> Live() == Solved(program, View(old(Live()), ctx)) && traps == old(traps)
      ensures !ok ==> traps == old(traps) + 1
      ensures evals == old(evals) + [Handed(View(old(Live()), ctx), old(heap))]
    {
      ghost var before := Live();
      evals := evals + [Handed(View(before, ctx), heap)];
      if * {
        Trap();
        return false;
      }
      var solution := program.solve(View(memory[..heap], ctx));
      memory := memory[ctx + 3 := solution.result];
      assert Live() == before[ctx + 3 := solution.result];
      Append(solution.cells);
      return true;
    }

    method EvalCtxGetResult(ctx: nat) returns (result: Option<int>)
      requires Valid() && ctx + 3 < heap
      modifies this`traps
      ensures if result.Some? then result.value == memory[ctx + 3] && traps == old(traps) else traps == old(traps) + 1
    {
      if * {
        result := Some(memory[ctx + 3]);
      } else {
        traps := traps + 1;
        result := None;
      }
    }

    /** `builtins` or `entrypoints`: the address of a listing. */
    method ListNames(names: seq<int> -> Outcome) returns (addr: Option<int>)
      requires Valid()
      modifies this`memory, this`heap, this`traps
      ensures Valid() && old(Live()) <= Live() && |memory| >= old(|memory|)
      ensures addr.None? ==> traps == old(traps) + 1
      ensures addr.Some? ==> traps == old(traps)
      ensures addr.Some? ==> addr.value == names(old(Live())).result && Live() == old(Live()) + names(old(Live())).cells
    {
      if * {
        Trap();
        return None;
      }
      var outcome := names(memory[..heap]);
      addr := Some(outcome.result);
      Append(outcome.cells);
    }

    /** opa_json_dump: the text of a value, ended by a zero. */
    method JsonDump(addr: int) returns (text: Option<nat>)
      requires Valid()
      modifies this`memory, this`heap, this`traps
      ensures Valid() && old(Live()) <= Live() && |memory| >= old(|memory|)
      ensures text.None? ==> traps == old(traps) + 1
      ensures text.Some? ==> text.value == old(heap) && Live() == old(Live()) + (program.dump(old(Live()), addr) + [0])
      ensures text.Some? ==> traps == old(traps)
    {
      if * {
        Trap();
        return None;
      }
      text := Some(heap);
      Append(program.dump(memory[..heap], addr) + [0]);
    }
  }

  // ---- StackHelper ----

  lemma {:induction false} UpToZeroStop(s: seq<int>, n: nat)
    requires n < |s| && s[n] == 0 && forall i :: 0 <= i < n ==> s[i] != 0
    ensures UpToZero(s) == s[..n]
  {
    if n > 0 {
      UpToZeroStop(s[1..], n - 1);
      assert s[..n] == [s[0]] + s[1..][..n - 1];
    }
  }

  /** Reads up to the first zero; fails exactly when the memory ends first. */
  method ReadString(memory: seq<int>, addr: nat) returns (text: Option<seq<int>>)
    ensures text.Some? <==> addr < |memory| && 0 in memory[addr..]
    ensures text.Some? ==> text.value == UpToZero(memory[addr..]) && 0 !in text.value
  {
    var data: seq<int> := [];
    var raw := addr;
    while true
      invariant raw == addr + |data|
      invariant if addr <= |memory| then raw <= |memory| && data == memory[addr..raw] else data == []
      invariant 0 !in data
      decreases |memory| - raw
    {
      if raw >= |memory| {
        assert addr <= |memory| ==> memory[addr..] == data;
        return None;
      }
      if memory[raw] == 0 {
        var rest := memory[addr..];
        assert rest[|data|] == 0 && rest[..|data|] == data;
        assert forall i :: 0 <= i < |data| ==> rest[i] == data[i];
        UpToZeroStop(rest, |data|);
        return Some(data);
      }
      data := data + [memory[raw]];
      raw := raw + 1;
    }
  }

  lemma {:induction false} UpToZeroPrefix(s: seq<int>, t: seq<int>)
    requires 0 in s
    ensures UpToZero(s + t) == UpToZero(s)
  {
    if s[0] != 0 {
      UpToZeroPrefix(s[1..], t);
      assert (s + t)[1..] == s[1..] + t;
    }
  }

  /** What lies below the heap pointer is still there when the allocated part has only grown. */
  lemma BelowKept(before: seq<int>, heap: nat, after: seq<int>, heap': nat, n: nat)
    requires n <= heap <= |before| && heap' <= |after| && before[..heap] <= after[..heap']
    ensures n <= heap' && after[..n] == before[..n]
  {
    assert before[..n] == before[..heap][..n] == after[..heap'][..n] == after[..n];
  }

  /** On success the text and its value lie on top of what was allocated; nothing below changes even on failure. */
  method PushJsonRaw(guest: Guest, text: seq<int>) returns (addr: Option<nat>)
    requires guest.Valid() && guest.heap > 0
    modifies guest`memory, guest`heap, guest`traps
    ensures guest.Valid() && old(guest.Live()) <= guest.Live() && |guest.memory| >= old(|guest.memory|)
    ensures addr.Some? ==> Pushed(guest.program, old(guest.Live()), text) == Some((guest.Live(), addr.value))
    ensures addr.Some? ==> guest.traps == old(guest.traps)
    ensures addr.None? ==>
              || |text| > I32_MAX
              || Pushed(guest.program, old(guest.Live()), text).None?
              || guest.traps > old(guest.traps)
  {
    if |text| > I32_MAX { return None; }
    ghost var before := guest.Live();
    var raw := guest.Malloc(|text|);
    if raw.None? { return None; }
    guest.Write(raw.value, text);
    assert guest.Live() == before + text;
    assert guest.memory[raw.value..raw.value + |text|] == text by {
      assert guest.memory[..guest.heap][raw.value..] == text;
    }
    var value := guest.JsonParse(raw.value, |text|);
    if value.None? || value.value == 0 { return None; }
    return value;
  }

  /** Dumps a value and reads the text back. */
  method PullJson(guest: Guest, addr: int) returns (text: Option<seq<int>>)
    requires guest.Valid()
    modifies guest`memory, guest`heap, guest`traps
    ensures guest.Valid() && old(guest.Live()) <= guest.Live() && |guest.memory| >= old(|guest.memory|)
    ensures text.Some? ==> text == Pulled(guest.program, old(guest.Live()), addr)
    ensures text.None? ==> Pulled(guest.program, old(guest.Live()), addr).None? || guest.traps > old(guest.traps)
    ensures text.Some? ==> guest.traps == old(guest.traps)
    ensures guest.traps == old(guest.traps) ==>
              guest.Live() == old(guest.Live()) + (guest.program.dump(old(guest.Live()), addr) + [0])
  {
    ghost var before := guest.Live();
    var raw := guest.JsonDump(addr);
    if raw.None? { return None; }
    ghost var dumped := guest.program.dump(before, addr) + [0];
    ghost var rest := guest.memory[guest.heap..];
    assert guest.memory[raw.value..] == dumped + rest by {
      assert guest.memory == guest.memory[..guest.heap] + rest == before + dumped + rest;
    }
    assert dumped[|dumped| - 1] == 0 && (dumped + rest)[|dumped| - 1] == 0;
    UpToZeroPrefix(dumped, rest);
    text := ReadString(guest.memory, raw.value);
    if !guest.program.decodes(text.value) { return None; }
  }

  /** Memory after a listing has been called for and its text has been pulled. */
  ghost function Listed(program: Program, memory: seq<int>, names: seq<int> -> Outcome): seq<int> {
    var called := memory + names(memory).cells;
    called + (program.dump(called, names(memory).result) + [0])
  }

  /** What a listing says, if its text is a dictionary of names. */
  ghost function NamesIn(program: Program, memory: seq<int>, names: seq<int> -> Outcome): Option<map<string, int>> {
    match Pulled(program, memory + names(memory).cells, names(memory).result)
    case Some(text) => program.dictionary(text)
    case None => None
  }

  /** Calls for a listing and reads it. */
  method PullNames(guest: Guest, names: seq<int> -> Outcome) returns (listing: Option<map<string, int>>)
    requires guest.Valid()
    modifies guest`memory, guest`heap, guest`traps
    ensures guest.Valid() && old(guest.Live()) <= guest.Live() && |guest.memory| >= old(|guest.memory|)
    ensures listing.Some? ==> guest.Live() == Listed(guest.program, old(guest.Live()), names)
    ensures listing.Some? ==> listing == NamesIn(guest.program, old(guest.Live()), names)
    ensures listing.None? ==> NamesIn(guest.program, old(guest.Live()), names).None? || guest.traps > old(guest.traps)
  {
    hide Pulled;
    var addr := guest.ListNames(names);
    if addr.None? { return None; }
    var text := PullJson(guest, addr.value);
    if text.None? { return None; }
    listing := guest.program.dictionary(text.value);
  }

  // ---- Policy ----

  const EMPTY_OBJECT: seq<int> := [123, 125]

  class Policy {
    const guest: Guest
    var dataAddr: nat
    var baseHeapPtr: nat
    var dataHeapPtr: nat
    /** What lay below the first checkpoint when it was taken. */
    ghost const fixed: seq<int>

    /** Whatever calls have failed so far, the memory below the first checkpoint is as it was. */
    ghost predicate Valid()
      reads this, guest
    {
      && guest.Valid()
      && 0 < baseHeapPtr <= guest.heap
      && baseHeapPtr <= dataHeapPtr <= |guest.memory|
      && guest.memory[..baseHeapPtr] == fixed
    }

    constructor (guest: Guest, dataAddr: nat, heapPtr: nat)
      requires guest.Valid() && 0 < heapPtr == guest.heap
      ensures Valid() && this.guest == guest && fixed == guest.Live() && this.dataAddr == dataAddr
    {
      this.guest := guest;
      this.dataAddr := dataAddr;
      this.baseHeapPtr := heapPtr;
      this.dataHeapPtr := heapPtr;
      this.fixed := guest.memory[..heapPtr];
    }

    /** Policy::new on a guest that has just been instantiated. */
    static method New(guest: Guest) returns (policy: Policy?)
      requires guest.Valid() && guest.heap > 0
      modifies guest`memory, guest`heap, guest`traps
      ensures policy != null ==>
                && fresh(policy) && policy.guest == guest && policy.Valid()
                && Pushed(guest.program, old(guest.Live()), EMPTY_OBJECT) == Some((policy.fixed, policy.dataAddr))
                && guest.Live() == policy.fixed
      ensures policy == null ==>
                Pushed(guest.program, old(guest.Live()), EMPTY_OBJECT).None? || guest.traps > old(guest.traps)
    {
      var addr := PushJsonRaw(guest, EMPTY_OBJECT);
      if addr.None? { return null; }
      var heapPtr := guest.HeapPtrGet();
      if heapPtr.None? { return null; }
      policy := new Policy(guest, addr.value, heapPtr.value);
    }

    /** Loads the data right above the first checkpoint, whatever an earlier call left there. */
    method SetData(data: seq<int>) returns (ok: bool)
      requires Valid()
      modifies this, guest`memory, guest`heap, guest`traps
      ensures Valid() && baseHeapPtr == old(baseHeapPtr)
      ensures ok ==> Pushed(guest.program, fixed, data) == Some((guest.memory[..dataHeapPtr], dataAddr))
      ensures ok ==> guest.traps == old(guest.traps)
      ensures !ok ==>
                dataHeapPtr == old(dataHeapPtr) &&
                (|data| > I32_MAX || Pushed(guest.program, fixed, data).None? || guest.traps > old(guest.traps))
    {
      hide Pushed;
      ok := guest.HeapPtrSet(baseHeapPtr);
      if !ok { return; }
      assert guest.Live() == fixed;
      ghost var memory, heap := guest.memory, guest.heap;
      var addr := PushJsonRaw(guest, data);
      BelowKept(memory, heap, guest.memory, guest.heap, baseHeapPtr);
      if addr.None? { return false; }
      dataAddr := addr.value;
      var heapPtr := guest.HeapPtrGet();
      if heapPtr.None? { return false; }
      dataHeapPtr := heapPtr.value;
    }

    /** Fills the context in for an input that has been pushed. */
    method NewContext(entrypoint: int, inputAddr: nat) returns (ctx: Option<nat>)
      requires guest.Valid()
      modifies guest`memory, guest`heap, guest`traps
      ensures guest.Valid() && old(guest.Live()) <= guest.Live() && |guest.memory| >= old(|guest.memory|)
      ensures ctx.Some? ==>
                ctx.value == old(guest.heap) && guest.traps == old(guest.traps) && guest.heap == ctx.value + 4
      ensures ctx.Some? ==>
                View(guest.Live(), ctx.value) == ViewOf(dataAddr, old(guest.Live()), inputAddr, entrypoint)
      ensures ctx.None? ==> guest.traps > old(guest.traps)
    {
      ghost var before := guest.Live();
      var addr := guest.EvalCtxNew();
      if addr.None? { return None; }
      var ok := guest.EvalCtxSet(addr.value, 0, inputAddr);
      if !ok { return None; }
      ok := guest.EvalCtxSet(addr.value, 1, dataAddr);
      if !ok { return None; }
      ok := guest.EvalCtxSet(addr.value, 2, entrypoint);
      if !ok { return None; }
      assert guest.Live() == before + [inputAddr, dataAddr, entrypoint, 0];
      return addr;
    }

    /**
      Answers from whatever lies below the second checkpoint, and leaves that part of the memory alone. If evaluation is
      reached at all, answered or trapped, it is handed the view of this input on that memory, and the heap pointer is
      the end of the view.
     */
    method Evaluate(entrypoint: int, input: seq<int>) returns (answer: Option<seq<int>>)
      requires Valid()
      modifies guest
      ensures Valid() && guest.memory[..dataHeapPtr] == old(guest.memory[..dataHeapPtr])
      ensures var view := ViewFrom(guest.program, old(guest.memory[..dataHeapPtr]), dataAddr, input, entrypoint);
              && (answer.Some? ==> AnswerOn(guest.program, view) == answer && guest.evals != old(guest.evals))
              && (answer.Some? ==> view.Some? && IsResult(guest.program, view.value, answer.value))
              && (guest.evals == old(guest.evals) ||
                  (view.Some? && guest.evals == old(guest.evals) + [Handed(view.value, |view.value.memory|)]))
              && (answer.None? ==>
                    || |input| > I32_MAX
                    || AnswerOn(guest.program, view).None?
                    || guest.traps > old(guest.traps))
    {
      hide AnswerTo, Pushed, ViewOf, IsResult;
      ghost var loaded := guest.memory[..dataHeapPtr];
      var ok := guest.HeapPtrSet(dataHeapPtr);
      if !ok { return None; }
      ghost var memory, heap := guest.memory, guest.heap;
      var inputAddr := PushJsonRaw(guest, input);
      BelowKept(memory, heap, guest.memory, guest.heap, dataHeapPtr);
      BelowKept(memory, heap, guest.memory, guest.heap, baseHeapPtr);
      if inputAddr.None? { return None; }
      memory, heap := guest.memory, guest.heap;
      var ctx := NewContext(entrypoint, inputAddr.value);
      BelowKept(memory, heap, guest.memory, guest.heap, dataHeapPtr);
      BelowKept(memory, heap, guest.memory, guest.heap, baseHeapPtr);
      if ctx.None? { return None; }
      memory := guest.memory;
      answer := Solve(ctx.value);
      assert memory[..ctx.value + 4][..ctx.value] == memory[..ctx.value];
      BelowKept(memory, ctx.value, guest.memory, guest.heap, dataHeapPtr);
      BelowKept(memory, ctx.value, guest.memory, guest.heap, baseHeapPtr);
    }

    /** Runs the evaluation and reads its result. */
    method Solve(ctx: nat) returns (answer: Option<seq<int>>)
      requires guest.Valid() && ctx + 3 < guest.heap
      modifies guest
      ensures guest.Valid() && old(guest.Live())[..ctx] <= guest.Live() && |guest.memory| >= old(|guest.memory|)
      ensures answer.Some? ==> answer == AnswerTo(guest.program, View(old(guest.Live()), ctx))
      ensures answer.Some? ==> IsResult(guest.program, View(old(guest.Live()), ctx), answer.value)
      ensures answer.Some? ==> guest.traps == old(guest.traps)
      ensures answer.None? ==>
                AnswerTo(guest.program, View(old(guest.Live()), ctx)).None? || guest.traps > old(guest.traps)
      ensures guest.evals == old(guest.evals) + [Handed(View(old(guest.Live()), ctx), old(guest.heap))]
    {
      hide Pulled, IsResult;
      AnswerIsResult(guest.program, View(guest.Live(), ctx));
      var ok := guest.Eval(ctx);
      if !ok { return None; }
      var result := guest.EvalCtxGetResult(ctx);
      if result.None? { return None; }
      answer := PullJson(guest, result.value);
    }
  }

  // ---- Evaluator ----

  /** The memory below the first checkpoint: the initial memory, the listing of builtins, and the empty data
      document. */
  ghost function Base(program: Program): Option<(seq<int>, nat)> {
    Pushed(program, Listed(program, program.initial, program.builtins), EMPTY_OBJECT)
  }

  /** In cells: the initial memory, what the listing of builtins allocates, its text, and `{}` with its value. */
  lemma BaseShape(program: Program)
    requires Base(program).Some?
    ensures var listing := program.builtins(program.initial);
            var called := program.initial + listing.cells;
            var listed := called + program.dump(called, listing.result) + [0];
            && program.layout([123, 125], |listed| + 2).Some?
            && Base(program).value.0 == listed + [123, 125] + program.layout([123, 125], |listed| + 2).value.cells
  {
    var listing := program.builtins(program.initial);
    var called := program.initial + listing.cells;
    var text := program.dump(called, listing.result);
    assert called + (text + [0]) == called + text + [0];
  }

  class Evaluator {
    const program: Program
    const entrypoints: set<int>
    var policy: Policy

    ghost predicate Valid()
      reads this, policy, policy.guest
    {
      policy.Valid() && policy.guest.program == program && Base(program).Some? && policy.fixed == Base(program).value.0
    }

    constructor (program: Program, entrypoints: set<int>, policy: Policy)
      requires policy.Valid() && policy.guest.program == program
      requires Base(program).Some? && policy.fixed == Base(program).value.0
      ensures Valid() && this.program == program && this.entrypoints == entrypoints && this.policy == policy
    {
      this.program := program;
      this.entrypoints := entrypoints;
      this.policy := policy;
    }

    /**
      Evaluator::from_engine_and_module: builtins and entrypoints are listed again, above the first checkpoint. The
      entrypoints are the listed ones, and a module that uses a builtin which the host does not support is refused.
     */
    static method FromModule(program: Program, supported: set<string>) returns (evaluator: Evaluator?)
      requires program.initial != []
      ensures evaluator != null ==> fresh(evaluator) && evaluator.Valid() && evaluator.program == program
      ensures evaluator != null ==>
                var fixed := Base(program).value.0;
                var used := NamesIn(program, fixed, program.builtins);
                var listed := NamesIn(program, Listed(program, fixed, program.builtins), program.entrypoints);
                && used.Some? && used.value.Keys <= supported
                && listed.Some? && evaluator.entrypoints == listed.value.Values
    {
      hide Base, Listed, NamesIn;
      var policy := Setup(program);
      if policy == null { return null; }
      ghost var memory, heap := policy.guest.memory, policy.guest.heap;
      var used := PullNames(policy.guest, program.builtins);
      BelowKept(memory, heap, policy.guest.memory, policy.guest.heap, policy.baseHeapPtr);
      if used.None? { return null; }
      memory, heap := policy.guest.memory, policy.guest.heap;
      var listed := PullNames(policy.guest, program.entrypoints);
      BelowKept(memory, heap, policy.guest.memory, policy.guest.heap, policy.baseHeapPtr);
      if listed.None? { return null; }
      var missing := used.value.Keys - supported;
      if missing != {} { return null; }
      assert forall name :: name in used.value.Keys && name !in supported ==> name in missing;
      evaluator := new Evaluator(program, listed.value.Values, policy);
    }

    /** Evaluator::setup: StackHelper::new lists the builtins, then Policy::new takes the first checkpoint. */
    static method Setup(program: Program) returns (policy: Policy?)
      requires program.initial != []
      ensures policy != null ==>
                && fresh(policy) && fresh(policy.guest) && policy.Valid() && policy.guest.program == program
                && Base(program) == Some((policy.fixed, policy.dataAddr)) && policy.guest.Live() == policy.fixed
    {
      hide Pushed, NamesIn;
      var guest := new Guest(program);
      var listing := PullNames(guest, program.builtins);
      if listing.None? { return null; }
      policy := Policy.New(guest);
    }

    /**
      Whatever calls came before, and wherever they stopped, an answer is the answer of this call's data, input and
      entrypoint on the memory below the first checkpoint. If evaluation is reached, it is handed the view of this call,
      with the heap pointer at its end. A call fails only for a reason of its own.
     */
    method Evaluate(request: Request) returns (answer: Option<seq<int>>)
      requires Valid()
      modifies policy, policy.guest
      ensures Valid()
      ensures var view := CallView(program, Base(program).value.0, request);
              && (answer.Some? ==>
                    && request.entrypoint in entrypoints && policy.guest.evals != old(policy.guest.evals)
                    && answer == Answer(program, Base(program).value.0, request)
                    && view.Some? && IsResult(program, view.value, answer.value))
              && (policy.guest.evals == old(policy.guest.evals) ||
                  (view.Some? &&
                   policy.guest.evals == old(policy.guest.evals) + [Handed(view.value, |view.value.memory|)]))
              && (answer.None? ==>
                    || request.entrypoint !in entrypoints
                    || |request.data| > 0x7fff_ffff
                    || |request.input| > 0x7fff_ffff
                    || Answer(program, Base(program).value.0, request).None?
                    || policy.guest.traps > old(policy.guest.traps))
    {
      hide Base, Pushed, ViewFrom, AnswerTo, IsResult;
      if request.entrypoint !in entrypoints { return None; }
      var ok := policy.SetData(request.data);
      if !ok { return None; }
      answer := policy.Evaluate(request.entrypoint, request.input);
    }

    /** A reset replaces guest and policy together, or neither. */
    method Reset() returns (ok: bool)
      requires Valid() && program.initial != []
      modifies this`policy
      ensures Valid()
      ensures if ok then fresh(policy) && fresh(policy.guest) else policy == old(policy)
    {
      hide Base;
      var renewed := Setup(program);
      if renewed == null { return false; }
      policy := renewed;
      return true;
    }
  }

  /** The record of an evaluation is the one of this request. */
  ghost predicate HandedFor(program: Program, fixed: seq<int>, request: Request, handed: Handed) {
    var view := CallView(program, fixed, request);
    view.Some? && handed == Handed(view.value, |view.value.memory|)
  }

  /** What each call left behind, call by call: the record of its own request, or none if evaluation was not reached. */
  ghost predicate RecordsOf(program: Program, requests: seq<Request>, records: seq<Option<Handed>>) {
    && Base(program).Some? && |records| <= |requests|
    && forall i :: 0 <= i < |records| && records[i].Some? ==>
                     HandedFor(program, Base(program).value.0, requests[i], records[i].value)
  }

  ghost function Made(records: seq<Option<Handed>>): seq<Handed> {
    if records == [] then []
    else
      var last := records[|records| - 1];
      Made(records[..|records| - 1]) + if last.Some? then [last.value] else []
  }

  /**
    After any sequence of earlier calls, each answered or stopped at any guest call, only the last call matters; and
    each call leaves at most one record of an evaluation, in the order of the calls, which is the one of its own
    request.
   */
  method AnswerAfterHistory(evaluator: Evaluator, history: seq<Request>, last: Request)
    returns (answer: Option<seq<int>>, ghost records: seq<Option<Handed>>)
    requires evaluator.Valid()
    modifies evaluator.policy, evaluator.policy.guest
    ensures evaluator.Valid()
    ensures |records| == |history| + 1 && RecordsOf(evaluator.program, history + [last], records)
    ensures evaluator.policy.guest.evals == old(evaluator.policy.guest.evals) + Made(records)
    ensures answer.Some? ==>
              && records[|history|].Some? && answer == Answer(evaluator.program, Base(evaluator.program).value.0, last)
              && var view := records[|history|].value.view;
                 view.ctx + 3 < |view.memory| && IsResult(evaluator.program, view, answer.value)
  {
    hide Base, Answer, CallView, Made, IsResult;
    ghost var before := evaluator.policy.guest.evals;
    records := [];
    assert Made([]) == [] by { NothingMade(); }
    for i := 0 to |history|
      invariant evaluator.Valid()
      invariant |records| == i && RecordsOf(evaluator.program, history + [last], records)
      invariant evaluator.policy.guest.evals == before + Made(records)
    {
      ghost var evals := evaluator.policy.guest.evals;
      var earlier := evaluator.Evaluate(history[i]);
      records := OneMore(evaluator.program, history + [last], records, before, evals, evaluator.policy.guest.evals);
    }
    ghost var evals := evaluator.policy.guest.evals;
    answer := evaluator.Evaluate(last);
    records := OneMore(evaluator.program, history + [last], records, before, evals, evaluator.policy.guest.evals);
  }

  lemma NothingMade()
    ensures Made([]) == []
  {
  }

  lemma OneMore(program: Program, requests: seq<Request>, records: seq<Option<Handed>>, before: seq<Handed>,
                evals: seq<Handed>, evals': seq<Handed>)
    returns (records': seq<Option<Handed>>)
    requires RecordsOf(program, requests, records) && |records| < |requests| && evals == before + Made(records)
    requires evals' == evals ||
             (|evals'| == |evals| + 1 && evals' == evals + [evals'[|evals|]] &&
              HandedFor(program, Base(program).value.0, requests[|records|], evals'[|evals|]))
    ensures |records'| == |records| + 1 && RecordsOf(program, requests, records') && evals' == before + Made(records')
    ensures records'[|records|].Some? <==> evals' != evals
  {
    hide HandedFor, Base, Made;
    var record := if evals' == evals then None else Some(evals'[|evals|]);
    records' := records + [record];
    MadeOneMore(records, record);
  }

  lemma MadeOneMore(records: seq<Option<Handed>>, record: Option<Handed>)
    ensures Made(records + [record]) == Made(records) + if record.Some? then [record.value] else []
  {
    assert (records + [record])[..|records|] == records;
  }

  // ---- what the guest is handed ----

  /**
    What evaluation is handed: the memory below the first checkpoint, the data text and its value, the input text and
    its value, and the context, one after the other and with nothing in between. So data and input are disjoint, each
    value lies inside its own region, and the heap pointer is the sum of the sizes of this call's parts.
   */
  lemma HandedShape(program: Program, fixed: seq<int>, request: Request, handed: Handed)
    requires HandedFor(program, fixed, request, handed)
    ensures var Request(entrypoint, input, data) := request;
            var (loaded, dataAddr) := Pushed(program, fixed, data).value;
            var (withInput, inputAddr) := Pushed(program, loaded, input).value;
            var dataImage := program.layout(data, |fixed| + |data|).value;
            var inputImage := program.layout(input, |loaded| + |input|).value;
            var memory := handed.view.memory;
            && memory[..|fixed|] == fixed
            && memory[|fixed|..|fixed| + |data|] == data
            && memory[|fixed| + |data|..|loaded|] == dataImage.cells
            && memory[|loaded|..|loaded| + |input|] == input
            && memory[|loaded| + |input|..handed.view.ctx] == inputImage.cells
            && memory[handed.view.ctx..] == [inputAddr, dataAddr, entrypoint, 0]
            && |fixed| + |data| <= dataAddr < |loaded|
            && |loaded| + |input| <= inputAddr < handed.view.ctx
            && handed.heap == |memory| == |fixed| + |data| + |dataImage.cells| + |input| + |inputImage.cells| + 4
  {
    var (loaded, dataAddr) := Pushed(program, fixed, request.data).value;
    var (withInput, inputAddr) := Pushed(program, loaded, request.input).value;
    var context := [inputAddr, dataAddr, request.entrypoint, 0];
    assert handed == Handed(View(withInput + context, |withInput|), |withInput| + 4);
    PushedParts(program, fixed, request.data);
    PushedParts(program, loaded, request.input);
    hide *;
    Behind(withInput, context, |loaded|, |loaded| + |request.input|);
    Behind(withInput, context, |loaded| + |request.input|, |withInput|);
    assert (withInput + context)[|withInput|..] == context;
    LoadedParts(fixed, request.data, loaded, withInput, context);
  }

  /** What lies in the data region is still there behind the input and the context. */
  lemma LoadedParts(fixed: seq<int>, data: seq<int>, loaded: seq<int>, withInput: seq<int>, context: seq<int>)
    requires |fixed| + |data| <= |loaded| <= |withInput| && withInput[..|loaded|] == loaded &&
             loaded[..|fixed|] == fixed
    ensures var memory := withInput + context;
            && memory[..|fixed|] == fixed
            && memory[|fixed|..|fixed| + |data|] == loaded[|fixed|..|fixed| + |data|]
            && memory[|fixed| + |data|..|loaded|] == loaded[|fixed| + |data|..|loaded|]
  {
    Behind(withInput, context, 0, |fixed|);
    Behind(withInput, context, |fixed|, |fixed| + |data|);
    Behind(withInput, context, |fixed| + |data|, |loaded|);
    SameSlice(loaded, withInput, 0, |fixed|);
    SameSlice(loaded, withInput, |fixed|, |fixed| + |data|);
    SameSlice(loaded, withInput, |fixed| + |data|, |loaded|);
  }

  lemma Behind(part: seq<int>, rest: seq<int>, from: nat, to: nat)
    requires from <= to <= |part|
    ensures (part + rest)[from..to] == part[from..to]
  {
    assert (part + rest)[..|part|] == part;
    SameSlice(part, part + rest, from, to);
  }

  lemma SameSlice(part: seq<int>, whole: seq<int>, from: nat, to: nat)
    requires from <= to <= |part| <= |whole| && whole[..|part|] == part
    ensures whole[from..to] == part[from..to]
  {
    forall i | from <= i < to ensures whole[i] == part[i] {
      assert whole[..|part|][i] == whole[i];
    }
  }

  /** The parts of a push: what was there, the text, and the cells of its value, with the root inside them. */
  lemma PushedParts(program: Program, memory: seq<int>, text: seq<int>)
    requires Pushed(program, memory, text).Some?
    ensures program.layout(text, |memory| + |text|).Some?
    ensures var (after, addr) := Pushed(program, memory, text).value;
            var cells := program.layout(text, |memory| + |text|).value.cells;
            && |after| == |memory| + |text| + |cells| && after[..|memory|] == memory
            && after[|memory|..|memory| + |text|] == text && after[|memory| + |text|..|after|] == cells
            && |memory| + |text| <= addr < |after|
  {
  }
}
