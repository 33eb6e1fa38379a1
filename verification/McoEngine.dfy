/** The coroutine engine of one thread as a function on states: mco/McoRoutine.cpp over
    mco/McoStack.cpp. The imperative methods of McoRoutine.dfy are proved equal to these functions;
    everything proved about the functions is therefore proved about the methods. */
module McoEngine {
  import opened Prelude

  /** A McoRoutine together with its McoStack and the part of its context that matters here. */
  datatype Co = Co(
    usePrivate: bool,
    sink: Option<Id>,
    inCallstack: bool,
    shouldClose: bool,
    start: bool,
    running: bool,
    done: bool,
    doneYield: bool,
    stackStore: bool,
    parked: bool,          // its context was saved by mcontext_swap; otherwise it enters CoroutineRun
    sp: nat,               // stack_sp, as an offset into the shared buffer
    tmp: Bytes,            // stack_tmp
    restoreSize: nat,
    own: Bytes)            // the live bytes of a private stack

  /** What happens to the shared buffer, in order. */
  datatype Copy =
    | Occupied(id: Id)     // the recorded occupant changes to id
    | Stored(id: Id)
    | Recovered(id: Id)
    | Dropped(id: Id)      // id is freed while its bytes are stored

  datatype State = State(
    main: Id,
    cos: map<Id, Co>,
    callstack: seq<Id>,    // the live prefix [0..index)
    occupy: Option<Id>,
    buffer: Bytes,         // commonStack_
    cpuSp: nat,            // the stack pointer of the running coroutine, as an offset into buffer
    threadStack: Bytes,    // the live bytes of the thread's own stack, on which main runs
    log: seq<Copy>)

  function NewCo(usePrivate: bool): Co {
    Co(usePrivate, None, false, false, false, false, false, false, false, false, 0, [], 0, [])
  }

  const MAIN_CO := NewCo(true).(start := true, running := true, inCallstack := true)

  function Init(main: Id, buffer: Bytes, threadStack: Bytes): State {
    State(main, map[], [], None, buffer, 0, threadStack, [])
  }

  function Top(s: State): Id
    requires s.callstack != []
  {
    s.callstack[|s.callstack| - 1]
  }

  function Pop(s: seq<Id>): seq<Id> {
    if s == [] then [] else s[..|s| - 1]
  }

  /** Entry i of the call stack as the std::map behind it yields it: absent entries read as null. */
  function Entry(callstack: seq<Id>, i: int): Option<Id> {
    if 0 <= i < |callstack| then Some(callstack[i]) else None
  }

  predicate Over(c: Co) {
    c.done && c.doneYield
  }

  function From(buffer: Bytes, sp: nat): Bytes {
    if sp <= |buffer| then buffer[sp..] else []
  }

  function Overwrite(buffer: Bytes, at: nat, data: Bytes): (r: Bytes)
    ensures |r| == |buffer|
  {
    if at + |data| <= |buffer| then buffer[..at] + data + buffer[at + |data|..] else buffer
  }

  /** StoreUsedCommonStack on the stack of c. */
  function StoreCo(c: Co, buffer: Bytes): Co {
    if c.usePrivate then c
    else c.(restoreSize := |From(buffer, c.sp)|, tmp := From(buffer, c.sp))
  }

  /** RecoverUsedCommonStack on the stack of c. */
  function RecoverInto(c: Co, buffer: Bytes): Bytes {
    if c.restoreSize == 0 || c.restoreSize > |c.tmp| then buffer
    else Overwrite(buffer, c.sp, c.tmp[..c.restoreSize])
  }

  /** Is the recorded occupant o evicted, and so stored, when to arrives? */
  predicate Evicts(s: State, to: Id) {
    && s.occupy.Some? && s.occupy.value != to && s.occupy.value in s.cos
    && !Over(s.cos[s.occupy.value])
  }

  /** The leaving coroutine records how deep its stack is; mcontext_swap will save its context. */
  function Park(s: State, from: Id): State
    requires from in s.cos
  {
    s.(cos := s.cos[from := s.cos[from].(sp := s.cpuSp, parked := true)])
  }

  /** Record to as the occupant of the shared buffer. */
  function Occupy(s: State, to: Id): State {
    s.(occupy := Some(to),
       log := if s.occupy == Some(to) then s.log else s.log + [Occupied(to)])
  }

  /** Copy the bytes of o out of the shared buffer. */
  function Evict(s: State, o: Id): State
    requires o in s.cos
  {
    s.(cos := s.cos[o := StoreCo(s.cos[o].(stackStore := true), s.buffer)],
       log := s.log + [Stored(o)])
  }

  /** to is about to run: claim the shared buffer for it, unless its stack is private. */
  function Claim(s: State, to: Id): State
    requires to in s.cos
  {
    if s.cos[to].usePrivate then s
    else if Evicts(s, to) then Evict(Occupy(s, to), s.occupy.value)
    else Occupy(s, to)
  }

  /** The half of McoSwap that the leaving coroutine executes. */
  function SwapOut(s: State, from: Id, to: Id): State
    requires from in s.cos && to in s.cos
  {
    Claim(Park(s, from), to)
  }

  /** Control reaches to: a coroutine that left before executes the second half of McoSwap on its
      own stack, a fresh one enters CoroutineRun at the top of its stack. */
  function Arrive(s: State, to: Id): State
    requires to in s.cos
  {
    if !s.cos[to].parked then s.(cpuSp := |s.buffer|)
    else
      var s1 := s.(cpuSp := s.cos[to].sp);
      if s.callstack == [] || Top(s) !in s.cos then s1
      else
        var cur := s.cos[Top(s)];
        if !cur.usePrivate && cur.stackStore then
          s1.(cos := s.cos[Top(s) := cur.(stackStore := false)],
              buffer := RecoverInto(cur, s.buffer),
              log := s.log + [Recovered(Top(s))])
        else s1
  }

  function Swap(s: State, from: Id, to: Id): State
    requires from in s.cos && to in s.cos
  {
    Arrive(SwapOut(s, from, to), to)
  }

  /** MainMco: the thread's own flow becomes a coroutine when the first resume is made. */
  function MainMco(s: State): State {
    if s.callstack != [] then s
    else s.(cos := s.cos[s.main := MAIN_CO], callstack := [s.main])
  }

  /** The record of a coroutine as McoResume leaves it above sink: a fresh one gets an empty stack and
      a context that enters CoroutineRun. */
  function Begun(c: Co, sink: Id): Co {
    (if c.start then c else c.(start := true, parked := false, sp := 0, tmp := [], restoreSize := 0))
    .(running := true, sink := Some(sink), inCallstack := true)
  }

  /** The record of a coroutine as McoYield leaves it. */
  function Ended(c: Co): Co {
    (if c.done then c.(doneYield := true, start := false) else c).(running := false, inCallstack := true)
  }

  function SetRunning(s: State, id: Id, running: bool): State
    requires id in s.cos
  {
    s.(cos := s.cos[id := s.cos[id].(running := running)])
  }

  /** The state in which McoResume calls McoSwap. */
  function Push(s: State, id: Id): State
    requires id in s.cos && s.callstack != [] && Top(s) in s.cos
  {
    SetRunning(s.(cos := s.cos[id := Begun(s.cos[id], Top(s))]), Top(s), false)
    .(callstack := s.callstack + [id])
  }

  /** The check at the head of McoResume: nothing is done for a running or finished coroutine. */
  predicate ResumeIgnored(c: Co) {
    c.running || Over(c)
  }

  function McoResume(s: State, id: Id): State
    requires id in s.cos
  {
    if ResumeIgnored(s.cos[id]) then s
    else
      var s1 := MainMco(s);
      if Top(s1) !in s1.cos then s1
      else if s1.cos[Top(s1)].sink != Some(id) then Swap(Push(s1, id), Top(s1), id)
      else McoYield(s1, Top(s1))
  }

  predicate YieldIgnored(c: Co) {
    !c.running || Over(c)
  }

  /** The assertion in McoYield: the sink is the entry below the top of the call stack. */
  predicate SinkIsBelow(s: State, id: Id)
    requires id in s.cos
  {
    s.cos[id].sink == Entry(s.callstack, |s.callstack| - 2)
  }

  /** The state in which McoYield calls McoSwap. */
  function Unwind(s: State, id: Id): State
    requires id in s.cos && s.cos[id].sink.Some? && s.cos[id].sink.value in s.cos
  {
    SetRunning(s.(cos := s.cos[id := Ended(s.cos[id])]), s.cos[id].sink.value, true)
    .(callstack := Pop(s.callstack))
  }

  function McoYield(s: State, id: Id): State
    requires id in s.cos
  {
    if YieldIgnored(s.cos[id]) then s
    else if s.cos[id].sink.None? || s.cos[id].sink.value !in s.cos then s
    else Swap(Unwind(s, id), id, s.cos[id].sink.value)
  }

  /** The callback returned: the end of CoroutineRun. */
  function CoroutineReturn(s: State): State
    requires s.callstack != [] && Top(s) in s.cos
  {
    McoYield(s.(cos := s.cos[Top(s) := s.cos[Top(s)].(done := true)]), Top(s))
  }

  /** id ceases to exist. */
  function Discard(s: State, id: Id): State
    requires id in s.cos
  {
    s.(cos := s.cos - {id},
       occupy := if s.occupy == Some(id) then None else s.occupy,
       log := if s.cos[id].stackStore then s.log + [Dropped(id)] else s.log)
  }

  function McoFree(s: State, id: Id): State
    requires id in s.cos
  {
    if s.cos[id].running then s.(cos := s.cos[id := s.cos[id].(shouldClose := true)]) else Discard(s, id)
  }

  /** The running coroutine computes. */
  function Compute(s: State, live: Bytes, scribble: Bytes): State {
    if s.callstack == [] || Top(s) == s.main || Top(s) !in s.cos then s.(threadStack := live)
    else if s.cos[Top(s)].usePrivate then
      s.(cos := s.cos[Top(s) := s.cos[Top(s)].(own := live)])
    else if |live| > |s.buffer| || |scribble| != |s.buffer| then s
    else
      var sp := |s.buffer| - |live|;
      s.(cpuSp := sp, buffer := scribble[..sp] + live)
  }

  function Step(s: State, a: Act): State {
    match a
    case Create(id, usePrivate) => s.(cos := s.cos[id := NewCo(usePrivate)])
    case Work(live, scribble) => Compute(s, live, scribble)
    case Resume(id) => if id in s.cos then McoResume(s, id) else s
    case Yield(id) => if id in s.cos then McoYield(s, id) else s
    case Finish => if s.callstack != [] && Top(s) in s.cos then CoroutineReturn(s) else s
    case Free(id) => if id in s.cos then McoFree(s, id) else s
  }

  function Run(s: State, acts: seq<Act>): State
    decreases |acts|
  {
    if acts == [] then s else Run(Step(s, acts[0]), acts[1..])
  }

  /** What the running coroutine sees: the bytes at and above the stack pointer. */
  function See(s: State): Sight {
    if s.callstack == [] then Sight(s.main, s.threadStack)
    else if Top(s) == s.main || Top(s) !in s.cos then Sight(Top(s), s.threadStack)
    else if s.cos[Top(s)].usePrivate then Sight(Top(s), s.cos[Top(s)].own)
    else Sight(Top(s), From(s.buffer, s.cpuSp))
  }

  /** Everything seen while the program makes n acts. */
  function Play(s: State, program: Program, seen: seq<Sight>, n: nat): seq<Sight>
    decreases n
  {
    var now := seen + [See(s)];
    if n == 0 then now else Play(Step(s, program(now)), program, now, n - 1)
  }
}
