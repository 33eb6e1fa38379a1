/** The reference machine: what the coroutine engine is meant to be.
    Every coroutine has a stack of its own; there are no flags, no sinks and no copies. */
module PrivateStacks {
  import opened Prelude

  datatype Status = Fresh | Started | Finished

  datatype Task = Task(
    status: Status,
    private: bool,         // its stack is not limited to Machine.size bytes
    live: Bytes)           // the live bytes of its own stack

  datatype Machine = Machine(
    main: Id,
    size: nat,
    tasks: map<Id, Task>,
    stack: seq<Id>)        // who resumed whom: main first, the running coroutine last

  function Init(main: Id, size: nat, live: Bytes): Machine {
    Machine(main, size, map[main := Task(Started, true, live)], [main])
  }

  predicate Wf(m: Machine) {
    && m.stack != [] && m.stack[0] == m.main
    && (forall i | 0 <= i < |m.stack| :: m.stack[i] in m.tasks)
  }

  function Top(m: Machine): Id
    requires m.stack != []
  {
    m.stack[|m.stack| - 1]
  }

  function Pop(s: seq<Id>): seq<Id>
    requires s != []
  {
    s[..|s| - 1]
  }

  /** id is suspended in the call stack, deeper than the coroutine that resumed the running one. */
  predicate DeepAncestor(stack: seq<Id>, id: Id) {
    exists i :: 0 <= i < |stack| - 2 && stack[i] == id
  }

  /** What callers owe the engine. */
  predicate Legal(m: Machine, a: Act)
    requires Wf(m)
  {
    match a
    case Create(id, _) => id !in m.tasks
    case Work(live, scribble) => m.tasks[Top(m)].private || (|live| <= m.size && |scribble| == m.size)
    case Resume(id) => id in m.tasks && !DeepAncestor(m.stack, id)
    case Yield(id) => id in m.tasks && (id == m.main ==> Top(m) != m.main)
    case Finish => Top(m) != m.main
    case Free(id) => id in m.tasks && id != m.main && (id in m.stack ==> id == Top(m))
  }

  function WithFresh(m: Machine, id: Id, usePrivate: bool): Machine {
    m.(tasks := m.tasks[id := Task(Fresh, usePrivate, [])])
  }

  function WithLive(m: Machine, live: Bytes): Machine
    requires Wf(m)
  {
    m.(tasks := m.tasks[Top(m) := m.tasks[Top(m)].(live := live)])
  }

  function Pushed(m: Machine, id: Id): Machine
    requires id in m.tasks
  {
    m.(stack := m.stack + [id], tasks := m.tasks[id := m.tasks[id].(status := Started)])
  }

  /** The running coroutine leaves, for good if over. */
  function Popped(m: Machine, over: bool): Machine
    requires Wf(m)
  {
    m.(stack := Pop(m.stack),
       tasks := if over then m.tasks[Top(m) := m.tasks[Top(m)].(status := Finished, live := [])] else m.tasks)
  }

  function Without(m: Machine, id: Id): Machine {
    m.(tasks := m.tasks - {id})
  }

  function Step(m: Machine, a: Act): Machine
    requires Wf(m) && Legal(m, a)
  {
    match a
    case Create(id, usePrivate) => WithFresh(m, id, usePrivate)
    case Work(live, _) => WithLive(m, live)
    case Resume(id) =>
      if id == Top(m) || m.tasks[id].status == Finished then m
      else if |m.stack| >= 2 && id == m.stack[|m.stack| - 2] then Popped(m, false)
      else Pushed(m, id)
    case Yield(id) => if id == Top(m) then Popped(m, false) else m
    case Finish => Popped(m, true)
    case Free(id) => if id == Top(m) then m else Without(m, id)
  }

  lemma StepKeepsWf(m: Machine, a: Act)
    requires Wf(m) && Legal(m, a)
    ensures Wf(Step(m, a))
  {
  }

  predicate LegalRun(m: Machine, acts: seq<Act>)
    requires Wf(m)
    decreases |acts|
  {
    acts == [] ||
    (Legal(m, acts[0]) && (StepKeepsWf(m, acts[0]); LegalRun(Step(m, acts[0]), acts[1..])))
  }

  function Run(m: Machine, acts: seq<Act>): (r: Machine)
    requires Wf(m) && LegalRun(m, acts)
    ensures Wf(r)
    decreases |acts|
  {
    if acts == [] then m
    else
      StepKeepsWf(m, acts[0]);
      Run(Step(m, acts[0]), acts[1..])
  }

  lemma RunCons(m: Machine, a: Act, acts: seq<Act>)
    requires Wf(m) && Legal(m, a) && Wf(Step(m, a)) && LegalRun(Step(m, a), acts)
    ensures LegalRun(m, [a] + acts) && Run(m, [a] + acts) == Run(Step(m, a), acts)
  {
  }

  lemma {:induction false} RunAppend(m: Machine, a: seq<Act>, b: seq<Act>)
    requires Wf(m) && LegalRun(m, a) && LegalRun(Run(m, a), b)
    ensures LegalRun(m, a + b) && Run(m, a + b) == Run(Run(m, a), b)
    decreases |a|
  {
    if a == [] {
      assert a + b == b;
    } else {
      StepKeepsWf(m, a[0]);
      assert (a + b)[0] == a[0] && (a + b)[1..] == a[1..] + b;
      RunAppend(Step(m, a[0]), a[1..], b);
    }
  }

  /** The yields that unwind a call stack from the top down to its first n entries. */
  function Yields(stack: seq<Id>, n: nat): seq<Act>
    decreases |stack|
  {
    if |stack| <= n then [] else [Yield(stack[|stack| - 1])] + Yields(Pop(stack), n)
  }

  function See(m: Machine): Sight
    requires Wf(m)
  {
    Sight(Top(m), m.tasks[Top(m)].live)
  }

  /** The next n acts that the program chooses are all legal. */
  predicate Behaves(m: Machine, program: Program, seen: seq<Sight>, n: nat)
    requires Wf(m)
    decreases n
  {
    n == 0 ||
    var now := seen + [See(m)];
    (Legal(m, program(now)) &&
     (StepKeepsWf(m, program(now)); Behaves(Step(m, program(now)), program, now, n - 1)))
  }

  /** Everything seen while the program makes n acts. */
  function Play(m: Machine, program: Program, seen: seq<Sight>, n: nat): seq<Sight>
    requires Wf(m) && Behaves(m, program, seen, n)
    decreases n
  {
    var now := seen + [See(m)];
    if n == 0 then now
    else
      StepKeepsWf(m, program(now));
      Play(Step(m, program(now)), program, now, n - 1)
  }
}
