/** The engine over one shared, lazily copied buffer behaves like the machine with private stacks. */
module Refinement {
  import opened Prelude
  import opened McoEngine
  import opened EngineInvariant
  import Spec = PrivateStacks

  lemma AbsWf(s: State)
    requires Inv(s)
    ensures Spec.Wf(Abs(s))
    ensures Abs(s).stack != []
    ensures Spec.Top(Abs(s)) == if s.callstack == [] then s.main else Top(s)
  {
  }

  lemma InitRefines(main: Id, buffer: Bytes, threadStack: Bytes)
    ensures Inv(Init(main, buffer, threadStack))
    ensures Abs(Init(main, buffer, threadStack)) == Spec.Init(main, |buffer|, threadStack)
  {
  }

  /** s stands for m, but for the call stack, while exec executes. */
  predicate Matches(s: State, exec: Option<Id>, m: Spec.Machine) {
    && m.main == s.main && m.size == |s.buffer| && m.tasks.Keys == Ids(s)
    && forall id | id in Ids(s) :: m.tasks[id] == TaskOf(s, exec, id)
  }

  lemma AbsIs(s: State, m: Spec.Machine)
    requires Matches(s, Exec(s), m)
    requires m.stack == if s.callstack == [] then [s.main] else s.callstack
    ensures Abs(s) == m
  {
  }

  lemma AbsMatches(s: State)
    ensures Matches(s, Exec(s), Abs(s))
  {
  }

  /** A coroutine stands for the same task in two states that agree on what it depends on. */
  lemma TaskFrame(s: State, t: State, exec: Option<Id>, id: Id)
    requires t.main == s.main && t.buffer == s.buffer && t.cpuSp == s.cpuSp && t.threadStack == s.threadStack
    requires id in s.cos <==> id in t.cos
    requires id in s.cos ==> s.cos[id] == t.cos[id]
    ensures TaskOf(t, exec, id) == TaskOf(s, exec, id)
  {
  }

  /** The invariant of a coroutine depends on little besides its own record. */
  lemma CoFrame(s: State, t: State, id: Id)
    requires id in s.cos && id in t.cos && t.cos[id] == s.cos[id]
    requires Exec(t) == Exec(s) && |t.buffer| == |s.buffer|
    requires t.occupy == s.occupy || (s.occupy != Some(id) && t.occupy != Some(id))
    requires t.cpuSp == s.cpuSp
    requires FlagsOk(s, id) && StoredIffEvicted(s, Exec(s), id) && CopyOk(s, Exec(s), id)
    ensures FlagsOk(t, id) && StoredIffEvicted(t, Exec(t), id) && CopyOk(t, Exec(t), id)
  {
  }

  lemma CreateKeepsInv(s: State, id: Id, usePrivate: bool)
    requires Inv(s) && id !in s.cos && id != s.main
    ensures Inv(Step(s, Create(id, usePrivate)))
  {
    var t := Step(s, Create(id, usePrivate));
    forall x | x in s.cos
      ensures FlagsOk(t, x) && StoredIffEvicted(t, Exec(t), x) && CopyOk(t, Exec(t), x)
    {
      CoFrame(s, t, x);
    }
    assert FlagsOk(t, id) && StoredIffEvicted(t, Exec(t), id) && CopyOk(t, Exec(t), id);
  }

  lemma PrivateWorkKeepsInv(s: State, live: Bytes)
    requires Inv(s) && s.callstack != [] && s.cos[Top(s)].usePrivate
    ensures Inv(s.(cos := s.cos[Top(s) := s.cos[Top(s)].(own := live)]))
  {
    var t := s.(cos := s.cos[Top(s) := s.cos[Top(s)].(own := live)]);
    forall x | x in s.cos
      ensures FlagsOk(t, x) && StoredIffEvicted(t, Exec(t), x) && CopyOk(t, Exec(t), x)
    {
      if x != Top(s) {
        CoFrame(s, t, x);
      }
    }
  }

  lemma SharedWorkKeepsInv(s: State, live: Bytes, scribble: Bytes)
    requires Inv(s) && s.callstack != [] && !s.cos[Top(s)].usePrivate
    ensures Inv(Compute(s, live, scribble))
  {
  }

  lemma ComputeKeepsInv(s: State, live: Bytes, scribble: Bytes)
    requires Inv(s)
    ensures Inv(Compute(s, live, scribble))
  {
    if s.callstack == [] || Top(s) == s.main {
      var t := s.(threadStack := live);
      assert Compute(s, live, scribble) == t;
      forall x | x in s.cos
        ensures FlagsOk(t, x) && StoredIffEvicted(t, Exec(t), x) && CopyOk(t, Exec(t), x)
      {
        CoFrame(s, t, x);
      }
    } else if s.cos[Top(s)].usePrivate {
      PrivateWorkKeepsInv(s, live);
    } else {
      SharedWorkKeepsInv(s, live, scribble);
    }
  }

  lemma FreeKeepsInv(s: State, id: Id)
    requires Inv(s) && id in s.cos && id != s.main
    requires id in s.callstack ==> id == Top(s)
    ensures Inv(McoFree(s, id))
  {
    var t := McoFree(s, id);
    forall x | x in t.cos
      ensures FlagsOk(t, x) && StoredIffEvicted(t, Exec(t), x) && CopyOk(t, Exec(t), x)
    {
      if x != id {
        CoFrame(s, t, x);
      }
    }
  }

  lemma MainMcoKeepsInv(s: State)
    requires Inv(s)
    ensures Inv(MainMco(s))
  {
  }

  lemma MainMcoRefines(s: State)
    requires Inv(s)
    ensures Inv(MainMco(s)) && Abs(MainMco(s)) == Abs(s)
  {
    var t := MainMco(s);
    MainMcoKeepsInv(s);
    forall x | x in Ids(s)
      ensures TaskOf(t, Exec(t), x) == TaskOf(s, Exec(s), x)
    {
      assert x in s.cos ==> FlagsOk(s, x);
    }
    AbsIs(t, Abs(s));
  }

  /** The copy invariant and the live bytes depend on few fields of a coroutine. */
  lemma BytesFrame(s: State, t: State, exec: Option<Id>, id: Id)
    requires id in s.cos && id in t.cos
    requires s.main == t.main && s.buffer == t.buffer && s.cpuSp == t.cpuSp
    requires s.occupy == t.occupy && s.threadStack == t.threadStack
    requires s.cos[id].usePrivate == t.cos[id].usePrivate && InUse(s, exec, id) == InUse(t, exec, id)
    requires s.cos[id].stackStore == t.cos[id].stackStore && s.cos[id].own == t.cos[id].own
    requires InUse(s, exec, id) ==>
      s.cos[id].tmp == t.cos[id].tmp && s.cos[id].restoreSize == t.cos[id].restoreSize && s.cos[id].sp == t.cos[id].sp
    requires StoredIffEvicted(s, exec, id) && CopyOk(s, exec, id)
    ensures StoredIffEvicted(t, exec, id) && CopyOk(t, exec, id) && Live(t, exec, id) == Live(s, exec, id)
  {
  }

  /** McoResume may call McoSwap on the state that Push built. */
  lemma PushReady(s: State, id: Id)
    requires Inv(s) && s.callstack != [] && id in s.cos && !ResumeIgnored(s.cos[id]) && id !in s.callstack
    ensures var t := Push(s, id);
      && t.cos.Keys == s.cos.Keys && FinishedFlags(t) && CopyInv(t, Exec(s))
      && t.cos[id].start && (!t.cos[id].parked ==> t.cos[id].own == [])
      && forall x | x in s.cos :: Live(t, Exec(s), x) == Live(s, Exec(s), x)
  {
    var t := Push(s, id);
    assert FlagsOk(s, id) && StoredIffEvicted(s, Exec(s), id) && CopyOk(s, Exec(s), id);
    forall x | x in s.cos
      ensures StoredIffEvicted(t, Exec(s), x) && CopyOk(t, Exec(s), x) && Live(t, Exec(s), x) == Live(s, Exec(s), x)
    {
      PushBytes(s, id, x);
    }
    PushFinished(s, id);
  }

  lemma PushBytes(s: State, id: Id, x: Id)
    requires Inv(s) && s.callstack != [] && id in s.cos && !ResumeIgnored(s.cos[id]) && id !in s.callstack && x in s.cos
    ensures var t := Push(s, id);
      && t.cos.Keys == s.cos.Keys && StoredIffEvicted(t, Exec(s), x) && CopyOk(t, Exec(s), x)
      && Live(t, Exec(s), x) == Live(s, Exec(s), x)
  {
    assert FlagsOk(s, x) && FlagsOk(s, id);
    BytesFrame(s, Push(s, id), Exec(s), x);
  }

  lemma PushFinished(s: State, id: Id)
    requires FlagsInv(s) && s.callstack != [] && Top(s) in s.cos && id in s.cos && !ResumeIgnored(s.cos[id])
    ensures FinishedFlags(Push(s, id))
  {
    assert forall x | x in s.cos :: FlagsOk(s, x);
  }

  /** The control invariant just before McoSwap(from, to): only from may still have to be parked. */
  predicate SwapReady(s: State, from: Id, to: Id) {
    && from in s.cos && to in s.cos && from != to
    && s.callstack != [] && Top(s) == to && s.cos[to].start
    && (!s.cos[to].parked ==> s.cos[to].own == [])
    && StackInv(s)
    && (forall x | x in s.cos && x != from :: FlagsOk(s, x))
    && FlagsOk(Park(s, from), from)
  }

  lemma SwapReadyFlags(s: State, from: Id, to: Id)
    requires SwapReady(s, from, to)
    ensures FinishedFlags(s)
  {
  }

  /** What the two halves of McoSwap need: copies stay in bounds on both sides of the switch. */
  predicate SwapOk(s: State, from: Id, to: Id) {
    && from in s.cos && to in s.cos && s.callstack != [] && Top(s) == to
    && CopyInv(Park(s, from), None)
    && var t := SwapOut(s, from, to);
       t.callstack == s.callstack && to in t.cos && Claimed(t, to)
  }

  lemma SwapStages(s: State, from: Id, to: Id)
    requires SwapReady(s, from, to) && CopyInv(s, Some(from))
    ensures SwapOk(s, from, to)
  {
    SwapReadyFlags(s, from, to);
    ParkFrame(s, from);
    ParkKeepsBytes(s, from);
    ClaimFrame(Park(s, from), to);
    ClaimKeepsBytes(Park(s, from), to);
  }

  lemma SwapKeepsInv(s: State, from: Id, to: Id)
    requires SwapReady(s, from, to) && CopyInv(s, Some(from))
    ensures var t := Swap(s, from, to);
      && Inv(t) && SwapFrame(s, t)
      && forall x :: Live(t, Some(to), x) == Live(s, Some(from), x)
  {
    var t := Swap(s, from, to);
    SwapReadyFlags(s, from, to);
    SwapKeepsBytes(s, from, to);
    SwapKeepsControl(s, from, to);
    forall x | x in t.cos
      ensures FlagsOk(t, x)
    {
      assert x != from ==> FlagsOk(s, x);
      assert SameControl(s.cos[x], t.cos[x]);
    }
    StackFrame(s, t);
  }

  lemma StackFrame(s: State, t: State)
    requires StackInv(s) && SwapFrame(s, t)
    ensures StackInv(t)
  {
  }

  lemma PushControl(s: State, id: Id)
    requires Inv(s) && s.callstack != [] && id in s.cos && !ResumeIgnored(s.cos[id]) && id !in s.callstack
    ensures SwapReady(Push(s, id), Top(s), id)
  {
  }

  /** The running coroutine yields; if over, its callback has returned. */
  function Leaving(s: State, over: bool): State
    requires s.callstack != [] && Top(s) in s.cos
  {
    if over then s.(cos := s.cos[Top(s) := s.cos[Top(s)].(done := true)]) else s
  }

  /** The coroutine below the top of the call stack. */
  function Below(s: State): Id
    requires |s.callstack| >= 2
  {
    s.callstack[|s.callstack| - 2]
  }

  function AfterUnwind(s: State, over: bool): State
    requires |s.callstack| >= 2 && Top(s) in s.cos && Below(s) in s.cos && s.cos[Top(s)].sink == Some(Below(s))
  {
    Unwind(Leaving(s, over), Top(s))
  }

  lemma SinkIsBelowTop(s: State)
    requires Inv(s) && |s.callstack| >= 2
    ensures Top(s) in s.cos && Below(s) in s.cos && Below(s) != Top(s)
    ensures s.cos[Top(s)].sink == Some(Below(s)) && SinkIsBelow(s, Top(s))
    ensures s.cos[Below(s)].start && s.cos[Top(s)].start && Top(s) != s.main
  {
  }

  /** What Unwind does to each coroutine. */
  lemma UnwindShape(s: State, over: bool)
    requires |s.callstack| >= 2 && Top(s) in s.cos && Below(s) in s.cos && s.cos[Top(s)].sink == Some(Below(s))
    requires Below(s) != Top(s)
    ensures var t := AfterUnwind(s, over); var c := s.cos[Top(s)]; var d := t.cos[Top(s)];
      && t == s.(cos := t.cos, callstack := Pop(s.callstack)) && t.cos.Keys == s.cos.Keys
      && (forall x | x in s.cos && x != Top(s) && x != Below(s) :: t.cos[x] == s.cos[x])
      && t.cos[Below(s)] == s.cos[Below(s)].(running := true)
      && d == c.(running := false, inCallstack := true, done := d.done, doneYield := d.doneYield, start := d.start)
      && d.done == (c.done || over) && d.doneYield == (c.doneYield || d.done) && d.start == (c.start && !d.done)
  {
  }

  lemma UnwindReady(s: State, over: bool)
    requires Inv(s) && |s.callstack| >= 2
    requires s.cos[Top(s)].sink == Some(Below(s)) && Below(s) != Top(s)
    ensures AfterUnwind(s, over).cos.Keys == s.cos.Keys && CopyInv(AfterUnwind(s, over), Exec(s))
  {
    var t := AfterUnwind(s, over);
    UnwindShape(s, over);
    assert FlagsOk(s, Top(s));
    forall x | x in s.cos
      ensures StoredIffEvicted(t, Exec(s), x) && CopyOk(t, Exec(s), x)
    {
      UnwindBytes(s, over, x);
    }
  }

  lemma UnwindBytes(s: State, over: bool, x: Id)
    requires Inv(s) && |s.callstack| >= 2 && x in s.cos
    requires s.cos[Top(s)].sink == Some(Below(s)) && Below(s) != Top(s)
    ensures var t := AfterUnwind(s, over);
      && x in t.cos && StoredIffEvicted(t, Exec(s), x) && CopyOk(t, Exec(s), x)
      && (x != s.main ==> Live(t, Exec(s), x) == if over && x == Top(s) then [] else Live(s, Exec(s), x))
  {
    UnwindShape(s, over);
    assert FlagsOk(s, Top(s)) && FlagsOk(s, x);
    if x != Top(s) {
      BytesFrame(s, AfterUnwind(s, over), Exec(s), x);
    }
  }

  lemma UnwindStack(s: State, over: bool)
    requires Inv(s) && |s.callstack| >= 2
    requires s.cos[Top(s)].sink == Some(Below(s)) && Below(s) != Top(s)
    ensures StackInv(AfterUnwind(s, over))
  {
    UnwindShape(s, over);
  }

  lemma UnwindControl(s: State, over: bool)
    requires Inv(s) && |s.callstack| >= 2
    requires s.cos[Top(s)].sink == Some(Below(s)) && Below(s) != Top(s)
    ensures SwapReady(AfterUnwind(s, over), Top(s), Below(s))
  {
    var id := Top(s);
    var t := AfterUnwind(s, over);
    UnwindShape(s, over);
    UnwindStack(s, over);
    assert FlagsOk(s, id) && FlagsOk(s, Below(s));
    forall x | x in t.cos && x != id
      ensures FlagsOk(t, x)
    {
      assert FlagsOk(s, x);
    }
  }

  // ---- The two transitions that move control ----

  /** McoSwap shows in the abstract machine only what was done to the flags before it. */
  lemma SwapRefines(s: State, from: Id, to: Id, m: Spec.Machine)
    requires SwapReady(s, from, to) && CopyInv(s, Some(from))
    requires m.stack == s.callstack && Matches(s, Some(from), m)
    ensures Inv(Swap(s, from, to)) && Abs(Swap(s, from, to)) == m
  {
    var t := Swap(s, from, to);
    SwapKeepsInv(s, from, to);
    forall x | x in Ids(s)
      ensures TaskOf(t, Exec(t), x) == TaskOf(s, Some(from), x)
    {
      assert x in s.cos ==> SameControl(s.cos[x], t.cos[x]);
    }
    AbsIs(t, m);
  }

  lemma PushMatches(s: State, id: Id, m: Spec.Machine)
    requires s.callstack != [] && Top(s) in s.cos && id in s.cos && id != Top(s) && !s.cos[id].done && id != s.main
    requires forall x | x in s.cos :: Live(Push(s, id), Exec(s), x) == Live(s, Exec(s), x)
    requires Matches(s, Exec(s), m)
    ensures Matches(Push(s, id), Exec(s), Spec.Pushed(m, id))
  {
    var p := Push(s, id);
    forall x | x in Ids(s)
      ensures TaskOf(p, Exec(s), x) == Spec.Pushed(m, id).tasks[x]
    {
    }
  }

  lemma PushRefines(s: State, id: Id)
    requires Inv(s) && s.callstack != [] && id in s.cos && !ResumeIgnored(s.cos[id]) && id !in s.callstack
    ensures var t := Swap(Push(s, id), Top(s), id);
      Inv(t) && Abs(t) == Spec.Pushed(Abs(s), id)
  {
    assert !s.cos[id].done && id != s.main by {
      assert FlagsOk(s, id);
    }
    AbsMatches(s);
    PushReady(s, id);
    PushControl(s, id);
    PushMatches(s, id, Abs(s));
    SwapRefines(Push(s, id), Top(s), id, Spec.Pushed(Abs(s), id));
  }

  /** McoYield of the running coroutine is a well-prepared McoSwap to the coroutine below it. */
  lemma YieldTopReady(s: State, over: bool)
    requires Inv(s) && |s.callstack| >= 2
    ensures Top(s) in s.cos && Below(s) in s.cos && s.cos[Top(s)].sink == Some(Below(s))
    ensures SwapOk(AfterUnwind(s, over), Top(s), Below(s))
    ensures (if over then CoroutineReturn(s) else McoYield(s, Top(s))) == Swap(AfterUnwind(s, over), Top(s), Below(s))
  {
    SinkIsBelowTop(s);
    assert FlagsOk(s, Top(s));
    UnwindReady(s, over);
    UnwindControl(s, over);
    SwapStages(AfterUnwind(s, over), Top(s), Below(s));
  }

  lemma RunningIffTop(s: State, id: Id)
    requires Inv(s) && id in s.cos
    ensures s.cos[id].running <==> s.callstack != [] && id == Top(s)
  {
  }

  /** The guard of McoYield lets only the top of the call stack pass, and there the assertion holds. */
  lemma RunningIsTop(s: State, id: Id)
    requires Inv(s) && id in s.cos && !YieldIgnored(s.cos[id])
    ensures s.callstack != [] && id == Top(s)
    ensures id != s.main ==> |s.callstack| >= 2 && SinkIsBelow(s, id)
  {
  }

  lemma UnwindStatus(s: State, over: bool, x: Id)
    requires |s.callstack| >= 2 && Top(s) in s.cos && Below(s) in s.cos && s.cos[Top(s)].sink == Some(Below(s))
    requires Below(s) != Top(s) && Top(s) != s.main && x in Ids(s)
    ensures var p := AfterUnwind(s, over);
      && StatusOf(p, x) == (if over && x == Top(s) then Spec.Finished else StatusOf(s, x))
      && (x in s.cos ==> p.cos[x].usePrivate == s.cos[x].usePrivate)
  {
  }

  lemma UnwindMatches(s: State, over: bool, m: Spec.Machine)
    requires Inv(s) && |s.callstack| >= 2 && Top(s) in s.cos && Below(s) in s.cos
    requires s.cos[Top(s)].sink == Some(Below(s)) && Below(s) != Top(s) && Top(s) != s.main
    requires Matches(s, Exec(s), m) && m.stack == s.callstack && Spec.Wf(m)
    ensures Matches(AfterUnwind(s, over), Exec(s), Spec.Popped(m, over))
  {
    var p := AfterUnwind(s, over);
    UnwindShape(s, over);
    PoppedShape(m, over);
    forall x | x in Ids(s)
      ensures TaskOf(p, Exec(s), x) == Spec.Popped(m, over).tasks[x]
    {
      if x in s.cos {
        UnwindBytes(s, over, x);
      }
      UnwoundTask(s, over, m, x);
    }
  }

  lemma UnwoundTask(s: State, over: bool, m: Spec.Machine, x: Id)
    requires |s.callstack| >= 2 && Top(s) in s.cos && Below(s) in s.cos && s.cos[Top(s)].sink == Some(Below(s))
    requires Below(s) != Top(s) && Top(s) != s.main && x in Ids(s)
    requires x in s.cos && x != s.main ==>
      Live(AfterUnwind(s, over), Exec(s), x) == if over && x == Top(s) then [] else Live(s, Exec(s), x)
    requires Spec.Wf(m) && Spec.Top(m) == Top(s) && x in m.tasks && m.tasks[x] == TaskOf(s, Exec(s), x)
    ensures x in Spec.Popped(m, over).tasks
    ensures TaskOf(AfterUnwind(s, over), Exec(s), x) == Spec.Popped(m, over).tasks[x]
  {
    UnwindTask(s, over, x);
    PoppedTask(m, over, x);
  }

  lemma PoppedShape(m: Spec.Machine, over: bool)
    requires Spec.Wf(m)
    ensures var n := Spec.Popped(m, over); n.main == m.main && n.size == m.size && n.tasks.Keys == m.tasks.Keys
  {
  }

  lemma PoppedTask(m: Spec.Machine, over: bool, x: Id)
    requires Spec.Wf(m) && x in m.tasks
    ensures x in Spec.Popped(m, over).tasks
    ensures Spec.Popped(m, over).tasks[x]
         == if over && x == Spec.Top(m) then m.tasks[x].(status := Spec.Finished, live := []) else m.tasks[x]
  {
  }

  lemma UnwindTask(s: State, over: bool, x: Id)
    requires |s.callstack| >= 2 && Top(s) in s.cos && Below(s) in s.cos && s.cos[Top(s)].sink == Some(Below(s))
    requires Below(s) != Top(s) && Top(s) != s.main && x in Ids(s)
    requires x in s.cos && x != s.main ==>
      Live(AfterUnwind(s, over), Exec(s), x) == if over && x == Top(s) then [] else Live(s, Exec(s), x)
    ensures var task := TaskOf(s, Exec(s), x);
      TaskOf(AfterUnwind(s, over), Exec(s), x)
      == if over && x == Top(s) then task.(status := Spec.Finished, live := []) else task
  {
    UnwindStatus(s, over, x);
  }

  lemma UnwindRefines(s: State, over: bool)
    requires Inv(s) && |s.callstack| >= 2
    ensures s.cos[Top(s)].sink == Some(Below(s)) && Below(s) in s.cos && Spec.Wf(Abs(s))
    ensures var t := Swap(AfterUnwind(s, over), Top(s), Below(s));
      Inv(t) && Abs(t) == Spec.Popped(Abs(s), over)
  {
    AbsWf(s);
    SinkIsBelowTop(s);
    AbsMatches(s);
    UnwindReady(s, over);
    UnwindControl(s, over);
    UnwindMatches(s, over, Abs(s));
    SwapRefines(AfterUnwind(s, over), Top(s), Below(s), Spec.Popped(Abs(s), over));
  }

  lemma YieldRefines(s: State, id: Id)
    requires Inv(s) && id in s.cos && (id == s.main ==> Exec(s) != Some(s.main))
    ensures var t := McoYield(s, id); var m := Abs(s);
      Spec.Wf(m) && Inv(t) && Abs(t) == if Exec(s) == Some(id) then Spec.Popped(m, false) else m
  {
    AbsWf(s);
    assert FlagsOk(s, id);
    if Exec(s) == Some(id) {
      UnwindRefines(s, false);
    }
  }

  lemma FinishRefines(s: State)
    requires Inv(s) && |s.callstack| >= 2
    ensures Spec.Wf(Abs(s)) && Inv(CoroutineReturn(s)) && Abs(CoroutineReturn(s)) == Spec.Popped(Abs(s), true)
  {
    assert FlagsOk(s, Top(s));
    UnwindRefines(s, true);
  }

  lemma ResumeRefines(s: State, id: Id)
    requires Inv(s) && id in s.cos
    requires !Spec.DeepAncestor(s.callstack, id)
    ensures var t := McoResume(s, id); var m := Abs(s);
      Spec.Wf(m) && Inv(t) && Abs(t) ==
        if ResumeIgnored(s.cos[id]) then m
        else if id in s.callstack then Spec.Popped(m, false)
        else Spec.Pushed(m, id)
  {
    AbsWf(s);
    assert FlagsOk(s, id);
    if !ResumeIgnored(s.cos[id]) {
      var s1 := MainMco(s);
      MainMcoRefines(s);
      if id in s.callstack {
        var i :| 0 <= i < |s.callstack| && s.callstack[i] == id;
        assert i == |s.callstack| - 2;
        SinkIsBelowTop(s);
        YieldRefines(s, Top(s));
      } else {
        assert s1.cos[Top(s1)].sink != Some(id) by {
          if |s1.callstack| >= 2 {
            SinkIsBelowTop(s1);
          }
        }
        PushRefines(s1, id);
      }
    }
  }

  /** McoResume, after its checks, is a McoSwap up to id or down to it. */
  function Transfer(s: State, id: Id): State
    requires id in s.cos && s.callstack != [] && Top(s) in s.cos
  {
    if s.cos[Top(s)].sink != Some(id) then Swap(Push(s, id), Top(s), id)
    else Swap(Unwind(s, Top(s)), Top(s), id)
  }

  predicate TransferReady(s: State, id: Id)
    requires id in s.cos && s.callstack != [] && Top(s) in s.cos
  {
    match s.cos[Top(s)].sink == Some(id)
    case false => SwapOk(Push(s, id), Top(s), id)
    case true => |s.callstack| >= 2 && Below(s) == id && SwapOk(Unwind(s, Top(s)), Top(s), id)
  }

  lemma ResumeTransfers(s: State, id: Id)
    requires Inv(s) && id in s.cos && !ResumeIgnored(s.cos[id])
    requires !Spec.DeepAncestor(s.callstack, id)
    ensures var t := MainMco(s);
      && t.callstack != [] && Top(t) in t.cos && id != Top(t)
      && TransferReady(t, id) && McoResume(s, id) == Transfer(t, id)
  {
    var t := MainMco(s);
    MainMcoRefines(s);
    ResumeCases(s, id);
    assert FlagsOk(t, id);
    if |t.callstack| >= 2 {
      SinkIsBelowTop(t);
    }
    if t.cos[Top(t)].sink == Some(id) {
      YieldTopReady(t, false);
    } else {
      assert id !in t.callstack;
      PushReady(t, id);
      PushControl(t, id);
      SwapStages(Push(t, id), Top(t), id);
    }
  }

  // ---- The acts that do not move control ----

  lemma CreateMatches(s: State, id: Id, usePrivate: bool)
    requires id !in s.cos && id != s.main && Exec(s) != Some(id)
    ensures Abs(Step(s, Create(id, usePrivate))) == Spec.WithFresh(Abs(s), id, usePrivate)
  {
  }

  lemma FreeMatches(s: State, id: Id)
    requires id in s.cos && id != s.main && (s.cos[id].running <==> Exec(s) == Some(id))
    ensures Abs(McoFree(s, id)) == if Exec(s) == Some(id) then Abs(s) else Spec.Without(Abs(s), id)
  {
    var t := McoFree(s, id);
    forall x | x in Ids(t)
      ensures TaskOf(t, Exec(t), x) == TaskOf(s, Exec(s), x)
    {
      if x != id {
        TaskFrame(s, t, Exec(s), x);
      }
    }
    AbsIs(t, if Exec(s) == Some(id) then Abs(s) else Spec.Without(Abs(s), id));
  }

  predicate WorkFits(s: State, live: Bytes, scribble: Bytes) {
    |s.callstack| <= 1 || Top(s) !in s.cos || s.cos[Top(s)].usePrivate
    || (|live| <= |s.buffer| && |scribble| == |s.buffer|)
  }

  /** Compute, by where the running coroutine's stack is. */
  function Written(s: State, live: Bytes, scribble: Bytes): State
    requires WorkFits(s, live, scribble) && (|s.callstack| > 1 ==> Top(s) in s.cos)
  {
    if |s.callstack| <= 1 then s.(threadStack := live)
    else if s.cos[Top(s)].usePrivate then s.(cos := s.cos[Top(s) := s.cos[Top(s)].(own := live)])
    else s.(cpuSp := |s.buffer| - |live|, buffer := scribble[..|s.buffer| - |live|] + live)
  }

  lemma ComputeCases(s: State, live: Bytes, scribble: Bytes)
    requires StackInv(s) && WorkFits(s, live, scribble)
    ensures |s.callstack| > 1 ==> Top(s) in s.cos
    ensures Compute(s, live, scribble) == Written(s, live, scribble)
  {
  }

  lemma ComputeFrame(s: State, live: Bytes, scribble: Bytes)
    ensures var t := Compute(s, live, scribble);
      && t.cos.Keys == s.cos.Keys && |t.buffer| == |s.buffer|
      && t.callstack == s.callstack && t.main == s.main
      && forall x | x in s.cos :: t.cos[x].usePrivate == s.cos[x].usePrivate && StatusOf(t, x) == StatusOf(s, x)
  {
  }

  lemma ComputeLive(s: State, live: Bytes, scribble: Bytes, x: Id)
    requires Inv(s) && x in Ids(s)
    requires WorkFits(s, live, scribble)
    ensures var t := Compute(s, live, scribble);
      Live(t, Exec(t), x) == if x == (if s.callstack == [] then s.main else Top(s)) then live else Live(s, Exec(s), x)
  {
  }

  lemma ComputeRefines(s: State, live: Bytes, scribble: Bytes)
    requires Inv(s)
    requires WorkFits(s, live, scribble)
    ensures var t := Compute(s, live, scribble);
      Spec.Wf(Abs(s)) && Inv(t) && Abs(t) == Spec.WithLive(Abs(s), live)
  {
    var t := Compute(s, live, scribble);
    AbsWf(s);
    ComputeKeepsInv(s, live, scribble);
    ComputeFrame(s, live, scribble);
    forall x | x in Ids(s)
      ensures TaskOf(t, Exec(t), x) == Spec.WithLive(Abs(s), live).tasks[x]
    {
      ComputeTask(s, live, scribble, x);
    }
    AbsIs(t, Spec.WithLive(Abs(s), live));
  }

  lemma ComputeTask(s: State, live: Bytes, scribble: Bytes, x: Id)
    requires Inv(s) && Spec.Wf(Abs(s)) && x in Ids(s) && WorkFits(s, live, scribble)
    ensures var t := Compute(s, live, scribble);
      TaskOf(t, Exec(t), x) == Spec.WithLive(Abs(s), live).tasks[x]
  {
    ComputeFrame(s, live, scribble);
    ComputeLive(s, live, scribble, x);
    assert Abs(s).tasks[x] == TaskOf(s, Exec(s), x);
  }

  // ---- Runs ----

  /** One act of a caller who keeps the rules: the invariant survives and the engine does what the
      machine with private stacks does. */
  lemma StepRefines(s: State, a: Act)
    requires Inv(s) && Spec.Wf(Abs(s)) && Spec.Legal(Abs(s), a)
    ensures Inv(Step(s, a)) && Abs(Step(s, a)) == Spec.Step(Abs(s), a)
  {
    AbsWf(s);
    match a {
      case Create(id, usePrivate) =>
        CreateKeepsInv(s, id, usePrivate);
        CreateMatches(s, id, usePrivate);
      case Work(live, scribble) =>
        ComputeRefines(s, live, scribble);
      case Resume(id) =>
        if id in s.cos {
          ResumeStep(s, id);
        }
      case Yield(id) =>
        if id in s.cos {
          YieldRefines(s, id);
        }
      case Finish =>
        FinishRefines(s);
      case Free(id) =>
        assert FlagsOk(s, id);
        FreeKeepsInv(s, id);
        FreeMatches(s, id);
    }
  }

  /** The flags tell McoResume what the private machine knows from its call stack. */
  lemma ResumeCases(s: State, id: Id)
    requires Inv(s) && id in s.cos && !Spec.DeepAncestor(s.callstack, id)
    ensures ResumeIgnored(s.cos[id]) <==> Exec(s) == Some(id) || s.cos[id].done
    ensures !ResumeIgnored(s.cos[id]) && id in s.callstack ==> |s.callstack| >= 2 && id == Below(s)
    ensures s.callstack == [] ==> id != s.main
    ensures id == s.main ==> !s.cos[id].done
  {
  }

  /** What a legal resume does on the private machine. */
  lemma ResumeSpec(m: Spec.Machine, id: Id)
    requires Spec.Wf(m) && Spec.Legal(m, Act.Resume(id))
    ensures Spec.Step(m, Act.Resume(id)) ==
      if id == Spec.Top(m) || m.tasks[id].status == Spec.Finished then m
      else if id in m.stack then Spec.Popped(m, false)
      else Spec.Pushed(m, id)
  {
  }

  lemma ResumeStep(s: State, id: Id)
    requires Inv(s) && Spec.Wf(Abs(s)) && Spec.Legal(Abs(s), Act.Resume(id)) && id in s.cos
    ensures Inv(McoResume(s, id)) && Abs(McoResume(s, id)) == Spec.Step(Abs(s), Act.Resume(id))
  {
    var m := Abs(s);
    assert !Spec.DeepAncestor(s.callstack, id);
    ResumeCases(s, id);
    ResumeRefines(s, id);
    ResumeSpec(m, id);
    assert m.tasks[id].status == StatusOf(s, id);
  }

  /** Main theorem: over every legal run the shared, lazily copied buffer is indistinguishable from
      private stacks. */
  lemma {:induction false} RunRefines(s: State, acts: seq<Act>)
    requires Inv(s) && Spec.Wf(Abs(s)) && Spec.LegalRun(Abs(s), acts)
    ensures Inv(Run(s, acts)) && Abs(Run(s, acts)) == Spec.Run(Abs(s), acts)
    decreases |acts|
  {
    if acts != [] {
      StepRefines(s, acts[0]);
      AbsWf(Step(s, acts[0]));
      RunRefines(Step(s, acts[0]), acts[1..]);
    }
  }

  lemma SeeRefines(s: State)
    requires Inv(s) && Spec.Wf(Abs(s))
    ensures See(s) == Spec.See(Abs(s))
  {
  }

  /** True of every n. A proof that needs what Stands says names an instance. */
  predicate Standing(n: nat) {
    true
  }

  /** s is sound and stands for m. */
  ghost predicate Stands(s: State, m: Spec.Machine) {
    forall n: nat {:trigger Standing(n)} | Standing(n) :: Inv(s) && Abs(s) == m && Spec.Wf(m)
  }

  /** One act on both machines. */
  lemma ActStands(s: State, m: Spec.Machine, a: Act) returns (k: Spec.Machine)
    requires Stands(s, m) && Spec.Wf(m) && Spec.Legal(m, a)
    ensures k == Spec.Step(m, a) && Spec.Wf(k) && Stands(Step(s, a), k)
  {
    assert Standing(0);
    StepRefines(s, a);
    AbsWf(Step(s, a));
    k := Spec.Step(m, a);
  }

  lemma SeeStands(s: State, m: Spec.Machine)
    requires Stands(s, m) && Spec.Wf(m)
    ensures See(s) == Spec.See(m)
  {
    assert Standing(0);
    SeeRefines(s);
  }

  lemma {:induction false} PlayStands(s: State, m: Spec.Machine, program: Program, seen: seq<Sight>, n: nat)
    requires Stands(s, m) && Spec.Wf(m) && Spec.Behaves(m, program, seen, n)
    ensures Play(s, program, seen, n) == Spec.Play(m, program, seen, n)
    decreases n
  {
    SeeStands(s, m);
    if n > 0 {
      var now := seen + [See(s)];
      var k := ActStands(s, m, program(now));
      PlayStands(Step(s, program(now)), k, program, now, n - 1);
    }
  }

  /** Whatever code runs on the thread, deciding from all it ever read on its stacks, it reads the
      same bytes in the same order as on the machine with private stacks. */
  lemma ProgramRefines(s: State, program: Program, seen: seq<Sight>, n: nat)
    requires Inv(s) && Spec.Wf(Abs(s)) && Spec.Behaves(Abs(s), program, seen, n)
    ensures Play(s, program, seen, n) == Spec.Play(Abs(s), program, seen, n)
  {
    PlayStands(s, Abs(s), program, seen, n);
  }
}
