/** The two flags that nothing in the engine reads: in_callstack and should_close. */
module Marks {
  import opened Prelude
  import opened McoEngine
  import opened EngineInvariant
  import opened Refinement
  import Spec = PrivateStacks

  /** in_callstack is set by the first resume and stays: it says that the coroutine ever ran. */
  predicate MarkOk(c: Co) {
    c.inCallstack == (c.start || c.done)
  }

  predicate MarksOk(s: State) {
    forall x | x in s.cos :: MarkOk(s.cos[x])
  }

  /** From s to t nobody is asked to close, or asked no longer. */
  predicate ClosesAlike(s: State, t: State) {
    forall x | x in s.cos && x in t.cos :: t.cos[x].shouldClose == s.cos[x].shouldClose
  }

  predicate MarksKept(s: State, t: State) {
    s.cos.Keys <= t.cos.Keys && ClosesAlike(s, t) && (MarksOk(s) ==> MarksOk(t))
  }

  lemma SwapMarks(s: State, p: State, from: Id, to: Id)
    requires MarksKept(s, p) && from in p.cos && to in p.cos && from != to
    ensures MarksKept(s, Swap(p, from, to))
  {
    SwapKeepsControl(p, from, to);
    var t := Swap(p, from, to);
    assert forall x | x in p.cos :: SameControl(p.cos[x], t.cos[x]);
  }

  lemma PushMarks(s: State, id: Id)
    requires s.callstack != [] && Top(s) in s.cos && id in s.cos && Top(s) != id
    ensures MarksKept(s, Push(s, id))
  {
  }

  lemma UnwindMarks(s: State, over: bool)
    requires |s.callstack| >= 2 && Top(s) in s.cos && Below(s) in s.cos && s.cos[Top(s)].sink == Some(Below(s))
    requires Below(s) != Top(s) && s.cos[Top(s)].start
    ensures MarksKept(s, AfterUnwind(s, over))
  {
    UnwindShape(s, over);
  }

  lemma LeaveMarks(s: State, over: bool)
    requires Inv(s) && |s.callstack| >= 2
    ensures Top(s) in s.cos && MarksKept(s, if over then CoroutineReturn(s) else McoYield(s, Top(s)))
  {
    SinkIsBelowTop(s);
    YieldTopReady(s, over);
    UnwindMarks(s, over);
    SwapMarks(s, AfterUnwind(s, over), Top(s), Below(s));
  }

  lemma ThenMarks(s: State, p: State, t: State)
    requires MarksKept(s, p) && MarksKept(p, t)
    ensures MarksKept(s, t)
  {
  }

  lemma MainMarks(s: State)
    requires s.callstack == [] ==> s.main !in s.cos
    ensures MarksKept(s, MainMco(s))
  {
  }

  lemma PushedMarks(s: State, id: Id)
    requires s.callstack != [] && Top(s) in s.cos && id in s.cos && Top(s) != id
    ensures MarksKept(s, Swap(Push(s, id), Top(s), id))
  {
    PushMarks(s, id);
    SwapMarks(s, Push(s, id), Top(s), id);
  }

  /** McoResume, after its checks. */
  lemma TransferMarks(s: State, id: Id)
    requires Inv(s) && id in s.cos && s.callstack != [] && Top(s) in s.cos && Top(s) != id
    requires s.cos[Top(s)].sink == Some(id) ==> |s.callstack| >= 2
    ensures MarksKept(s, if s.cos[Top(s)].sink != Some(id) then Swap(Push(s, id), Top(s), id) else McoYield(s, Top(s)))
  {
    if s.cos[Top(s)].sink == Some(id) {
      LeaveMarks(s, false);
    } else {
      PushedMarks(s, id);
    }
  }

  lemma ResumeMarks(s: State, id: Id)
    requires Inv(s) && id in s.cos && !Spec.DeepAncestor(s.callstack, id)
    ensures MarksKept(s, McoResume(s, id))
  {
    if !ResumeIgnored(s.cos[id]) {
      ResumeTransfers(s, id);
      MainMcoRefines(s);
      MainMarks(s);
      TransferMarks(MainMco(s), id);
      ThenMarks(s, MainMco(s), McoResume(s, id));
    }
  }

  lemma YieldMarks(s: State, id: Id)
    requires Inv(s) && id in s.cos && (id == s.main ==> Exec(s) != Some(s.main))
    ensures MarksKept(s, McoYield(s, id))
  {
    if !YieldIgnored(s.cos[id]) {
      RunningIsTop(s, id);
      LeaveMarks(s, false);
    }
  }

  /** A coroutine that is freed while it runs is asked to close and not changed otherwise. */
  lemma FreeMarks(s: State, id: Id)
    requires id in s.cos
    ensures var t := McoFree(s, id);
      && (MarksOk(s) ==> MarksOk(t)) && s.cos.Keys - {id} <= t.cos.Keys
      && (forall x | x in s.cos && x != id :: t.cos[x] == s.cos[x])
      && (s.cos[id].running ==> id in t.cos && t.cos[id] == s.cos[id].(shouldClose := true))
      && (!s.cos[id].running ==> id !in t.cos)
  {
  }

  lemma OtherMarks(s: State, a: Act)
    requires a.Work? || (a.Create? && a.id !in s.cos)
    ensures MarksKept(s, Step(s, a))
  {
  }

  /** In every legal act: in_callstack goes on to say who ever ran, and nothing but the free of a running
      coroutine sets should_close. */
  lemma StepMarks(s: State, a: Act)
    requires Inv(s) && Spec.Wf(Abs(s)) && Spec.Legal(Abs(s), a) && MarksOk(s)
    ensures var t := Step(s, a);
      && MarksOk(t)
      && forall x | x in s.cos && x in t.cos :: t.cos[x].shouldClose == (s.cos[x].shouldClose || a == Free(x))
  {
    AbsWf(s);
    match a {
      case Resume(id) => if id in s.cos { ResumeMarks(s, id); }
      case Yield(id) => if id in s.cos { YieldMarks(s, id); }
      case Finish => LeaveMarks(s, true);
      case Free(id) => FreeMarks(s, id);
      case _ => OtherMarks(s, a);
    }
  }
}
