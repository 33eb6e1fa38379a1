/** A coroutine that has yielded for the last time takes no further part in anything. */
module Finality {
  import opened Prelude
  import opened McoEngine
  import opened EngineInvariant
  import opened Refinement
  import Spec = PrivateStacks

  /** log goes on to later without storing id. */
  predicate NotStoredSince(log: seq<Copy>, later: seq<Copy>, id: Id) {
    log <= later && Stored(id) !in later[|log|..]
  }

  lemma NotStoredTransitive(a: seq<Copy>, b: seq<Copy>, c: seq<Copy>, id: Id)
    requires NotStoredSince(a, b, id) && NotStoredSince(b, c, id)
    ensures NotStoredSince(a, c, id)
  {
  }

  lemma SwapNotStored(s: State, from: Id, to: Id, id: Id)
    requires from in s.cos && to in s.cos && from != to && id in s.cos && Over(s.cos[id])
    ensures NotStoredSince(s.log, Swap(s, from, to).log, id)
  {
    var p := Park(s, from);
    assert Over(p.cos[id]);
    var q := Claim(p, to);
    assert NotStoredSince(s.log, q.log, id);
    assert NotStoredSince(q.log, Arrive(q, to).log, id);
    NotStoredTransitive(s.log, q.log, Arrive(q, to).log, id);
  }

  lemma ResumeNotStored(s: State, x: Id, id: Id)
    requires Inv(s) && x in s.cos && !Spec.DeepAncestor(s.callstack, x)
    requires id in s.cos && Over(s.cos[id]) && id != s.main
    ensures NotStoredSince(s.log, McoResume(s, x).log, id)
  {
    if !ResumeIgnored(s.cos[x]) {
      MainMcoRefines(s);
      ResumeTransfers(s, x);
      TransferNotStored(MainMco(s), x, id);
    }
  }

  lemma TransferNotStored(t: State, x: Id, id: Id)
    requires Inv(t) && x in t.cos && t.callstack != [] && Top(t) in t.cos && x != Top(t) && !ResumeIgnored(t.cos[x])
    requires TransferReady(t, x) && id in t.cos && Over(t.cos[id])
    ensures NotStoredSince(t.log, Transfer(t, x).log, id)
  {
    assert FlagsOk(t, id) && FlagsOk(t, Top(t));
    if t.cos[Top(t)].sink == Some(x) {
      UnwindShape(t, false);
      SwapNotStored(AfterUnwind(t, false), Top(t), x, id);
    } else {
      SwapNotStored(Push(t, x), Top(t), x, id);
    }
  }

  lemma LeaveNotStored(s: State, over: bool, id: Id)
    requires Inv(s) && |s.callstack| >= 2 && id in s.cos && Over(s.cos[id])
    ensures NotStoredSince(s.log, (if over then CoroutineReturn(s) else McoYield(s, Top(s))).log, id)
  {
    SinkIsBelowTop(s);
    UnwindShape(s, over);
    YieldTopReady(s, over);
    assert FlagsOk(s, id);
    SwapNotStored(AfterUnwind(s, over), Top(s), Below(s), id);
  }

  lemma YieldNotStored(s: State, x: Id, id: Id)
    requires Inv(s) && x in s.cos && (x == s.main ==> Exec(s) != Some(s.main)) && id in s.cos && Over(s.cos[id])
    ensures NotStoredSince(s.log, McoYield(s, x).log, id)
  {
    if !YieldIgnored(s.cos[x]) {
      RunningIsTop(s, x);
      LeaveNotStored(s, false, id);
    }
  }

  lemma OtherNotStored(s: State, a: Act, id: Id)
    requires a.Create? || a.Work? || a.Free?
    ensures NotStoredSince(s.log, Step(s, a).log, id)
  {
  }

  lemma StepNotStored(s: State, a: Act, id: Id)
    requires Inv(s) && Spec.Wf(Abs(s)) && Spec.Legal(Abs(s), a)
    requires id in s.cos && Over(s.cos[id]) && id != s.main
    ensures NotStoredSince(s.log, Step(s, a).log, id)
  {
    AbsWf(s);
    match a {
      case Resume(x) => if x in s.cos { ResumeNotStored(s, x, id); }
      case Yield(x) => if x in s.cos { YieldNotStored(s, x, id); }
      case Finish => LeaveNotStored(s, true, id);
      case _ => OtherNotStored(s, a, id);
    }
  }

  /** The machine with private stacks never wakes a finished coroutine. */
  lemma FinishedStays(m: Spec.Machine, a: Act, id: Id)
    requires Spec.Wf(m) && Spec.Legal(m, a) && a != Act.Free(id)
    requires id in m.tasks && m.tasks[id].status == Spec.Finished && id !in m.stack
    ensures var n := Spec.Step(m, a);
      n.main == m.main && id in n.tasks && n.tasks[id].status == Spec.Finished
  {
  }

  /** Done, and so neither started, nor running, nor on the call stack, nor stored. */
  predicate Retired(s: State, id: Id) {
    && id in s.cos && s.cos[id].done && s.cos[id].doneYield && !s.cos[id].start
    && !s.cos[id].running && !s.cos[id].stackStore && id !in s.callstack
  }

  lemma RetiredIffFinished(s: State, id: Id)
    requires Inv(s) && id in s.cos && id != s.main
    ensures Retired(s, id) <==> Abs(s).tasks[id].status == Spec.Finished
    ensures Retired(s, id) <==> s.cos[id].doneYield
  {
  }

  /** Once done_yield is set, no later act of a legal run makes the coroutine run, puts it back on the
      call stack or stores its bytes, even while it remains the recorded occupant. */
  lemma {:induction false} FinalForGood(s: State, acts: seq<Act>, id: Id)
    requires Inv(s) && Spec.Wf(Abs(s)) && Spec.LegalRun(Abs(s), acts) && Act.Free(id) !in acts
    requires id in s.cos && id != s.main && s.cos[id].doneYield
    ensures Retired(Run(s, acts), id)
    ensures NotStoredSince(s.log, Run(s, acts).log, id)
    decreases |acts|
  {
    RetiredIffFinished(s, id);
    if acts != [] {
      var t := Step(s, acts[0]);
      StepRefines(s, acts[0]);
      StepNotStored(s, acts[0], id);
      AbsWf(t);
      assert acts[0] != Act.Free(id);
      StepStaysRetired(s, acts[0], id);
      FinalForGood(t, acts[1..], id);
      NotStoredTransitive(s.log, t.log, Run(t, acts[1..]).log, id);
    }
  }

  lemma FinishedIsRetired(s: State, m: Spec.Machine, id: Id)
    requires Inv(s) && Abs(s) == m && id in m.tasks && m.tasks[id].status == Spec.Finished && id != m.main
    ensures Retired(s, id)
  {
  }

  lemma StepStaysRetired(s: State, a: Act, id: Id)
    requires Inv(s) && Spec.Wf(Abs(s)) && Spec.Legal(Abs(s), a) && a != Act.Free(id)
    requires id != s.main && Retired(s, id)
    ensures Step(s, a).main == s.main && Retired(Step(s, a), id)
  {
    var m := Abs(s);
    AbsWf(s);
    RetiredIffFinished(s, id);
    FinishedStays(m, a, id);
    StepRefines(s, a);
    FinishedIsRetired(Step(s, a), Spec.Step(m, a), id);
  }
}
