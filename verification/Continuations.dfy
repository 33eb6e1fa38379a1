/** base/Continuation.h: the engine of a thread as the scheduler uses it. Behind this interface every coroutine
    has a stack of its own, though all of them run on the one shared buffer. */
module Continuations {
  import opened Prelude
  import opened McoRoutines
  import McoEngine
  import opened EngineInvariant
  import opened Refinement
  import Spec = PrivateStacks

  /** What the methods of the engine ask for, in terms of the machine it stands for. */
  lemma LegalCreate(s: McoEngine.State, id: Id)
    requires Inv(s) && Spec.Wf(Abs(s)) && Spec.Legal(Abs(s), Act.Create(id, false))
    ensures id !in s.cos
  {
  }

  lemma LegalYield(s: McoEngine.State, id: Id)
    requires Inv(s) && Spec.Wf(Abs(s)) && Spec.Legal(Abs(s), Act.Yield(id))
    ensures id == s.main ==> Exec(s) != Some(s.main)
  {
  }

  lemma LegalFinish(s: McoEngine.State)
    requires Inv(s) && Spec.Wf(Abs(s)) && Spec.Legal(Abs(s), Act.Finish)
    ensures |s.callstack| >= 2
  {
  }

  lemma LegalFree(s: McoEngine.State, id: Id)
    requires Inv(s) && Spec.Wf(Abs(s)) && Spec.Legal(Abs(s), Act.Free(id))
    ensures id in s.cos && id != s.main && (id in s.callstack ==> id == McoEngine.Top(s))
  {
  }

  /** True of every n. A proof that needs what Coroutines.Valid says names an instance; to the others Valid is
      one fact, which keeps them small. */
  predicate Inside(n: nat) {
    true
  }

  /** All coroutines of one thread. */
  class Coroutines {
    const engine: McoThread

    /** The engine is sound. */
    ghost predicate Valid()
      reads engine, engine.heap.Values, engine.commonStack
    {
      forall n: nat {:trigger Inside(n)} | Inside(n) :: engine.Valid() && Inv(engine.state)
    }

    /** The objects of the engine. */
    ghost function Footprint(): set<object>
      reads engine`heap
    {
      {engine, engine.commonStack} + engine.heap.Values
    }

    /** What the engine stands for. */
    ghost function Sys(): Spec.Machine
      reads engine`state
    {
      Abs(engine.state)
    }

    ghost predicate Known(co: McoRoutine)
      reads engine`heap
    {
      engine.Known(co)
    }

    /** No coroutine went. */
    twostate predicate Grew()
      reads engine`heap
    {
      forall id | id in old(engine.heap) :: id in engine.heap && engine.heap[id] == old(engine.heap)[id]
    }

    /** The coroutines are those of before, or new. */
    twostate predicate NewOnly()
      reads engine`heap
    {
      forall id | id in engine.heap ::
        (id in old(engine.heap) && engine.heap[id] == old(engine.heap)[id]) || fresh(engine.heap[id])
    }

    constructor (main: Id, size: nat, live: Bytes)
      ensures Valid() && fresh(engine) && fresh(engine.commonStack) && engine.heap == map[]
      ensures Sys() == Spec.Init(main, size, live)
    {
      engine := new McoThread(main, size, live);
      new;
      InitRefines(main, engine.commonStack[..], live);
    }

    method Make(id: Id) returns (co: McoRoutine)
      requires Valid() && Spec.Wf(Sys()) && Spec.Legal(Sys(), Act.Create(id, false))
      modifies Footprint()
      ensures Valid() && fresh(co) && co.id == id && Known(co) && id !in old(engine.heap) && engine.OthersStay(id)
      ensures Sys() == Spec.Step(old(Sys()), Act.Create(id, false))
      ensures NewOnly()
    {
      assert Inside(0);
      LegalCreate(engine.state, id);
      StepRefines(engine.state, Act.Create(id, false));
      co := engine.McoCreate(id, false);
    }

    method Create(id: Id) returns (co: McoRoutine)
      requires Valid() && Spec.Wf(Sys()) && Spec.Legal(Sys(), Act.Create(id, false))
      modifies Footprint()
      ensures Valid() && Known(co) && co.id == id && Grew()
      ensures NewOnly()
      ensures Sys() == Spec.Step(old(Sys()), Act.Create(id, false))
    {
      co := Make(id);
    }

    method Resume(co: McoRoutine)
      requires Valid() && Known(co) && Spec.Wf(Sys()) && Spec.Legal(Sys(), Act.Resume(co.id))
      modifies Footprint()
      ensures Valid() && Grew() && Sys() == Spec.Step(old(Sys()), Act.Resume(co.id))
      ensures NewOnly()
    {
      assert Inside(0);
      assert !Spec.DeepAncestor(engine.state.callstack, co.id);
      StepRefines(engine.state, Act.Resume(co.id));
      engine.McoResume(co);
    }

    method Yield(co: McoRoutine)
      requires Valid() && Known(co) && Spec.Wf(Sys()) && Spec.Legal(Sys(), Act.Yield(co.id))
      modifies Footprint()
      ensures Valid() && Grew() && Sys() == Spec.Step(old(Sys()), Act.Yield(co.id))
      ensures NewOnly()
    {
      assert Inside(0);
      LegalYield(engine.state, co.id);
      StepRefines(engine.state, Act.Yield(co.id));
      engine.McoYield(co);
    }

    /** The callback of the running coroutine returns. */
    method Return()
      requires Valid() && Spec.Wf(Sys()) && Spec.Legal(Sys(), Act.Finish)
      modifies Footprint()
      ensures Valid() && Grew() && Sys() == Spec.Step(old(Sys()), Act.Finish)
      ensures NewOnly()
    {
      assert Inside(0);
      LegalFinish(engine.state);
      StepRefines(engine.state, Act.Finish);
      engine.FinishRunning();
    }

    method Free(co: McoRoutine)
      requires Valid() && Known(co) && Spec.Wf(Sys()) && Spec.Legal(Sys(), Act.Free(co.id))
      modifies Footprint()
      ensures Valid() && Sys() == Spec.Step(old(Sys()), Act.Free(co.id))
      ensures engine.Shrunk(co.id)
      ensures NewOnly()
    {
      assert Inside(0);
      LegalFree(engine.state, co.id);
      StepRefines(engine.state, Act.Free(co.id));
      engine.McoFree(co);
    }

    /** The running coroutine computes. */
    method Work(live: Bytes, scribble: Bytes)
      requires Valid() && Spec.Wf(Sys()) && Spec.Legal(Sys(), Act.Work(live, scribble))
      modifies Footprint()
      ensures Valid() && Grew() && Sys() == Spec.Step(old(Sys()), Act.Work(live, scribble))
      ensures NewOnly()
    {
      assert Inside(0);
      StepRefines(engine.state, Act.Work(live, scribble));
      engine.Work(live, scribble);
    }

    method Runs(co: McoRoutine) returns (runs: bool)
      requires Valid() && Known(co)
      ensures runs <==> Sys().stack != [] && Spec.Top(Sys()) == co.id
    {
      assert Inside(0);
      if engine.index == 0 {
        return false;
      }
      var cur := engine.GetCurMco();
      return cur == co;
    }

    method InMain() returns (inMain: bool)
      requires Valid()
      ensures inMain <==> Sys().stack == [Sys().main]
    {
      assert Inside(0);
      return engine.index <= 1;
    }

    /** The coroutine at an address. */
    method Find(id: Id) returns (co: McoRoutine)
      requires Valid() && id in Sys().tasks && id != Sys().main
      ensures Known(co) && co.id == id
    {
      assert Inside(0);
      assert Sys().tasks.Keys == Ids(engine.state);
      co := engine.heap[id];
    }
  }
}
