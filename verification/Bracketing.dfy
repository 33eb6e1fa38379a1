/** Properly nested runs: what a coroutine sees of the resumes that others make inside its own. */
module Bracketing {
  import opened Prelude
  import opened McoEngine
  import opened EngineInvariant
  import opened Refinement
  import Spec = PrivateStacks

  /** How a resumed coroutine gives control back. */
  datatype Return = ByYield | ByFinish | ByResumingSink

  /** What a coroutine does between two points: it computes, and resumes others, which do likewise
      before they give control back. */
  datatype Nest =
    | Rest
    | Compute(live: Bytes, scribble: Bytes, next: Nest)
    | Call(id: Id, body: Nest, back: Return, next: Nest)

  function Acts(self: Id, n: Nest): seq<Act>
    decreases n
  {
    match n
    case Rest => []
    case Compute(live, scribble, next) => [Act.Work(live, scribble)] + Acts(self, next)
    case Call(id, body, back, next) =>
      [Act.Resume(id)] + Acts(id, body) + [Back(self, id, back)] + Acts(self, next)
  }

  function Back(self: Id, id: Id, back: Return): Act {
    match back
    case ByYield => Act.Yield(id)
    case ByFinish => Act.Finish
    case ByResumingSink => Act.Resume(self)
  }

  /** The coroutines resumed anywhere in n. */
  function Called(n: Nest): set<Id> {
    match n
    case Rest => {}
    case Compute(_, _, next) => Called(next)
    case Call(id, body, _, next) => {id} + Called(body) + Called(next)
  }

  /** The coroutines that finish in n. */
  function Ending(n: Nest): set<Id> {
    match n
    case Rest => {}
    case Compute(_, _, next) => Ending(next)
    case Call(id, body, back, next) => (if back == ByFinish then {id} else {}) + Ending(body) + Ending(next)
  }

  /** n can be run by the top of a stack: whoever is resumed is off the stack and unfinished, and
      computations fit. private tells the coroutines and whether their stacks are private. */
  predicate Runnable(private: map<Id, bool>, size: nat, stack: seq<Id>, ended: set<Id>, n: Nest)
    requires stack != []
    decreases n
  {
    match n
    case Rest => true
    case Compute(live, scribble, next) =>
      var self := stack[|stack| - 1];
      && self in private && (private[self] || (|live| <= size && |scribble| == size))
      && Runnable(private, size, stack, ended, next)
    case Call(id, body, back, next) =>
      && id in private && id !in stack && id !in ended
      && Runnable(private, size, stack + [id], ended, body)
      && id !in Ending(body)
      && Runnable(private, size, stack, ended + Ending(body) + (if back == ByFinish then {id} else {}), next)
  }

  function Kinds(m: Spec.Machine): map<Id, bool> {
    map id | id in m.tasks :: m.tasks[id].private
  }

  /** A sound machine: the call stack starts with main, has no duplicates and nobody on it has finished. */
  predicate Sound(m: Spec.Machine) {
    && Spec.Wf(m) && NoDuplicates(m.stack)
    && (forall i | 0 <= i < |m.stack| :: m.tasks[m.stack[i]].status == Spec.Started)
  }

  predicate Ended(m: Spec.Machine, ended: set<Id>) {
    forall id | id in m.tasks && m.tasks[id].status == Spec.Finished :: id in ended
  }

  /** r is m again, but that top may have computed and that the tasks of ids may have moved on. */
  predicate Restores(m: Spec.Machine, r: Spec.Machine, ids: set<Id>) {
    && r.main == m.main && r.size == m.size && r.stack == m.stack && Kinds(r) == Kinds(m)
    && (forall id | id in m.tasks && id !in ids :: id in r.tasks && r.tasks[id] == m.tasks[id])
  }

  lemma PushSound(m: Spec.Machine, id: Id, ended: set<Id>)
    requires Sound(m) && Ended(m, ended) && id in m.tasks && id !in m.stack && id !in ended
    ensures var p := Spec.Pushed(m, id);
      && Spec.Legal(m, Act.Resume(id)) && Spec.Step(m, Act.Resume(id)) == p
      && Sound(p) && Ended(p, ended) && Kinds(p) == Kinds(m) && Spec.Top(p) == id
      && forall x | x in m.tasks && x != id :: p.tasks[x] == m.tasks[x]
  {
  }

  lemma BackPops(m: Spec.Machine, self: Id, back: Return, ended: set<Id>)
    requires Sound(m) && Ended(m, ended) && |m.stack| >= 2 && self == m.stack[|m.stack| - 2]
    ensures var id, over := Spec.Top(m), back == ByFinish;
      var a := Back(self, id, back); var p := Spec.Popped(m, over);
      && Spec.Legal(m, a) && Spec.Step(m, a) == p
      && Sound(p) && Kinds(p) == Kinds(m) && p.stack == m.stack[..|m.stack| - 1]
      && Ended(p, ended + if over then {id} else {})
      && forall x | x in m.tasks && x != id :: p.tasks[x] == m.tasks[x]
  {
  }

  lemma ComputeSound(m: Spec.Machine, live: Bytes, scribble: Bytes, ended: set<Id>)
    requires Sound(m) && Ended(m, ended)
    requires m.tasks[Spec.Top(m)].private || (|live| <= m.size && |scribble| == m.size)
    ensures Spec.Legal(m, Act.Work(live, scribble))
    ensures var p := Spec.Step(m, Act.Work(live, scribble));
      Sound(p) && Ended(p, ended) && Restores(m, p, {Spec.Top(m)})
  {
  }

  lemma CallRuns(m: Spec.Machine, p: Spec.Machine, q: Spec.Machine, t: Spec.Machine,
                 resume: Act, body: seq<Act>, back: Act, next: seq<Act>)
    requires Spec.Wf(m) && Spec.Legal(m, resume) && p == Spec.Step(m, resume) && Spec.Wf(p)
    requires Spec.LegalRun(p, body) && q == Spec.Run(p, body)
    requires Spec.Legal(q, back) && t == Spec.Step(q, back) && Spec.Wf(t) && Spec.LegalRun(t, next)
    ensures var acts := [resume] + body + [back] + next;
      Spec.LegalRun(m, acts) && Spec.Run(m, acts) == Spec.Run(t, next)
  {
    Spec.RunCons(q, back, next);
    Spec.RunAppend(p, body, [back] + next);
    Spec.RunCons(m, resume, body + ([back] + next));
    assert [resume] + body + [back] + next == [resume] + (body + ([back] + next));
  }

  lemma RestoresCompose(m: Spec.Machine, p: Spec.Machine, q: Spec.Machine, t: Spec.Machine, r: Spec.Machine,
                        id: Id, called: set<Id>, after: set<Id>, over: bool)
    requires Sound(m) && id in m.tasks && p == Spec.Pushed(m, id) && id !in m.stack
    requires Sound(q) && Restores(p, q, called + {id}) && t == Spec.Popped(q, over)
    requires Restores(t, r, after + {Spec.Top(m)})
    ensures Spec.Top(q) == id && Restores(m, r, {id} + called + after + {Spec.Top(m)})
  {
    assert Kinds(p) == Kinds(m);
    assert Kinds(t) == Kinds(q);
    assert t.stack == m.stack;
    forall x | x in m.tasks && x !in {id} + called + after + {Spec.Top(m)}
      ensures x in r.tasks && r.tasks[x] == m.tasks[x]
    {
      assert p.tasks[x] == m.tasks[x] && q.tasks[x] == p.tasks[x] && t.tasks[x] == q.tasks[x];
    }
  }

  /** A properly nested run is legal and gives back the call stack; of the coroutines that neither
      ran it nor were called in it, nothing changes. */
  lemma {:induction false} NestRestores(m: Spec.Machine, n: Nest, ended: set<Id>)
    requires Sound(m) && Ended(m, ended) && Runnable(Kinds(m), m.size, m.stack, ended, n)
    ensures Spec.LegalRun(m, Acts(Spec.Top(m), n))
    ensures var r := Spec.Run(m, Acts(Spec.Top(m), n));
      && Sound(r) && Ended(r, ended + Ending(n))
      && Restores(m, r, Called(n) + {Spec.Top(m)})
    decreases n, 1
  {
    var self := Spec.Top(m);
    match n {
      case Rest =>
        assert Acts(self, n) == [];
      case Compute(live, scribble, next) =>
        ComputeSound(m, live, scribble, ended);
        var p := Spec.Step(m, Act.Work(live, scribble));
        NestRestores(p, next, ended);
        Spec.RunCons(m, Act.Work(live, scribble), Acts(self, next));
      case Call(id, body, back, next) =>
        var r := NestCall(m, id, body, back, next, ended);
        assert ended + Ending(body) + (if back == ByFinish then {id} else {}) + Ending(next) == ended + Ending(n);
    }
  }

  /** The resume of id, what it does, and its giving control back. */
  lemma {:induction false} NestBody(m: Spec.Machine, id: Id, body: Nest, back: Return, ended: set<Id>)
      returns (p: Spec.Machine, q: Spec.Machine, t: Spec.Machine)
    requires Sound(m) && Ended(m, ended) && id in m.tasks && id !in m.stack && id !in ended
    requires Runnable(Kinds(m), m.size, m.stack + [id], ended, body)
    ensures Spec.Legal(m, Act.Resume(id)) && p == Spec.Step(m, Act.Resume(id)) == Spec.Pushed(m, id) && Spec.Wf(p)
    ensures Spec.LegalRun(p, Acts(id, body)) && q == Spec.Run(p, Acts(id, body))
    ensures Sound(q) && Restores(p, q, Called(body) + {id})
    ensures var a := Back(Spec.Top(m), id, back); Spec.Legal(q, a) && t == Spec.Step(q, a)
    ensures t == Spec.Popped(q, back == ByFinish) && Sound(t) && t.stack == m.stack && Kinds(t) == Kinds(m)
    ensures t.size == m.size && Ended(t, ended + Ending(body) + if back == ByFinish then {id} else {})
    decreases body, 2
  {
    p := Spec.Pushed(m, id);
    PushSound(m, id, ended);
    NestRestores(p, body, ended);
    q := Spec.Run(p, Acts(id, body));
    BackPops(q, Spec.Top(m), back, ended + Ending(body));
    t := Spec.Step(q, Back(Spec.Top(m), id, back));
  }

  lemma {:induction false} NestCall(m: Spec.Machine, id: Id, body: Nest, back: Return, next: Nest, ended: set<Id>)
      returns (r: Spec.Machine)
    requires Sound(m) && Ended(m, ended) && Runnable(Kinds(m), m.size, m.stack, ended, Call(id, body, back, next))
    ensures Spec.LegalRun(m, Acts(Spec.Top(m), Call(id, body, back, next)))
    ensures r == Spec.Run(m, Acts(Spec.Top(m), Call(id, body, back, next)))
    ensures Sound(r) && Restores(m, r, {id} + Called(body) + Called(next) + {Spec.Top(m)})
    ensures Ended(r, ended + Ending(body) + (if back == ByFinish then {id} else {}) + Ending(next))
    decreases Call(id, body, back, next), 0
  {
    var self := Spec.Top(m);
    var p, q, t := NestBody(m, id, body, back, ended);
    NestRestores(t, next, ended + Ending(body) + (if back == ByFinish then {id} else {}));
    r := Spec.Run(t, Acts(self, next));
    CallRuns(m, p, q, t, Act.Resume(id), Acts(id, body), Back(self, id, back), Acts(self, next));
    RestoresCompose(m, p, q, t, r, id, Called(body), Called(next), back == ByFinish);
  }

  lemma AbsSound(s: State)
    requires Inv(s)
    ensures Sound(Abs(s))
  {
  }

  /** main is never deleted, so the call stack never empties again. */
  lemma MainStays(s: State, a: Act)
    requires Inv(s) && Spec.Wf(Abs(s)) && Spec.Legal(Abs(s), a) && s.callstack != []
    ensures Step(s, a).callstack != []
  {
    StepRefines(s, a);
    if a.Resume? && a.id in s.cos && !ResumeIgnored(s.cos[a.id]) {
      ResumeTransfers(s, a.id);
      KeysStay(s, a.id);
    } else if a.Yield? && a.id in s.cos && !YieldIgnored(s.cos[a.id]) {
      RunningIsTop(s, a.id);
      LeaveKeys(s, false);
    } else if a.Finish? {
      LeaveKeys(s, true);
    }
  }

  lemma KeysStay(s: State, id: Id)
    requires Inv(s) && s.callstack != [] && id in s.cos && !ResumeIgnored(s.cos[id])
    requires !Spec.DeepAncestor(s.callstack, id)
    ensures McoResume(s, id).cos.Keys == s.cos.Keys && McoResume(s, id).main == s.main
  {
    ResumeTransfers(s, id);
    if s.cos[Top(s)].sink == Some(id) {
      SinkIsBelowTop(s);
      SwapKeepsControl(Unwind(s, Top(s)), Top(s), id);
    } else {
      SwapKeepsControl(Push(s, id), Top(s), id);
    }
  }

  lemma LeaveKeys(s: State, over: bool)
    requires Inv(s) && |s.callstack| >= 2
    ensures var t := if over then CoroutineReturn(s) else McoYield(s, Top(s));
      t.cos.Keys == s.cos.Keys && t.main == s.main
  {
    SinkIsBelowTop(s);
    YieldTopReady(s, over);
    SwapKeepsControl(AfterUnwind(s, over), Top(s), Below(s));
  }

  lemma {:induction false} MainStaysInRun(s: State, acts: seq<Act>)
    requires Inv(s) && Spec.Wf(Abs(s)) && Spec.LegalRun(Abs(s), acts) && s.callstack != []
    ensures Run(s, acts).callstack != []
    decreases |acts|
  {
    if acts != [] {
      MainStays(s, acts[0]);
      StepRefines(s, acts[0]);
      AbsWf(Step(s, acts[0]));
      MainStaysInRun(Step(s, acts[0]), acts[1..]);
    }
  }

  lemma TaskRestored(s: State, t: State, ids: set<Id>, id: Id)
    requires Restores(Abs(s), Abs(t), ids) && id in s.cos && id !in ids
    ensures Live(t, Exec(t), id) == Live(s, Exec(s), id)
  {
  }

  lemma KeysRestored(s: State, t: State, ids: set<Id>)
    requires Restores(Abs(s), Abs(t), ids) && s.main in s.cos && t.main in t.cos
    ensures t.cos.Keys == s.cos.Keys
  {
    assert Kinds(Abs(s)).Keys == Ids(s) && Kinds(Abs(t)).Keys == Ids(t);
    assert Ids(s) == s.cos.Keys && Ids(t) == t.cos.Keys;
  }

  lemma EngineRestored(s: State, t: State, ids: set<Id>)
    requires Inv(s) && Inv(t) && s.callstack != [] && t.callstack != [] && Restores(Abs(s), Abs(t), ids)
    ensures t.callstack == s.callstack && t.cos.Keys == s.cos.Keys
    ensures forall id | id in s.cos :: (t.cos[id].running <==> s.cos[id].running)
    ensures forall id | id in s.cos && id !in ids :: Live(t, Exec(t), id) == Live(s, Exec(s), id)
  {
    KeysRestored(s, t, ids);
    forall id | id in s.cos
      ensures t.cos[id].running <==> s.cos[id].running
    {
      RunningIffTop(s, id);
      RunningIffTop(t, id);
    }
    forall id | id in s.cos && id !in ids
      ensures Live(t, Exec(t), id) == Live(s, Exec(s), id)
    {
      TaskRestored(s, t, ids, id);
    }
  }

  /** The same on the engine: after a properly nested run the call stack and the running flags are what
      they were, and so are the live bytes of every coroutine that took no part. */
  lemma NestRestoresEngine(s: State, n: Nest, ended: set<Id>) returns (t: State)
    requires Inv(s) && s.callstack != []
    requires Ended(Abs(s), ended) && Runnable(Kinds(Abs(s)), |s.buffer|, s.callstack, ended, n)
    ensures t == Run(s, Acts(Top(s), n))
    ensures Inv(t) && t.callstack == s.callstack && t.cos.Keys == s.cos.Keys
    ensures forall id | id in s.cos :: (t.cos[id].running <==> s.cos[id].running)
    ensures forall id | id in s.cos && id !in Called(n) && id != Top(s) :: Live(t, Exec(t), id) == Live(s, Exec(s), id)
  {
    AbsSound(s);
    NestRestores(Abs(s), n, ended);
    RunRefines(s, Acts(Top(s), n));
    MainStaysInRun(s, Acts(Top(s), n));
    t := Run(s, Acts(Top(s), n));
    EngineRestored(s, t, Called(n) + {Top(s)});
  }

  /** To resume the coroutine that resumed the running one is to yield. */
  lemma ResumeOfSinkIsYield(s: State)
    requires Inv(s) && |s.callstack| >= 2
    ensures Below(s) in s.cos && McoResume(s, Below(s)) == McoYield(s, Top(s))
  {
  }

  /** Yields of whoever runs unwind the call stack entry by entry and change nothing else. */
  lemma {:induction false} YieldsUnwind(m: Spec.Machine, n: nat)
    requires Sound(m) && 1 <= n <= |m.stack|
    ensures Spec.LegalRun(m, Spec.Yields(m.stack, n))
    ensures Spec.Run(m, Spec.Yields(m.stack, n)) == m.(stack := m.stack[..n])
    decreases |m.stack|
  {
    if n == |m.stack| {
      assert m.stack[..n] == m.stack;
    } else {
      var a := Act.Yield(Spec.Top(m));
      assert Spec.Top(m) != m.stack[0];
      var p := Spec.Step(m, a);
      YieldsUnwind(p, n);
      Spec.RunCons(m, a, Spec.Yields(p.stack, n));
      assert p.stack[..n] == m.stack[..n];
    }
  }

  /** The same on the engine: from any depth yields lead down to any entry of the call stack, which then is
      the one that runs, and nobody's live bytes change. */
  lemma YieldsUnwindEngine(s: State, n: nat) returns (t: State)
    requires Inv(s) && 1 <= n <= |s.callstack|
    ensures t == Run(s, Spec.Yields(s.callstack, n))
    ensures Inv(t) && t.callstack == s.callstack[..n] && t.cos.Keys == s.cos.Keys
    ensures forall id | id in t.cos :: (t.cos[id].running <==> id == s.callstack[n - 1])
    ensures forall id | id in t.cos :: Live(t, Exec(t), id) == Live(s, Exec(s), id)
  {
    var acts := Spec.Yields(s.callstack, n);
    AbsSound(s);
    YieldsUnwind(Abs(s), n);
    RunRefines(s, acts);
    MainStaysInRun(s, acts);
    t := Run(s, acts);
    assert Abs(t) == Abs(s).(stack := s.callstack[..n]);
    Unwound(s, t, n);
  }

  lemma Unwound(s: State, t: State, n: nat)
    requires Inv(s) && Inv(t) && 1 <= n <= |s.callstack| && t.callstack != []
    requires Abs(t) == Abs(s).(stack := s.callstack[..n])
    ensures t.callstack == s.callstack[..n] && t.cos.Keys == s.cos.Keys
    ensures forall id | id in t.cos :: (t.cos[id].running <==> id == s.callstack[n - 1])
    ensures forall id | id in t.cos :: Live(t, Exec(t), id) == Live(s, Exec(s), id)
  {
    SameIds(s, t);
    forall id | id in t.cos
      ensures t.cos[id].running <==> id == s.callstack[n - 1]
      ensures Live(t, Exec(t), id) == Live(s, Exec(s), id)
    {
      RunningIffTop(t, id);
      SameLive(s, t, id);
    }
  }

  lemma SameIds(s: State, t: State)
    requires Abs(s).tasks.Keys == Abs(t).tasks.Keys && s.main in s.cos && t.main in t.cos
    ensures t.cos.Keys == s.cos.Keys
  {
    assert Abs(s).tasks.Keys == Ids(s) == s.cos.Keys && Abs(t).tasks.Keys == Ids(t) == t.cos.Keys;
  }

  lemma SameLive(s: State, t: State, id: Id)
    requires Abs(s).tasks == Abs(t).tasks && id in s.cos && id in t.cos
    ensures Live(t, Exec(t), id) == Live(s, Exec(s), id)
  {
    assert Abs(s).tasks[id] == TaskOf(s, Exec(s), id) && Abs(t).tasks[id] == TaskOf(t, Exec(t), id);
  }
}
