/** McoResume keeps the engine sound exactly when its target is not a deep ancestor. */
module ResumeExactness {
  import opened Prelude
  import opened McoEngine
  import opened EngineInvariant
  import opened Refinement
  import Spec = PrivateStacks

  /** Act a runs into the assertion of McoYield and the assertion is false. */
  predicate Fails(s: State, a: Act) {
    match a
    case Yield(id) => id in s.cos && !YieldIgnored(s.cos[id]) && !SinkIsBelow(s, id)
    case Resume(id) =>
      && id in s.cos && !ResumeIgnored(s.cos[id])
      && var t := MainMco(s);
         Top(t) in t.cos && t.cos[Top(t)].sink == Some(id)
         && !YieldIgnored(t.cos[Top(t)]) && !SinkIsBelow(t, Top(t))
    case Finish => s.callstack != [] && Top(s) in s.cos && !SinkIsBelow(s, Top(s))
    case _ => false
  }

  /** A caller who keeps the rules never meets a failing assertion. */
  lemma LegalNeverFails(s: State, a: Act)
    requires Inv(s) && Spec.Wf(Abs(s)) && Spec.Legal(Abs(s), a)
    ensures !Fails(s, a)
  {
  }

  /** No act of a legal run fails. */
  lemma {:induction false} RunNeverFails(s: State, acts: seq<Act>, a: Act)
    requires Inv(s) && Spec.Wf(Abs(s)) && Spec.LegalRun(Abs(s), acts + [a])
    ensures !Fails(Run(s, acts), a)
    decreases |acts|
  {
    if acts == [] {
      assert (acts + [a])[0] == a;
      LegalNeverFails(s, a);
    } else {
      var rest := (acts + [a])[1..];
      assert rest == acts[1..] + [a] && (acts + [a])[0] == acts[0];
      StepRefines(s, acts[0]);
      AbsWf(Step(s, acts[0]));
      RunNeverFails(Step(s, acts[0]), acts[1..], a);
    }
  }

  /** id is suspended at position p of the call stack, deeper than the direct sink. */
  predicate Deep(s: State, id: Id, p: nat) {
    StackInv(s) && p < |s.callstack| - 2 && s.callstack[p] == id
  }

  /** The control state u after the deep ancestor id was resumed in s and some yields were made. */
  predicate Doomed(s: State, u: State, id: Id)
    requires s.callstack != []
  {
    && u.cos.Keys == s.cos.Keys && id in s.cos && u.callstack != []
    && u.cos[id].sink == Some(Top(s))
    && (forall x | x in s.cos && x != id :: u.cos[x].sink == s.cos[x].sink)
    && (forall x | x in s.cos :: u.cos[x].running <==> x == Top(u))
    && (forall x | x in s.callstack :: x in s.cos && !u.cos[x].done)
  }

  lemma DoomedFrame(s: State, u: State, v: State, id: Id)
    requires s.callstack != [] && Doomed(s, u, id) && SwapFrame(u, v)
    ensures Doomed(s, v, id)
  {
  }

  lemma PushDooms(s: State, id: Id, p: nat)
    requires Deep(s, id, p) && FlagsInv(s)
    ensures Top(s) in s.cos && id in s.cos && Doomed(s, Push(s, id), id)
  {
  }

  lemma IllegalResume(s: State, id: Id, p: nat)
    requires Deep(s, id, p) && Inv(s)
    ensures id in s.cos && !ResumeIgnored(s.cos[id])
    ensures var u := McoResume(s, id); Doomed(s, u, id) && u.callstack == s.callstack + [id]
  {
    PushDooms(s, id, p);
    assert FlagsOk(s, id);
    SinkIsBelowTop(s);
    assert id != Below(s) && id != Top(s);
    var t := Push(s, id);
    SwapKeepsControl(t, Top(s), id);
    DoomedFrame(s, t, McoResume(s, id), id);
  }

  lemma DoomedTop(s: State, u: State, id: Id, p: nat)
    requires Deep(s, id, p) && Doomed(s, u, id)
    requires u.callstack <= s.callstack + [id] && |u.callstack| > p + 1
    ensures var x, below := Top(u), u.callstack[|u.callstack| - 2];
      && x in u.cos && below in u.cos && u.cos[x].sink == Some(below) && x != below
      && !u.cos[x].done && u.cos[x].running
  {
  }

  lemma DoomedUnwind(s: State, u: State, id: Id, below: Id)
    requires s.callstack != [] && Doomed(s, u, id) && |u.callstack| >= 2 && below == u.callstack[|u.callstack| - 2]
    requires Top(u) in u.cos && below in u.cos && u.cos[Top(u)].sink == Some(below) && Top(u) != below
    requires !u.cos[Top(u)].done
    ensures var t := Unwind(u, Top(u)); Doomed(s, t, id) && t.callstack == Pop(u.callstack)
  {
  }

  /** The top of u can yield, and then v is what McoSwap makes of the unwound u. */
  predicate Unwinds(u: State, v: State) {
    && |u.callstack| >= 2 && Top(u) in u.cos && !Fails(u, Act.Yield(Top(u)))
    && var below := u.callstack[|u.callstack| - 2];
       below in u.cos && u.cos[Top(u)].sink == Some(below) && SwapFrame(Unwind(u, Top(u)), v)
  }

  lemma YieldUnwinds(u: State)
    requires |u.callstack| >= 2
    requires var x, below := Top(u), u.callstack[|u.callstack| - 2];
      && x in u.cos && below in u.cos && u.cos[x].sink == Some(below) && x != below
      && !u.cos[x].done && u.cos[x].running
    ensures Unwinds(u, Step(u, Act.Yield(Top(u))))
  {
    SwapKeepsControl(Unwind(u, Top(u)), Top(u), u.callstack[|u.callstack| - 2]);
  }

  lemma DoomedStep(s: State, u: State, v: State, id: Id, p: nat)
    requires Deep(s, id, p) && Doomed(s, u, id)
    requires u.callstack <= s.callstack + [id] && |u.callstack| > p + 1 && Unwinds(u, v)
    ensures Doomed(s, v, id) && v.callstack == Pop(u.callstack)
  {
    DoomedTop(s, u, id, p);
    DoomedUnwind(s, u, id, u.callstack[|u.callstack| - 2]);
    DoomedFrame(s, Unwind(u, Top(u)), v, id);
  }

  lemma YieldsRun(u: State, n: nat) returns (v: State)
    requires u.callstack != [] && |u.callstack| > n
    ensures v == Step(u, Act.Yield(Top(u)))
    ensures v.callstack == Pop(u.callstack) ==>
      Run(u, Spec.Yields(u.callstack, n)) == Run(v, Spec.Yields(v.callstack, n))
  {
    var a := Act.Yield(Top(u));
    var rest := Spec.Yields(Pop(u.callstack), n);
    assert Spec.Yields(u.callstack, n) == [a] + rest && ([a] + rest)[1..] == rest;
    v := Step(u, a);
  }

  /** A yield of the top of a doomed stack unwinds it by one, while it is above position p. */
  lemma DoomedYield(s: State, u: State, id: Id, p: nat) returns (v: State)
    requires Deep(s, id, p) && Doomed(s, u, id)
    requires u.callstack <= s.callstack + [id] && |u.callstack| > p + 1
    ensures Unwinds(u, v) && v.callstack == Pop(u.callstack)
    ensures Run(u, Spec.Yields(u.callstack, p + 1)) == Run(v, Spec.Yields(v.callstack, p + 1))
  {
    DoomedTop(s, u, id, p);
    YieldUnwinds(u);
    v := YieldsRun(u, p + 1);
    assert Unwinds(u, v);
  }

  lemma DoomedNext(s: State, u: State, id: Id, p: nat) returns (v: State)
    requires Deep(s, id, p) && Doomed(s, u, id)
    requires u.callstack <= s.callstack + [id] && |u.callstack| > p + 1
    ensures Doomed(s, v, id) && v.callstack <= s.callstack + [id] && |v.callstack| == |u.callstack| - 1
    ensures Run(u, Spec.Yields(u.callstack, p + 1)) == Run(v, Spec.Yields(v.callstack, p + 1))
  {
    v := DoomedYield(s, u, id, p);
    DoomedStep(s, u, v, id, p);
  }

  /** Unwinding a doomed stack down to position p. */
  lemma {:induction false} DoomedYields(s: State, u: State, id: Id, p: nat) returns (w: State)
    requires Deep(s, id, p) && Doomed(s, u, id)
    requires u.callstack <= s.callstack + [id] && |u.callstack| > p
    ensures Run(u, Spec.Yields(u.callstack, p + 1)) == w
    ensures Doomed(s, w, id) && w.callstack == s.callstack[..p + 1]
    decreases |u.callstack|
  {
    if |u.callstack| == p + 1 {
      assert u.callstack == (s.callstack + [id])[..p + 1];
      w := u;
    } else {
      var v := DoomedNext(s, u, id, p);
      w := DoomedYields(s, v, id, p);
    }
  }

  /** The act that fails once the stack is unwound: a yield by id, or if id is main, main's resume of
      its recorded sink. */
  function LastStraw(s: State, id: Id): Act
    requires s.callstack != []
  {
    if id == s.main then Act.Resume(Top(s)) else Act.Yield(id)
  }

  lemma DoomedFails(s: State, u: State, id: Id, p: nat)
    requires Deep(s, id, p) && Doomed(s, u, id) && u.callstack == s.callstack[..p + 1]
    ensures Fails(u, LastStraw(s, id))
  {
  }

  lemma DoomedRun(s: State, u: State, id: Id, p: nat)
    requires Deep(s, id, p) && Doomed(s, u, id) && u.callstack == s.callstack + [id]
    ensures Fails(Run(u, Spec.Yields(s.callstack + [id], p + 1)), LastStraw(s, id))
  {
    var w := DoomedYields(s, u, id, p);
    DoomedFails(s, w, id, p);
  }

  /** After the resume of a deep ancestor, yields alone lead to a failing assertion. */
  lemma DeepResumeFails(s: State, id: Id, p: nat)
    requires Deep(s, id, p) && id in s.cos && Inv(s)
    ensures !ResumeIgnored(s.cos[id])
    ensures Fails(Run(Step(s, Act.Resume(id)), Spec.Yields(s.callstack + [id], p + 1)), LastStraw(s, id))
  {
    IllegalResume(s, id, p);
    DoomedRun(s, McoResume(s, id), id, p);
  }

  /** From a sound state, a resume that does anything leaves the engine sound if and only if its
      target is not suspended below the direct sink of the running coroutine. */
  lemma ResumeExact(s: State, id: Id)
    requires Inv(s) && id in s.cos && !ResumeIgnored(s.cos[id])
    ensures Inv(McoResume(s, id)) <==> !Spec.DeepAncestor(s.callstack, id)
    ensures Spec.DeepAncestor(s.callstack, id) ==>
      exists acts, a :: Fails(Run(Step(s, Act.Resume(id)), acts), a)
  {
    if Spec.DeepAncestor(s.callstack, id) {
      var p :| 0 <= p < |s.callstack| - 2 && s.callstack[p] == id;
      IllegalResume(s, id, p);
      DeepResumeFails(s, id, p);
      var t := McoResume(s, id).callstack;
      assert t[p] == t[|s.callstack|];
    } else {
      ResumeRefines(s, id);
    }
  }
}
