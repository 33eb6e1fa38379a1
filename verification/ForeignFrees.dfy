/** A coroutine whose last reference is dropped on a thread that does not own it. */
module ForeignFrees {
  import opened Prelude
  import opened McoEngine
  import opened EngineInvariant
  import opened Refinement
  import opened ThreadIsolation
  import Spec = PrivateStacks

  /** When thread tid frees a coroutine of thread u that is not suspended there, u stays sound if and only if
      the coroutine is running or is not the recorded occupant of the buffer of u: McoFree clears only the
      occupant of the thread that calls it. */
  lemma ForeignFreeExact(w: World, owner: Id -> Tid, tid: Tid, id: Id)
    requires Disjoint(w, owner) && tid in w.threads && owner(id) in w.threads && owner(id) != tid
    requires var s := Seen(w, owner, owner(id));
      && Inv(s) && Spec.Wf(Abs(s)) && Spec.Legal(Abs(s), Free(id))
    ensures var x := Step1(w, tid, Free(id));
      owner(id) in x.threads && (Inv(Seen(x, owner, owner(id))) <==> !Occupies(w, owner(id), id))
  {
    var u := owner(id);
    var x := Step1(w, tid, Free(id));
    var s := Seen(w, owner, u);
    if Occupies(w, u, id) {
      assert Seen(x, owner, u).occupy == Some(id) && id !in Seen(x, owner, u).cos;
    } else {
      Step1Isolated(w, owner, (tid, Free(id)));
      StepRefines(s, Free(id));
      InvLog(Step(s, Free(id)), Seen(x, owner, u));
    }
  }

  lemma SwapOccupant(s: State, from: Id, to: Id)
    requires from in s.cos && to in s.cos && from != to
    ensures Swap(s, from, to).occupy == if s.cos[to].usePrivate then s.occupy else Some(to)
  {
  }

  lemma ResumeOccupies(s: State, id: Id)
    requires Inv(s) && id in s.cos && !s.cos[id].usePrivate && id !in s.callstack && !ResumeIgnored(s.cos[id])
    ensures McoResume(s, id).occupy == Some(id)
  {
    var t := MainMco(s);
    ResumeTransfers(s, id);
    MainMcoRefines(s);
    if |t.callstack| >= 2 {
      SinkIsBelowTop(t);
    }
    SwapOccupant(Push(t, id), Top(t), id);
  }

  /** A coroutine that main resumed is still the recorded occupant after it has finished. */
  lemma FinishKeepsOccupant(s: State, id: Id)
    requires Inv(s) && s.callstack == [s.main, id]
    ensures Step(s, Finish).occupy == s.occupy
  {
    SinkIsBelowTop(s);
    YieldTopReady(s, true);
    SwapOccupant(AfterUnwind(s, true), id, s.main);
  }

  /** The private machine makes a coroutine, runs it and lets it finish. */
  function Brief(id: Id): seq<Act> {
    [Create(id, false), Resume(id), Finish]
  }

  lemma BriefLegal(m: Spec.Machine, id: Id)
    requires Spec.Wf(m) && m.stack == [m.main] && id !in m.tasks
    ensures Spec.LegalRun(m, Brief(id)) && Spec.Legal(Spec.Run(m, Brief(id)), Free(id))
    ensures Spec.Run(m, Brief(id)).main == m.main && Spec.Run(m, Brief(id)).stack == [m.main]
    ensures Spec.LegalRun(m, Brief(id)[..2]) && Spec.Run(m, Brief(id)[..2]).stack == [m.main, id]
  {
    var m1 := Spec.WithFresh(m, id, false);
    var m2 := Spec.Pushed(m1, id);
    Spec.RunCons(m2, Finish, []);
    Spec.RunCons(m1, Resume(id), [Finish]);
    Spec.RunCons(m, Create(id, false), [Resume(id), Finish]);
    Spec.RunCons(m1, Resume(id), []);
    Spec.RunCons(m, Create(id, false), [Resume(id)]);
    assert Brief(id) == [Create(id, false)] + ([Resume(id)] + ([Finish] + []));
    assert Brief(id)[..2] == [Create(id, false)] + ([Resume(id)] + []);
    assert m2.stack == [m.main, id];
  }

  lemma RunCons(s: State, a: Act, acts: seq<Act>)
    ensures Run(s, [a] + acts) == Run(Step(s, a), acts)
  {
    assert ([a] + acts)[1..] == acts;
  }

  lemma BriefRun(s: State, id: Id)
    ensures var t := Step(Step(s, Create(id, false)), Resume(id));
      Run(s, Brief(id)[..2]) == t && Run(s, Brief(id)) == Step(t, Finish)
  {
    var s1 := Step(s, Create(id, false));
    RunCons(s1, Resume(id), []);
    RunCons(s, Create(id, false), [Resume(id)]);
    RunCons(Step(s1, Resume(id)), Finish, []);
    RunCons(s1, Resume(id), [Finish]);
    RunCons(s, Create(id, false), [Resume(id), Finish]);
    assert Brief(id) == [Create(id, false)] + ([Resume(id)] + ([Finish] + []));
    assert Brief(id)[..2] == [Create(id, false)] + ([Resume(id)] + []);
  }

  /** The engine while the coroutine runs. */
  lemma BriefOccupies(s: State, id: Id) returns (t: State)
    requires Inv(s) && Spec.Wf(Abs(s)) && s.callstack == [] && id != s.main && id !in s.cos
    ensures Inv(t) && t.callstack == [t.main, id] && t.occupy == Some(id)
    ensures Run(s, Brief(id)) == Step(t, Finish)
  {
    t := Run(s, Brief(id)[..2]);
    BriefLegal(Abs(s), id);
    BriefRun(s, id);
    RunRefines(s, Brief(id)[..2]);
    StepRefines(s, Create(id, false));
    ResumeOccupies(Step(s, Create(id, false)), id);
  }

  /** A coroutine that ran and finished is still the recorded occupant. */
  lemma FinishedOccupant(s: State, id: Id)
    requires Inv(s) && Spec.Wf(Abs(s)) && s.callstack == [] && id != s.main && id !in s.cos
    ensures Run(s, Brief(id)).occupy == Some(id)
  {
    var t := BriefOccupies(s, id);
    FinishKeepsOccupant(t, id);
  }

  lemma BriefActs(owner: Id -> Tid, tid: Tid, u: Tid, id: Id)
    requires owner(id) == u
    ensures ActsOf(owner, [(tid, Create(id, false)), (u, Resume(id)), (u, Finish)], u) == Brief(id)
  {
    var a, b, c := (tid, Create(id, false)), (u, Resume(id)), (u, Finish);
    assert [a, b, c][1..] == [b, c] && [b, c][1..] == [c] && [c][1..] == [];
    assert ActsOf(owner, [c], u) == [Finish];
    assert ActsOf(owner, [b, c], u) == [Resume(id), Finish];
  }

  /** A finished occupant that another thread frees. */
  lemma OccupantFreed(x: World, owner: Id -> Tid, tid: Tid, id: Id, m: Spec.Machine)
    requires Disjoint(x, owner) && tid in x.threads && owner(id) in x.threads && tid != owner(id)
    requires var s := Seen(x, owner, owner(id)); Inv(s) && Abs(s) == m && s.occupy == Some(id)
    requires Spec.Wf(m) && Spec.Legal(m, Free(id)) && m.stack == [m.main]
    ensures var y := Step1(x, tid, Free(id)); owner(id) in y.threads && !Inv(Seen(y, owner, owner(id)))
  {
    var s := Seen(x, owner, owner(id));
    assert m.tasks.Keys == Ids(s);
    RunningIffTop(s, id);
    ForeignFreeExact(x, owner, tid, id);
  }

  /** So a thread is broken by another one that drops the last reference to its finished coroutine: thread tid
      makes a coroutine for thread u, as an acceptor does; u runs it to its end; then tid frees it. */
  lemma ForeignFreeBreaks(w: World, owner: Id -> Tid, tid: Tid, u: Tid, id: Id) returns (x: World)
    requires Disjoint(w, owner) && tid in w.threads && u in w.threads && tid != u && owner(id) == u
    requires var s := Seen(w, owner, u);
      Inv(s) && Spec.Wf(Abs(s)) && s.callstack == [] && id != s.main && id !in s.cos
    ensures var schedule := [(tid, Create(id, false)), (u, Resume(id)), (u, Finish)];
      PermittedRun(w, owner, schedule) && x == RunWorld(w, owner, schedule)
    ensures tid in x.threads && u in x.threads && Inv(Seen(x, owner, u))
    ensures var y := Step1(x, tid, Free(id)); u in y.threads && !Inv(Seen(y, owner, u))
  {
    var s := Seen(w, owner, u);
    x := RunThree(w, owner, (tid, Create(id, false)), (u, Resume(id)), (u, Finish));
    BriefActs(owner, tid, u, id);
    BriefLegal(Abs(s), id);
    Isolated(w, owner, [(tid, Create(id, false)), (u, Resume(id)), (u, Finish)], u);
    IsolatedSound(w, owner, [(tid, Create(id, false)), (u, Resume(id)), (u, Finish)], u);
    FinishedOccupant(s, id);
    OccupantFreed(x, owner, tid, id, Spec.Run(Abs(s), Brief(id)));
  }

  lemma RunThree(w: World, owner: Id -> Tid, a: (Tid, Act), b: (Tid, Act), c: (Tid, Act)) returns (x: World)
    requires Disjoint(w, owner) && Permitted(w, owner, a) && !b.1.Free? && !c.1.Free?
    requires Permitted(w, owner, b) && Permitted(w, owner, c)
    ensures PermittedRun(w, owner, [a, b, c]) && x == RunWorld(w, owner, [a, b, c])
    ensures Disjoint(x, owner) && x.threads.Keys == w.threads.Keys
  {
    var w1 := OneStep(w, owner, a);
    PermittedStays(w, w1, owner, b);
    PermittedStays(w, w1, owner, c);
    var w2 := OneStep(w1, owner, b);
    PermittedStays(w1, w2, owner, c);
    x := OneStep(w2, owner, c);
    RunFirst(w2, owner, c, []);
    RunFirst(w1, owner, b, [c]);
    RunFirst(w, owner, a, [b, c]);
    assert [c] + [] == [c] && [b] + [c] == [b, c] && [a] + [b, c] == [a, b, c];
  }

  lemma OneStep(w: World, owner: Id -> Tid, e: (Tid, Act)) returns (x: World)
    requires Disjoint(w, owner) && Permitted(w, owner, e)
    ensures x == Step1(w, e.0, e.1) && Disjoint(x, owner) && x.threads.Keys == w.threads.Keys
  {
    x := Step1(w, e.0, e.1);
    Step1Isolated(w, owner, e);
  }

  lemma PermittedStays(w: World, x: World, owner: Id -> Tid, e: (Tid, Act))
    requires Permitted(w, owner, e) && !e.1.Free? && x.threads.Keys == w.threads.Keys
    ensures Permitted(x, owner, e)
  {
  }

  lemma RunFirst(w: World, owner: Id -> Tid, e: (Tid, Act), rest: seq<(Tid, Act)>)
    requires Permitted(w, owner, e) && PermittedRun(Step1(w, e.0, e.1), owner, rest)
    ensures PermittedRun(w, owner, [e] + rest)
    ensures RunWorld(w, owner, [e] + rest) == RunWorld(Step1(w, e.0, e.1), owner, rest)
  {
    assert ([e] + rest)[1..] == rest;
  }
}
