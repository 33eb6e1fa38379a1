/** The history of copies out of and back into the shared buffer: how the copies of every coroutine
    alternate, how they add up, and that a finished coroutine takes no part in them. */
module Copies {
  import opened Prelude
  import opened McoEngine
  import opened EngineInvariant
  import opened Refinement
  import opened Evictions
  import Spec = PrivateStacks

  function After(pending: set<Id>, e: Copy): set<Id> {
    match e
    case Occupied(_) => pending
    case Stored(id) => pending + {id}
    case Recovered(id) => pending - {id}
    case Dropped(id) => pending - {id}
  }

  /** The coroutines whose bytes are stored after the copies in log. */
  function Pending(log: seq<Copy>): set<Id> {
    if log == [] then {} else After(Pending(log[..|log| - 1]), log[|log| - 1])
  }

  /** e may follow log: nobody is stored twice without being recovered or dropped in between, only
      stored bytes are recovered or dropped, and a store is part of a change of the occupant. */
  predicate InOrder(log: seq<Copy>, e: Copy) {
    && (e.Stored? ==> e.id !in Pending(log) && log != [] && log[|log| - 1].Occupied?)
    && (e.Recovered? || e.Dropped? ==> e.id in Pending(log))
  }

  predicate Alternates(log: seq<Copy>) {
    log == [] || (Alternates(log[..|log| - 1]) && InOrder(log[..|log| - 1], log[|log| - 1]))
  }

  datatype Tally = Tally(moves: nat, stores: nat, recoveries: nat, drops: nat)

  function Count(log: seq<Copy>): Tally {
    if log == [] then Tally(0, 0, 0, 0)
    else
      var t := Count(log[..|log| - 1]);
      match log[|log| - 1]
      case Occupied(_) => t.(moves := t.moves + 1)
      case Stored(_) => t.(stores := t.stores + 1)
      case Recovered(_) => t.(recoveries := t.recoveries + 1)
      case Dropped(_) => t.(drops := t.drops + 1)
  }

  /** Conservation: what was stored was recovered, or was dropped, or is still stored; and stores do
      not outnumber the changes of the occupant. */
  lemma {:induction false} Conserved(log: seq<Copy>)
    requires Alternates(log)
    ensures var t := Count(log);
      && t.stores == t.recoveries + t.drops + |Pending(log)|
      && t.stores <= t.moves
      && (log != [] && log[|log| - 1].Occupied? ==> t.stores < t.moves)
  {
    if log != [] {
      Conserved(log[..|log| - 1]);
    }
  }

  function StoredIds(s: State): set<Id> {
    set id | id in s.cos && s.cos[id].stackStore
  }

  /** The history is in order and agrees with the flags. */
  predicate LogOk(s: State) {
    Alternates(s.log) && Pending(s.log) == StoredIds(s)
  }

  lemma Extends(log: seq<Copy>, e: Copy)
    ensures Pending(log + [e]) == After(Pending(log), e)
    ensures Alternates(log + [e]) <==> Alternates(log) && InOrder(log, e)
  {
  }

  lemma LogFrame(s: State, t: State)
    requires LogOk(s) && t.log == s.log && t.cos.Keys == s.cos.Keys
    requires forall id | id in s.cos :: t.cos[id].stackStore == s.cos[id].stackStore
    ensures LogOk(t)
  {
  }

  lemma ClaimKeepsLog(s: State, to: Id)
    requires to in s.cos && CopyInv(s, None) && LogOk(s) && FinishedFlags(s)
    ensures LogOk(Claim(s, to))
  {
    var t := Claim(s, to);
    if !s.cos[to].usePrivate && s.occupy != Some(to) {
      Extends(s.log, Occupied(to));
      if Evicts(s, to) {
        var o := s.occupy.value;
        assert StoredIffEvicted(s, None, o);
        Extends(s.log + [Occupied(to)], Stored(o));
        assert StoredIds(t) == StoredIds(s) + {o};
      } else {
        assert StoredIds(t) == StoredIds(s);
      }
    } else {
      LogFrame(s, t);
    }
  }

  lemma ArriveKeepsLog(s: State, to: Id)
    requires to in s.cos && LogOk(s)
    ensures LogOk(Arrive(s, to))
  {
  }

  lemma SwapKeepsLog(s: State, from: Id, to: Id)
    requires SwapReady(s, from, to) && CopyInv(s, Some(from)) && LogOk(s)
    ensures LogOk(Swap(s, from, to))
  {
    var p := Park(s, from);
    SwapReadyFlags(s, from, to);
    ParkFrame(s, from);
    ParkKeepsBytes(s, from);
    LogFrame(s, p);
    ClaimKeepsLog(p, to);
    ClaimFrame(p, to);
    ArriveKeepsLog(Claim(p, to), to);
  }

  lemma MainMcoKeepsLog(s: State)
    requires Inv(s) && LogOk(s)
    ensures LogOk(MainMco(s))
  {
  }

  lemma PushKeepsLog(s: State, id: Id)
    requires Inv(s) && LogOk(s)
    requires s.callstack != [] && id in s.cos && !ResumeIgnored(s.cos[id]) && id !in s.callstack
    ensures LogOk(Swap(Push(s, id), Top(s), id))
  {
    PushReady(s, id);
    PushControl(s, id);
    LogFrame(s, Push(s, id));
    SwapKeepsLog(Push(s, id), Top(s), id);
  }

  lemma UnwindKeepsLog(s: State, over: bool)
    requires Inv(s) && LogOk(s) && |s.callstack| >= 2
    ensures s.cos[Top(s)].sink == Some(Below(s)) && Below(s) in s.cos
    ensures LogOk(Swap(AfterUnwind(s, over), Top(s), Below(s)))
  {
    SinkIsBelowTop(s);
    UnwindShape(s, over);
    UnwindReady(s, over);
    UnwindControl(s, over);
    LogFrame(s, AfterUnwind(s, over));
    SwapKeepsLog(AfterUnwind(s, over), Top(s), Below(s));
  }

  lemma ResumeKeepsLog(s: State, id: Id)
    requires Inv(s) && LogOk(s) && id in s.cos && !Spec.DeepAncestor(s.callstack, id)
    ensures LogOk(McoResume(s, id))
  {
    if !ResumeIgnored(s.cos[id]) {
      var t := MainMco(s);
      ResumeTransfers(s, id);
      MainMcoRefines(s);
      MainMcoKeepsLog(s);
      ResumeCases(s, id);
      if t.cos[Top(t)].sink == Some(id) {
        UnwindKeepsLog(t, false);
      } else {
        assert id !in t.callstack by {
          if |t.callstack| >= 2 {
            SinkIsBelowTop(t);
          }
        }
        PushKeepsLog(t, id);
      }
    }
  }

  lemma YieldKeepsLog(s: State, id: Id)
    requires Inv(s) && LogOk(s) && id in s.cos && (id == s.main ==> Exec(s) != Some(s.main))
    ensures LogOk(McoYield(s, id))
  {
    if !YieldIgnored(s.cos[id]) {
      RunningIsTop(s, id);
      YieldTopReady(s, false);
      UnwindKeepsLog(s, false);
    }
  }

  lemma FreeKeepsLog(s: State, id: Id)
    requires Inv(s) && LogOk(s) && id in s.cos
    ensures LogOk(McoFree(s, id))
  {
  }

  lemma CreateKeepsLog(s: State, id: Id, usePrivate: bool)
    requires LogOk(s) && id !in s.cos
    ensures LogOk(s.(cos := s.cos[id := NewCo(usePrivate)]))
  {
  }

  lemma WorkKeepsLog(s: State, live: Bytes, scribble: Bytes)
    requires LogOk(s)
    ensures LogOk(Compute(s, live, scribble))
  {
  }

  lemma FinishKeepsLog(s: State)
    requires Inv(s) && LogOk(s) && |s.callstack| >= 2
    ensures Top(s) in s.cos && LogOk(CoroutineReturn(s))
  {
    YieldTopReady(s, true);
    UnwindKeepsLog(s, true);
  }

  lemma StepKeepsLog(s: State, a: Act)
    requires Inv(s) && LogOk(s) && Spec.Wf(Abs(s)) && Spec.Legal(Abs(s), a)
    ensures LogOk(Step(s, a))
  {
    AbsWf(s);
    match a {
      case Create(id, usePrivate) => CreateKeepsLog(s, id, usePrivate);
      case Work(live, scribble) => WorkKeepsLog(s, live, scribble);
      case Resume(id) => if id in s.cos { ResumeKeepsLog(s, id); }
      case Yield(id) => if id in s.cos { YieldKeepsLog(s, id); }
      case Finish => FinishKeepsLog(s);
      case Free(id) => FreeKeepsLog(s, id);
    }
  }

  lemma {:induction false} RunKeepsLog(s: State, acts: seq<Act>)
    requires Inv(s) && LogOk(s) && Spec.Wf(Abs(s)) && Spec.LegalRun(Abs(s), acts)
    ensures LogOk(Run(s, acts))
    decreases |acts|
  {
    if acts != [] {
      StepKeepsLog(s, acts[0]);
      StepRefines(s, acts[0]);
      AbsWf(Step(s, acts[0]));
      RunKeepsLog(Step(s, acts[0]), acts[1..]);
    }
  }

  lemma {:induction false} CountAppend(log: seq<Copy>, more: seq<Copy>)
    ensures var a := Count(log); var b := Count(more);
      Count(log + more) == Tally(a.moves + b.moves, a.stores + b.stores, a.recoveries + b.recoveries, a.drops + b.drops)
  {
    if more == [] {
      assert log + more == log;
    } else {
      var rest, e := more[..|more| - 1], more[|more| - 1];
      assert (log + more)[..|log + more| - 1] == log + rest;
      CountAppend(log, rest);
    }
  }

  lemma NeededMoves(s: State, t: State)
    ensures Count(Needed(s, t)).moves == if Moved(s, t) then 1 else 0
  {
    CountAppend(CopiedOut(s, t), CopiedBack(s, t));
    if Moved(s, t) {
      CountAppend([Occupied(t.occupy.value)], CopiedOut(s, t)[1..]);
      assert CopiedOut(s, t) == [Occupied(t.occupy.value)] + CopiedOut(s, t)[1..];
    }
  }

  lemma GrownMoves(s: State, t: State)
    requires Grows(s, t)
    ensures Count(t.log).moves == Count(s.log).moves + if Moved(s, t) then 1 else 0
  {
    if t.log == s.log + Needed(s, t) {
      CountAppend(s.log, Needed(s, t));
      NeededMoves(s, t);
    } else if t.log != s.log {
      var id :| t.log == s.log + [Dropped(id)];
      CountAppend(s.log, [Dropped(id)]);
    }
  }

  lemma StepMoves(s: State, a: Act)
    requires Inv(s) && Spec.Wf(Abs(s)) && Spec.Legal(Abs(s), a)
    ensures Count(Step(s, a).log).moves == Count(s.log).moves + if Moved(s, Step(s, a)) then 1 else 0
  {
    StepCopies(s, a);
    GrowsByNeeded(s, a, Step(s, a));
    GrownMoves(s, Step(s, a));
  }

  /** The moves that the history records are those that happened. */
  lemma {:induction false} RunMoves(s: State, acts: seq<Act>)
    requires Inv(s) && Spec.Wf(Abs(s)) && Spec.LegalRun(Abs(s), acts)
    ensures Count(Run(s, acts).log).moves == Count(s.log).moves + Moves(s, acts)
    decreases |acts|
  {
    if acts != [] {
      StepMoves(s, acts[0]);
      StepRefines(s, acts[0]);
      AbsWf(Step(s, acts[0]));
      RunMoves(Step(s, acts[0]), acts[1..]);
    }
  }

  /** Over every legal run: stores and recoveries alternate, every store is accounted for, and there are no
      more of them than times the buffer went to another coroutine. */
  lemma CopiesConserved(main: Id, buffer: Bytes, threadStack: Bytes, acts: seq<Act>)
    requires Spec.LegalRun(Spec.Init(main, |buffer|, threadStack), acts)
    ensures var s := Run(Init(main, buffer, threadStack), acts); var t := Count(s.log);
      && Alternates(s.log)
      && t.stores == t.recoveries + t.drops + |StoredIds(s)|
      && t.stores <= t.moves == Moves(Init(main, buffer, threadStack), acts)
  {
    var s := Init(main, buffer, threadStack);
    InitRefines(main, buffer, threadStack);
    RunKeepsLog(s, acts);
    RunMoves(s, acts);
    Conserved(Run(s, acts).log);
  }
}
