/** Several threads run coroutines of one heap; each has a call stack, an occupant and a buffer of its
    own, found by its thread id. */
module ThreadIsolation {
  import opened Prelude
  import opened McoEngine
  import opened EngineInvariant
  import opened Refinement
  import Spec = PrivateStacks

  type Tid = int

  /** tools/PoolInThreads.hpp: one item per thread id, made when first asked for. */
  class PoolInThreads<T> {
    var pools: map<Tid, T>

    constructor ()
      ensures pools == map[]
    {
      pools := map[];
    }

    /** make stands for new T(). */
    method GetT(tid: Tid, make: T) returns (item: T)
      modifies this
      ensures tid in pools && item == pools[tid]
      ensures pools == if tid in old(pools) then old(pools) else old(pools)[tid := make]
    {
      if tid in pools {
        return pools[tid];
      }
      item := make;
      pools := pools[tid := item];
    }
  }

  /** The heap of coroutines and the per-thread part of the engine. A thread's State with all
      coroutines of the heap is what the code of that thread operates on. */
  datatype World = World(cos: map<Id, Co>, threads: map<Tid, State>)

  function Step1(w: World, tid: Tid, a: Act): World
    requires tid in w.threads
  {
    var s := Step(w.threads[tid].(cos := w.cos), a);
    World(s.cos, w.threads[tid := s.(cos := map[])])
  }

  /** Who an act is done to: a coroutine may be made for, or freed on behalf of, another thread. */
  function Actor(owner: Id -> Tid, e: (Tid, Act)): Tid {
    if e.1.Create? || e.1.Free? then owner(e.1.id) else e.0
  }

  /** What is done to thread tid. */
  function ActsOf(owner: Id -> Tid, schedule: seq<(Tid, Act)>, tid: Tid): seq<Act>
    decreases |schedule|
  {
    if schedule == [] then []
    else (if Actor(owner, schedule[0]) == tid then [schedule[0].1] else []) + ActsOf(owner, schedule[1..], tid)
  }

  /** id is not running, and is the recorded occupant of the buffer of thread u. */
  predicate Occupies(w: World, u: Tid, id: Id)
    requires u in w.threads
  {
    id in w.cos && !w.cos[id].running && w.threads[u].occupy == Some(id)
  }

  /** Threads resume and yield only their own coroutines. They may make coroutines for each other, and drop the
      last reference to a coroutine of another thread unless it is the recorded occupant there. */
  predicate Permitted(w: World, owner: Id -> Tid, e: (Tid, Act)) {
    && e.0 in w.threads && Actor(owner, e) in w.threads
    && match e.1
       case Resume(id) => owner(id) == e.0
       case Yield(id) => owner(id) == e.0
       case Free(id) => owner(id) == e.0 || !Occupies(w, owner(id), id)
       case _ => true
  }

  predicate PermittedRun(w: World, owner: Id -> Tid, schedule: seq<(Tid, Act)>)
    decreases |schedule|
  {
    schedule == [] ||
    (Permitted(w, owner, schedule[0])
     && PermittedRun(Step1(w, schedule[0].0, schedule[0].1), owner, schedule[1..]))
  }

  function RunWorld(w: World, owner: Id -> Tid, schedule: seq<(Tid, Act)>): World
    requires PermittedRun(w, owner, schedule)
    decreases |schedule|
  {
    if schedule == [] then w
    else RunWorld(Step1(w, schedule[0].0, schedule[0].1), owner, schedule[1..])
  }

  function Restrict<V>(m: map<Id, V>, own: iset<Id>): map<Id, V> {
    map id | id in m && id in own :: m[id]
  }

  /** s without the coroutines that other threads own. */
  function Own(s: State, own: iset<Id>): State {
    s.(cos := Restrict(s.cos, own))
  }

  lemma RestrictUpdate<V>(m: map<Id, V>, own: iset<Id>, id: Id, v: V)
    ensures id in own ==> Restrict(m[id := v], own) == Restrict(m, own)[id := v]
    ensures id in own ==> Restrict(m - {id}, own) == Restrict(m, own) - {id}
    ensures id in own && id in m ==> id in Restrict(m, own) && Restrict(m, own)[id] == m[id]
  {
  }

  /** Everything the thread's part of the engine refers to is the thread's own. */
  predicate Closed(s: State, own: iset<Id>) {
    && s.main in own
    && (forall i | 0 <= i < |s.callstack| :: s.callstack[i] in own)
    && (s.occupy.Some? ==> s.occupy.value in own)
    && (forall id | id in s.cos && id in own && s.cos[id].sink.Some? :: s.cos[id].sink.value in own)
  }

  /** From s to t nothing changed outside own. */
  ghost predicate Foreign(s: State, t: State, own: iset<Id>) {
    forall id | id !in own :: (id in s.cos <==> id in t.cos) && (id in s.cos ==> t.cos[id] == s.cos[id])
  }

  lemma ParkLocal(s: State, from: Id, own: iset<Id>)
    requires from in s.cos && from in own && Closed(s, own)
    ensures Own(Park(s, from), own) == Park(Own(s, own), from) && Closed(Park(s, from), own)
    ensures Foreign(s, Park(s, from), own)
  {
  }

  lemma ClaimLocal(s: State, to: Id, own: iset<Id>)
    requires to in s.cos && to in own && Closed(s, own)
    ensures to in Own(s, own).cos
    ensures Own(Claim(s, to), own) == Claim(Own(s, own), to) && Closed(Claim(s, to), own)
    ensures Foreign(s, Claim(s, to), own)
  {
    if !s.cos[to].usePrivate && Evicts(s, to) {
      var o := s.occupy.value;
      RestrictUpdate(s.cos, own, o, Claim(s, to).cos[o]);
    }
  }

  lemma ArriveLocal(s: State, to: Id, own: iset<Id>)
    requires to in s.cos && to in own && Closed(s, own)
    ensures to in Own(s, own).cos
    ensures Own(Arrive(s, to), own) == Arrive(Own(s, own), to) && Closed(Arrive(s, to), own)
    ensures Foreign(s, Arrive(s, to), own)
  {
    if s.callstack != [] && Top(s) in s.cos {
      RestrictUpdate(s.cos, own, Top(s), s.cos[Top(s)].(stackStore := false));
    }
  }

  lemma SwapLocal(s: State, from: Id, to: Id, own: iset<Id>)
    requires from in s.cos && to in s.cos && from in own && to in own && Closed(s, own)
    ensures from in Own(s, own).cos && to in Own(s, own).cos
    ensures Own(Swap(s, from, to), own) == Swap(Own(s, own), from, to) && Closed(Swap(s, from, to), own)
    ensures Foreign(s, Swap(s, from, to), own)
  {
    var p := Park(s, from);
    ParkLocal(s, from, own);
    ClaimLocal(p, to, own);
    ArriveLocal(Claim(p, to), to, own);
  }

  lemma MainMcoLocal(s: State, own: iset<Id>)
    requires Closed(s, own)
    ensures Own(MainMco(s), own) == MainMco(Own(s, own)) && Closed(MainMco(s), own)
    ensures Foreign(s, MainMco(s), own)
  {
  }

  lemma PushLocal(s: State, id: Id, own: iset<Id>)
    requires id in s.cos && id in own && s.callstack != [] && Top(s) in s.cos && Closed(s, own)
    ensures var o := Own(s, own);
      id in o.cos && Top(o) in o.cos && Own(Push(s, id), own) == Push(o, id)
    ensures Closed(Push(s, id), own) && Foreign(s, Push(s, id), own)
  {
    var c := Begun(s.cos[id], Top(s));
    var s1 := s.(cos := s.cos[id := c]);
    RestrictUpdate(s.cos, own, id, c);
    RestrictUpdate(s1.cos, own, Top(s), s1.cos[Top(s)].(running := false));
  }

  lemma UnwindLocal(s: State, id: Id, own: iset<Id>)
    requires id in s.cos && id in own && Closed(s, own)
    requires s.cos[id].sink.Some? && s.cos[id].sink.value in s.cos
    ensures var o := Own(s, own);
      id in o.cos && o.cos[id].sink.value in o.cos && Own(Unwind(s, id), own) == Unwind(o, id)
    ensures Closed(Unwind(s, id), own) && Foreign(s, Unwind(s, id), own)
  {
    var c := Ended(s.cos[id]);
    var s1 := s.(cos := s.cos[id := c]);
    var sink := s.cos[id].sink.value;
    RestrictUpdate(s.cos, own, id, c);
    RestrictUpdate(s1.cos, own, sink, s1.cos[sink].(running := true));
  }

  lemma YieldLocal(s: State, id: Id, own: iset<Id>)
    requires id in s.cos && id in own && Closed(s, own)
    ensures id in Own(s, own).cos && Own(McoYield(s, id), own) == McoYield(Own(s, own), id)
    ensures Closed(McoYield(s, id), own) && Foreign(s, McoYield(s, id), own)
  {
    if !YieldIgnored(s.cos[id]) && s.cos[id].sink.Some? && s.cos[id].sink.value in s.cos {
      UnwindLocal(s, id, own);
      SwapLocal(Unwind(s, id), id, s.cos[id].sink.value, own);
    }
  }

  lemma ResumeLocal(s: State, id: Id, own: iset<Id>)
    requires id in s.cos && id in own && Closed(s, own)
    ensures id in Own(s, own).cos && Own(McoResume(s, id), own) == McoResume(Own(s, own), id)
    ensures Closed(McoResume(s, id), own) && Foreign(s, McoResume(s, id), own)
  {
    if !ResumeIgnored(s.cos[id]) {
      var t := MainMco(s);
      MainMcoLocal(s, own);
      if Top(t) in t.cos {
        if t.cos[Top(t)].sink != Some(id) {
          PushLocal(t, id, own);
          SwapLocal(Push(t, id), Top(t), id, own);
        } else {
          YieldLocal(t, Top(t), own);
        }
      }
    }
  }

  /** The coroutine an act names. */
  predicate Names(a: Act, own: iset<Id>) {
    match a
    case Create(id, _) => id in own
    case Resume(id) => id in own
    case Yield(id) => id in own
    case Free(id) => id in own
    case _ => true
  }

  lemma CreateLocal(s: State, id: Id, usePrivate: bool, own: iset<Id>)
    requires id in own && Closed(s, own)
    ensures var a := Create(id, usePrivate);
      Own(Step(s, a), own) == Step(Own(s, own), a) && Closed(Step(s, a), own) && Foreign(s, Step(s, a), own)
  {
    RestrictUpdate(s.cos, own, id, NewCo(usePrivate));
  }

  lemma ComputeLocal(s: State, live: Bytes, scribble: Bytes, own: iset<Id>)
    requires Closed(s, own)
    ensures Own(Compute(s, live, scribble), own) == Compute(Own(s, own), live, scribble)
    ensures Closed(Compute(s, live, scribble), own) && Foreign(s, Compute(s, live, scribble), own)
  {
  }

  lemma FreeLocal(s: State, id: Id, own: iset<Id>)
    requires id in s.cos && id in own && Closed(s, own)
    ensures id in Own(s, own).cos && Own(McoFree(s, id), own) == McoFree(Own(s, own), id)
    ensures Closed(McoFree(s, id), own) && Foreign(s, McoFree(s, id), own)
  {
    RestrictUpdate(s.cos, own, id, s.cos[id].(shouldClose := true));
  }

  lemma FinishLocal(s: State, own: iset<Id>)
    requires s.callstack != [] && Top(s) in s.cos && Closed(s, own)
    ensures Top(s) in Own(s, own).cos && Own(CoroutineReturn(s), own) == CoroutineReturn(Own(s, own))
    ensures Closed(CoroutineReturn(s), own) && Foreign(s, CoroutineReturn(s), own)
  {
    var c := s.cos[Top(s)].(done := true);
    RestrictUpdate(s.cos, own, Top(s), c);
    YieldLocal(s.(cos := s.cos[Top(s) := c]), Top(s), own);
  }

  /** What an act does to a thread's own coroutines depends only on them, and it touches no others. */
  lemma StepLocal(s: State, a: Act, own: iset<Id>)
    requires Closed(s, own) && Names(a, own)
    ensures Own(Step(s, a), own) == Step(Own(s, own), a)
    ensures Closed(Step(s, a), own) && Foreign(s, Step(s, a), own)
  {
    match a {
      case Create(id, usePrivate) => CreateLocal(s, id, usePrivate, own);
      case Work(live, scribble) => ComputeLocal(s, live, scribble, own);
      case Resume(id) => if id in s.cos { ResumeLocal(s, id, own); }
      case Yield(id) => if id in s.cos { YieldLocal(s, id, own); }
      case Finish => if s.callstack != [] && Top(s) in s.cos { FinishLocal(s, own); }
      case Free(id) => if id in s.cos { FreeLocal(s, id, own); }
    }
  }

  // ---- the history of copies is only a record ----

  predicate SameButLog(s: State, t: State) {
    t == s.(log := t.log)
  }

  lemma ClaimLog(s: State, t: State, to: Id)
    requires SameButLog(s, t) && to in s.cos
    ensures SameButLog(Claim(s, to), Claim(t, to))
  {
  }

  lemma SwapLog(s: State, t: State, from: Id, to: Id)
    requires SameButLog(s, t) && from in s.cos && to in s.cos
    ensures SameButLog(Swap(s, from, to), Swap(t, from, to))
  {
    ClaimLog(Park(s, from), Park(t, from), to);
  }

  lemma YieldLog(s: State, t: State, id: Id)
    requires SameButLog(s, t) && id in s.cos
    ensures SameButLog(McoYield(s, id), McoYield(t, id))
  {
    if !YieldIgnored(s.cos[id]) && s.cos[id].sink.Some? && s.cos[id].sink.value in s.cos {
      SwapLog(Unwind(s, id), Unwind(t, id), id, s.cos[id].sink.value);
    }
  }

  lemma ResumeLog(s: State, t: State, id: Id)
    requires SameButLog(s, t) && id in s.cos
    ensures SameButLog(McoResume(s, id), McoResume(t, id))
  {
    var p, q := MainMco(s), MainMco(t);
    if !ResumeIgnored(s.cos[id]) && Top(p) in p.cos {
      if p.cos[Top(p)].sink != Some(id) {
        SwapLog(Push(p, id), Push(q, id), Top(p), id);
      } else {
        YieldLog(p, q, Top(p));
      }
    }
  }

  lemma StepLog(s: State, t: State, a: Act)
    requires SameButLog(s, t)
    ensures SameButLog(Step(s, a), Step(t, a))
  {
    match a {
      case Resume(id) => if id in s.cos { ResumeLog(s, t, id); }
      case Yield(id) => if id in s.cos { YieldLog(s, t, id); }
      case Finish =>
        if s.callstack != [] && Top(s) in s.cos {
          var c := s.cos[Top(s)].(done := true);
          YieldLog(s.(cos := s.cos[Top(s) := c]), t.(cos := t.cos[Top(s) := c]), Top(s));
        }
      case _ =>
    }
  }

  lemma {:induction false} RunLog(s: State, t: State, acts: seq<Act>)
    requires SameButLog(s, t)
    ensures SameButLog(Run(s, acts), Run(t, acts))
    decreases |acts|
  {
    if acts != [] {
      StepLog(s, t, acts[0]);
      RunLog(Step(s, acts[0]), Step(t, acts[0]), acts[1..]);
    }
  }

  lemma InvLog(s: State, t: State)
    requires SameButLog(s, t)
    ensures Inv(s) <==> Inv(t)
    ensures Abs(s) == Abs(t)
  {
    if Inv(s) { InvSame(s, t); }
    if Inv(t) { InvSame(t, s); }
    AbsSame(s, t);
  }

  lemma InvSame(s: State, t: State)
    requires SameButLog(s, t) && Inv(s)
    ensures Inv(t)
  {
  }

  lemma AbsSame(s: State, t: State)
    requires SameButLog(s, t)
    ensures Abs(s) == Abs(t)
  {
    assert forall id :: TaskOf(s, Exec(s), id) == TaskOf(t, Exec(t), id);
  }

  // ---- threads side by side ----

  ghost function OwnedBy(owner: Id -> Tid, tid: Tid): iset<Id> {
    iset id: Id | owner(id) == tid
  }

  function Whole(w: World, tid: Tid): State
    requires tid in w.threads
  {
    w.threads[tid].(cos := w.cos)
  }

  /** The world as thread tid sees it: its own part of the engine and its own coroutines. */
  ghost function Seen(w: World, owner: Id -> Tid, tid: Tid): State
    requires tid in w.threads
  {
    Own(Whole(w, tid), OwnedBy(owner, tid))
  }

  ghost predicate Disjoint(w: World, owner: Id -> Tid) {
    forall tid | tid in w.threads :: Closed(Whole(w, tid), OwnedBy(owner, tid))
  }

  /** An act has on the thread it is done to the effect that it would have if that thread did it itself. */
  lemma ActorSteps(w: World, owner: Id -> Tid, e: (Tid, Act))
    requires Disjoint(w, owner) && Permitted(w, owner, e)
    ensures var u := Actor(owner, e); var x := Step1(w, e.0, e.1);
      u in x.threads && SameButLog(Step(Whole(w, u), e.1), Whole(x, u))
  {
  }

  lemma OtherUnseen(w: World, x: World, owner: Id -> Tid, u: Tid, v: Tid)
    requires u in w.threads && v in w.threads && v in x.threads && u != v
    requires SameButLog(w.threads[v].(cos := map[]), x.threads[v].(cos := map[]))
    requires u in x.threads && Foreign(Whole(w, u), Whole(x, u), OwnedBy(owner, u))
    requires Closed(Whole(w, v), OwnedBy(owner, v))
    ensures SameButLog(Seen(w, owner, v), Seen(x, owner, v)) && Closed(Whole(x, v), OwnedBy(owner, v))
  {
    assert forall id | id in OwnedBy(owner, v) :: id !in OwnedBy(owner, u);
    assert Restrict(x.cos, OwnedBy(owner, v)) == Restrict(w.cos, OwnedBy(owner, v));
  }

  /** What a thread does changes the part of no other. */
  lemma PartStays(w: World, owner: Id -> Tid, e: (Tid, Act), v: Tid)
    requires Disjoint(w, owner) && Permitted(w, owner, e) && v in w.threads && v != Actor(owner, e)
    ensures var x := Step1(w, e.0, e.1);
      v in x.threads && SameButLog(w.threads[v].(cos := map[]), x.threads[v].(cos := map[]))
  {
  }

  /** One entry of a schedule: the thread it is done to makes the step, the others see nothing of it. */
  lemma Step1Isolated(w: World, owner: Id -> Tid, e: (Tid, Act))
    requires Disjoint(w, owner) && Permitted(w, owner, e)
    ensures var u := Actor(owner, e); var x := Step1(w, e.0, e.1);
      && Disjoint(x, owner) && x.threads.Keys == w.threads.Keys
      && SameButLog(Step(Seen(w, owner, u), e.1), Seen(x, owner, u))
      && forall v | v in w.threads && v != u :: SameButLog(Seen(w, owner, v), Seen(x, owner, v))
  {
    var u := Actor(owner, e);
    var x := Step1(w, e.0, e.1);
    ActorSteps(w, owner, e);
    StepLocal(Whole(w, u), e.1, OwnedBy(owner, u));
    forall v | v in w.threads && v != u
      ensures SameButLog(Seen(w, owner, v), Seen(x, owner, v)) && Closed(Whole(x, v), OwnedBy(owner, v))
    {
      PartStays(w, owner, e, v);
      OtherUnseen(w, x, owner, u, v);
    }
  }

  /** The acts of thread tid when e comes first. */
  lemma ActsOfSplit(owner: Id -> Tid, schedule: seq<(Tid, Act)>, tid: Tid)
    requires schedule != []
    ensures var rest := ActsOf(owner, schedule[1..], tid); var acts := ActsOf(owner, schedule, tid);
      if Actor(owner, schedule[0]) == tid then acts != [] && acts[0] == schedule[0].1 && acts[1..] == rest
      else acts == rest
  {
  }

  /** Under any interleaving every thread's engine and coroutines go through exactly the run that is made
      of what is done to that thread, but for where copies are recorded. */
  lemma {:induction false} Isolated(w: World, owner: Id -> Tid, schedule: seq<(Tid, Act)>, tid: Tid)
    requires Disjoint(w, owner) && PermittedRun(w, owner, schedule) && tid in w.threads
    ensures tid in RunWorld(w, owner, schedule).threads
    ensures SameButLog(Run(Seen(w, owner, tid), ActsOf(owner, schedule, tid)),
                       Seen(RunWorld(w, owner, schedule), owner, tid))
    decreases |schedule|
  {
    if schedule != [] {
      var e := schedule[0];
      var x := Step1(w, e.0, e.1);
      var rest := ActsOf(owner, schedule[1..], tid);
      Step1Isolated(w, owner, e);
      Isolated(x, owner, schedule[1..], tid);
      ActsOfSplit(owner, schedule, tid);
      if Actor(owner, e) == tid {
        RunLog(Step(Seen(w, owner, tid), e.1), Seen(x, owner, tid), rest);
      } else {
        RunLog(Seen(w, owner, tid), Seen(x, owner, tid), rest);
      }
    }
  }

  /** So a thread stays sound if what is done to it keeps the rules, whatever the other threads do. */
  lemma IsolatedSound(w: World, owner: Id -> Tid, schedule: seq<(Tid, Act)>, tid: Tid)
    requires Disjoint(w, owner) && PermittedRun(w, owner, schedule) && tid in w.threads
    requires Inv(Seen(w, owner, tid)) && Spec.Wf(Abs(Seen(w, owner, tid)))
    requires Spec.LegalRun(Abs(Seen(w, owner, tid)), ActsOf(owner, schedule, tid))
    ensures tid in RunWorld(w, owner, schedule).threads
    ensures var s := Seen(RunWorld(w, owner, schedule), owner, tid);
      Inv(s) && Abs(s) == Spec.Run(Abs(Seen(w, owner, tid)), ActsOf(owner, schedule, tid))
  {
    var acts := ActsOf(owner, schedule, tid);
    Isolated(w, owner, schedule, tid);
    RunRefines(Seen(w, owner, tid), acts);
    InvLog(Run(Seen(w, owner, tid), acts), Seen(RunWorld(w, owner, schedule), owner, tid));
  }
}
