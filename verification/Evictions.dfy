/** When bytes are copied: read off the states before and after an act, not off the recorded history. */
module Evictions {
  import opened Prelude
  import opened McoEngine
  import opened EngineInvariant
  import opened Refinement
  import Spec = PrivateStacks

  /** From s to t the buffer went to another coroutine. */
  predicate Moved(s: State, t: State) {
    t.occupy.Some? && t.occupy != s.occupy
  }

  /** From s to t the unfinished coroutine x lost the buffer to another one. */
  predicate Evicted(s: State, t: State, x: Id) {
    Moved(s, t) && s.occupy == Some(x) && x in t.cos && !Over(t.cos[x])
  }

  /** From s to t the coroutine x, whose bytes were stored, got the buffer. */
  predicate Restored(s: State, t: State, x: Id) {
    Moved(s, t) && t.occupy == Some(x) && x in s.cos && s.cos[x].stackStore
  }

  /** The buffer is taken: the bytes of the old occupant have to be copied out, unless it is over. */
  function CopiedOut(s: State, t: State): seq<Copy> {
    if !Moved(s, t) then []
    else [Occupied(t.occupy.value)]
         + if s.occupy.Some? && Evicted(s, t, s.occupy.value) then [Stored(s.occupy.value)] else []
  }

  /** It is given: those of the new occupant have to come back, if they were stored. */
  function CopiedBack(s: State, t: State): seq<Copy> {
    if t.occupy.Some? && Restored(s, t, t.occupy.value) then [Recovered(t.occupy.value)] else []
  }

  /** What has to be copied from s to t: nothing as long as the buffer stays with its occupant. */
  function Needed(s: State, t: State): seq<Copy> {
    CopiedOut(s, t) + CopiedBack(s, t)
  }

  /** The copy of x is the same in s and t. */
  predicate SameCopy(s: State, t: State, x: Id)
    requires x in s.cos && x in t.cos
  {
    t.cos[x].tmp == s.cos[x].tmp && t.cos[x].restoreSize == s.cos[x].restoreSize
  }

  /** From s to t exactly what had to be copied was copied: copies of started coroutines are made only by
      an eviction, and the buffer is written only by a restoration. */
  predicate CopiesAsNeeded(s: State, t: State) {
    && (t.occupy == s.occupy || Moved(s, t))
    && t.log == s.log + Needed(s, t)
    && (forall x | x in s.cos && s.cos[x].start :: x in t.cos && (Evicted(s, t, x) || SameCopy(s, t, x)))
    && (t.buffer != s.buffer ==> t.occupy.Some? && Restored(s, t, t.occupy.value))
  }

  lemma ClaimCopies(s: State, to: Id)
    requires to in s.cos && OccupantOk(s, None)
    ensures var t := Claim(s, to);
      && t.occupy == (if s.cos[to].usePrivate then s.occupy else Some(to))
      && t.buffer == s.buffer && t.cos.Keys == s.cos.Keys && t.cos[to] == s.cos[to]
      && t.log == s.log + CopiedOut(s, t)
      && forall x | x in s.cos :: Over(t.cos[x]) == Over(s.cos[x]) && (Evicted(s, t, x) || SameCopy(s, t, x))
  {
  }

  /** Control reaches to, on whose behalf the buffer was claimed: its bytes come back if they were stored. */
  lemma ArriveCopies(s: State, to: Id)
    requires to in s.cos && s.callstack != [] && Top(s) == to
    requires s.cos[to].stackStore ==> !s.cos[to].usePrivate && s.cos[to].parked
    ensures var t := Arrive(s, to);
      && t.occupy == s.occupy && t.cos.Keys == s.cos.Keys
      && t.log == s.log + (if s.cos[to].stackStore then [Recovered(to)] else [])
      && (t.buffer != s.buffer ==> s.cos[to].stackStore)
      && (forall x | x in s.cos :: SameCopy(s, t, x) && Over(t.cos[x]) == Over(s.cos[x]))
  {
  }

  /** Whose bytes are stored does not have the buffer. */
  lemma StoredArrives(s: State, from: Id, to: Id)
    requires SwapReady(s, from, to) && CopyInv(s, Some(from)) && s.cos[to].stackStore
    ensures !s.cos[to].usePrivate && s.cos[to].parked && s.occupy != Some(to)
  {
    assert StoredIffEvicted(s, Some(from), to) && CopyOk(s, Some(from), to);
  }

  /** What McoSwap copies. */
  predicate SwapsAsNeeded(s: State, t: State, to: Id)
    requires to in s.cos
  {
    && t.occupy == (if s.cos[to].usePrivate then s.occupy else Some(to)) && t.cos.Keys == s.cos.Keys
    && t.log == s.log + Needed(s, t)
    && (forall x | x in s.cos :: Over(t.cos[x]) == Over(s.cos[x]) && (Evicted(s, t, x) || SameCopy(s, t, x)))
    && (t.buffer != s.buffer ==> t.occupy.Some? && Restored(s, t, t.occupy.value))
  }

  /** What was copied from s to q before control passed, and from q to t after. */
  lemma StagesCopy(s: State, q: State, t: State, to: Id)
    requires to in s.cos && q.occupy == (if s.cos[to].usePrivate then s.occupy else Some(to))
    requires q.buffer == s.buffer && q.cos.Keys == s.cos.Keys && q.log == s.log + CopiedOut(s, q)
    requires forall x | x in s.cos :: Over(q.cos[x]) == Over(s.cos[x]) && (Evicted(s, q, x) || SameCopy(s, q, x))
    requires s.cos[to].stackStore ==> !s.cos[to].usePrivate && s.occupy != Some(to)
    requires t.occupy == q.occupy && t.cos.Keys == q.cos.Keys
    requires t.log == q.log + if s.cos[to].stackStore then [Recovered(to)] else []
    requires t.buffer != q.buffer ==> s.cos[to].stackStore
    requires forall x | x in q.cos :: SameCopy(q, t, x) && Over(t.cos[x]) == Over(q.cos[x])
    ensures SwapsAsNeeded(s, t, to)
  {
    forall x | x in s.cos ensures Evicted(s, t, x) <==> Evicted(s, q, x) {
    }
    assert CopiedOut(s, t) == CopiedOut(s, q);
    assert CopiedBack(s, t) == if s.cos[to].stackStore then [Recovered(to)] else [];
    assert s.log + CopiedOut(s, t) + CopiedBack(s, t) == s.log + Needed(s, t);
  }

  lemma ParkCopies(s: State, from: Id)
    requires from in s.cos
    ensures AlikeForCopies(s, Park(s, from))
  {
  }

  lemma SwapCopies(s: State, from: Id, to: Id)
    requires SwapReady(s, from, to) && CopyInv(s, Some(from))
    ensures SwapsAsNeeded(s, Swap(s, from, to), to)
  {
    var p := Park(s, from);
    var q := Claim(p, to);
    SwapReadyFlags(s, from, to);
    ParkKeepsBytes(s, from);
    ParkCopies(s, from);
    ClaimCopies(p, to);
    if s.cos[to].stackStore {
      StoredArrives(s, from, to);
    }
    ArriveCopies(q, to);
    StagesCopy(p, q, Swap(s, from, to), to);
    AlikeCopies(s, p, Swap(s, from, to), to);
  }

  /** Nothing of what is said about copies changed from s to p. */
  predicate AlikeForCopies(s: State, p: State) {
    && p.occupy == s.occupy && p.log == s.log && p.buffer == s.buffer && p.cos.Keys == s.cos.Keys
    && (forall x | x in s.cos :: SameCopy(s, p, x))
    && (forall x | x in s.cos :: Over(p.cos[x]) == Over(s.cos[x]))
    && (forall x | x in s.cos ::
          p.cos[x].stackStore == s.cos[x].stackStore && p.cos[x].usePrivate == s.cos[x].usePrivate)
  }

  lemma AlikeCopies(s: State, p: State, t: State, to: Id)
    requires to in s.cos && AlikeForCopies(s, p) && SwapsAsNeeded(p, t, to)
    ensures SwapsAsNeeded(s, t, to)
  {
    assert Needed(s, t) == Needed(p, t);
    forall x | x in s.cos ensures Evicted(s, t, x) || SameCopy(s, t, x) {
      assert Evicted(p, t, x) || SameCopy(p, t, x);
    }
  }

  // ---- acts ----

  /** s and p differ in flags and in the records of coroutines that have not started. */
  predicate AlikeForStarted(s: State, p: State) {
    && p.occupy == s.occupy && p.log == s.log && p.buffer == s.buffer && s.cos.Keys <= p.cos.Keys
    && (forall x | x in s.cos && s.cos[x].start :: SameCopy(s, p, x))
    && (forall x | x in s.cos :: p.cos[x].stackStore == s.cos[x].stackStore)
  }

  lemma SwapNeeded(s: State, p: State, t: State, to: Id)
    requires to in s.cos && AlikeForStarted(s, p) && SwapsAsNeeded(p, t, to)
    ensures CopiesAsNeeded(s, t)
  {
    assert Needed(s, t) == Needed(p, t);
    forall x | x in s.cos && s.cos[x].start ensures x in t.cos && (Evicted(s, t, x) || SameCopy(s, t, x)) {
      assert Evicted(p, t, x) || SameCopy(p, t, x);
    }
  }

  lemma PushAlike(s: State, p: State, id: Id)
    requires AlikeForStarted(s, p) && id in s.cos && p.callstack != [] && id in p.cos && Top(p) in p.cos
    requires p.cos[id].start == s.cos[id].start
    ensures AlikeForStarted(s, Push(p, id))
  {
  }

  lemma PushNeeded(s: State, p: State, id: Id)
    requires Inv(p) && AlikeForStarted(s, p) && id in s.cos
    requires p.callstack != [] && id in p.cos && !ResumeIgnored(p.cos[id]) && id !in p.callstack
    requires p.cos[id].start == s.cos[id].start
    ensures Top(p) in p.cos && CopiesAsNeeded(s, Swap(Push(p, id), Top(p), id))
  {
    PushReady(p, id);
    PushControl(p, id);
    PushAlike(s, p, id);
    SwapActNeeded(s, Push(p, id), Top(p), id);
  }

  lemma SwapActNeeded(s: State, p: State, from: Id, to: Id)
    requires to in s.cos && AlikeForStarted(s, p) && SwapReady(p, from, to) && CopyInv(p, Some(from))
    ensures CopiesAsNeeded(s, Swap(p, from, to))
  {
    SwapCopies(p, from, to);
    SwapNeeded(s, p, Swap(p, from, to), to);
  }

  lemma UnwindAlike(s: State, over: bool)
    requires |s.callstack| >= 2 && Top(s) in s.cos && Below(s) in s.cos && s.cos[Top(s)].sink == Some(Below(s))
    requires Below(s) != Top(s)
    ensures AlikeForStarted(s, AfterUnwind(s, over))
  {
    UnwindShape(s, over);
  }

  lemma UnwindNeeded(s: State, over: bool)
    requires Inv(s) && |s.callstack| >= 2
    ensures s.cos[Top(s)].sink == Some(Below(s)) && Below(s) in s.cos
    ensures CopiesAsNeeded(s, Swap(AfterUnwind(s, over), Top(s), Below(s)))
  {
    SinkIsBelowTop(s);
    UnwindReady(s, over);
    UnwindControl(s, over);
    UnwindAlike(s, over);
    SwapActNeeded(s, AfterUnwind(s, over), Top(s), Below(s));
  }

  lemma ResumeNeeded(s: State, id: Id)
    requires Inv(s) && id in s.cos && !Spec.DeepAncestor(s.callstack, id)
    ensures CopiesAsNeeded(s, McoResume(s, id))
  {
    if !ResumeIgnored(s.cos[id]) {
      var t := MainMco(s);
      ResumeTransfers(s, id);
      MainMcoRefines(s);
      ResumeCases(s, id);
      if |t.callstack| >= 2 {
        SinkIsBelowTop(t);
      }
      if t.cos[Top(t)].sink == Some(id) {
        UnwindNeeded(t, false);
      } else {
        PushNeeded(s, t, id);
      }
    }
  }

  lemma YieldNeeded(s: State, id: Id)
    requires Inv(s) && id in s.cos && (id == s.main ==> Exec(s) != Some(s.main))
    ensures CopiesAsNeeded(s, McoYield(s, id))
  {
    if !YieldIgnored(s.cos[id]) {
      RunningIsTop(s, id);
      YieldTopReady(s, false);
      UnwindNeeded(s, false);
    }
  }

  /** What act a, which led from s to t, copied: resumes, yields and returns exactly what had to be copied;
      a free at most drops a copy; everything else nothing. */
  predicate ActCopies(s: State, a: Act, t: State) {
    match a
    case Work(_, _) =>
      && t.occupy == s.occupy && t.log == s.log && t.cos.Keys == s.cos.Keys
      && (forall x | x in s.cos :: SameCopy(s, t, x))
    case Free(id) =>
      && t.occupy == (if s.occupy == Some(id) && id in s.cos && id !in t.cos then None else s.occupy)
      && t.buffer == s.buffer && s.cos.Keys - {id} <= t.cos.Keys
      && t.log == s.log + (if id in s.cos && id !in t.cos && s.cos[id].stackStore then [Dropped(id)] else [])
      && (forall x | x in s.cos && x != id :: SameCopy(s, t, x))
    case _ => CopiesAsNeeded(s, t)
  }

  lemma FinishNeeded(s: State)
    requires Inv(s) && |s.callstack| >= 2
    ensures Top(s) in s.cos && CopiesAsNeeded(s, CoroutineReturn(s))
  {
    YieldTopReady(s, true);
    UnwindNeeded(s, true);
  }

  lemma FreeNeeded(s: State, id: Id)
    requires id in s.cos
    ensures ActCopies(s, Free(id), McoFree(s, id))
  {
  }

  lemma WorkNeeded(s: State, live: Bytes, scribble: Bytes)
    ensures ActCopies(s, Work(live, scribble), Compute(s, live, scribble))
  {
  }

  lemma CreateNeeded(s: State, id: Id, usePrivate: bool)
    requires id !in s.cos
    ensures CopiesAsNeeded(s, s.(cos := s.cos[id := NewCo(usePrivate)]))
  {
  }

  /** Every legal act copies exactly what it has to. */
  lemma StepCopies(s: State, a: Act)
    requires Inv(s) && Spec.Wf(Abs(s)) && Spec.Legal(Abs(s), a)
    ensures ActCopies(s, a, Step(s, a))
  {
    AbsWf(s);
    match a {
      case Resume(id) => if id in s.cos { ResumeNeeded(s, id); }
      case Yield(id) => if id in s.cos { YieldNeeded(s, id); }
      case Finish => FinishNeeded(s);
      case Create(id, usePrivate) => CreateNeeded(s, id, usePrivate);
      case Work(live, scribble) => WorkNeeded(s, live, scribble);
      case Free(id) => FreeNeeded(s, id);
    }
  }

  /** So as long as the buffer stays with its occupant nothing is copied and no copy changes. */
  lemma OccupantNotCopied(s: State, a: Act)
    requires Inv(s) && Spec.Wf(Abs(s)) && Spec.Legal(Abs(s), a) && Step(s, a).occupy == s.occupy && !a.Free?
    ensures var t := Step(s, a);
      && t.log == s.log && (!a.Work? ==> t.buffer == s.buffer)
      && forall x | x in s.cos && s.cos[x].start :: x in t.cos && SameCopy(s, t, x)
  {
    StepCopies(s, a);
    var t := Step(s, a);
    forall x | x in s.cos && s.cos[x].start ensures x in t.cos && SameCopy(s, t, x) {
    }
  }

  /** From s to t the history grew by what had to be copied, or by no store and no move of the buffer. */
  ghost predicate Grows(s: State, t: State) {
    t.log == s.log + Needed(s, t) || (!Moved(s, t) && (t.log == s.log || (exists id :: t.log == s.log + [Dropped(id)])))
  }

  lemma GrowsByNeeded(s: State, a: Act, t: State)
    requires ActCopies(s, a, t)
    ensures Grows(s, t)
  {
  }

  lemma NeededStores(s: State, t: State, o: Id)
    ensures Stored(o) in Needed(s, t) <==> Evicted(s, t, o)
  {
  }

  lemma GrownStores(s: State, t: State, o: Id)
    requires Grows(s, t)
    ensures s.log <= t.log && (Stored(o) in t.log[|s.log|..] <==> Evicted(s, t, o))
  {
    NeededStores(s, t, o);
    assert t.log == s.log + t.log[|s.log|..];
  }

  /** And the bytes of a coroutine are stored exactly when another one takes the buffer from it. */
  lemma StoredMeansEvicted(s: State, a: Act, o: Id)
    requires Inv(s) && Spec.Wf(Abs(s)) && Spec.Legal(Abs(s), a)
    ensures var t := Step(s, a); s.log <= t.log && (Stored(o) in t.log[|s.log|..] <==> Evicted(s, t, o))
  {
    StepCopies(s, a);
    GrowsByNeeded(s, a, Step(s, a));
    GrownStores(s, Step(s, a), o);
  }

  // ---- runs ----

  /** How often the buffer went to another coroutine, counted from the states. */
  function Moves(s: State, acts: seq<Act>): nat
    decreases |acts|
  {
    if acts == [] then 0
    else (if Moved(s, Step(s, acts[0])) then 1 else 0) + Moves(Step(s, acts[0]), acts[1..])
  }
}
