/** The invariant of the coroutine engine and the view of it as a machine with private stacks. */
module EngineInvariant {
  import opened Prelude
  import opened McoEngine
  import Spec = PrivateStacks

  predicate NoDuplicates(s: seq<Id>) {
    forall i, j :: 0 <= i < j < |s| ==> s[i] != s[j]
  }

  /** The coroutine whose code executes, once the thread's own flow is a coroutine. */
  function Exec(s: State): Option<Id> {
    if s.callstack == [] then None else Some(Top(s))
  }

  /** A coroutine runs exactly when it is on top of the call stack. */
  predicate FlagsOk(s: State, id: Id)
    requires id in s.cos
  {
    var c := s.cos[id];
    && c.done == c.doneYield
    && (c.done ==> !c.start)
    && (c.running <==> Exec(s) == Some(id))
    && (c.start && !c.running ==> c.parked)
    && (!c.start && !c.done ==> !c.parked && c.own == [])
  }

  predicate FlagsInv(s: State) {
    forall id | id in s.cos :: FlagsOk(s, id)
  }

  /** The live prefix starts with main, has no duplicates, holds only started unfinished coroutines
      and is linked by the sinks. */
  predicate StackInv(s: State) {
    && (s.callstack == [] ==> s.main !in s.cos)
    && (s.callstack != [] ==> s.callstack[0] == s.main && s.main in s.cos
                              && s.cos[s.main].usePrivate && s.cos[s.main].sink == None)
    && NoDuplicates(s.callstack)
    && (forall i | 0 <= i < |s.callstack| :: s.callstack[i] in s.cos && s.cos[s.callstack[i]].start)
    && (forall i | 1 <= i < |s.callstack| :: s.cos[s.callstack[i]].sink == Some(s.callstack[i - 1]))
  }

  /** id has executed on a stack that is still needed; exec is executing, or nobody is. */
  predicate InUse(s: State, exec: Option<Id>, id: Id)
    requires id in s.cos
  {
    s.cos[id].start && (exec == Some(id) || s.cos[id].parked)
  }

  predicate OccupantOk(s: State, exec: Option<Id>) {
    s.occupy.Some? ==>
      var o := s.occupy.value;
      o in s.cos && !s.cos[o].usePrivate && (InUse(s, exec, o) || Over(s.cos[o]))
  }

  /** An unfinished coroutine of the shared buffer is stored exactly when it is not its occupant. */
  predicate StoredIffEvicted(s: State, exec: Option<Id>, id: Id)
    requires id in s.cos
  {
    !s.cos[id].usePrivate && InUse(s, exec, id) ==> (s.cos[id].stackStore <==> s.occupy != Some(id))
  }

  /** The copy of a stored coroutine is complete, and stack pointers stay inside the buffer. */
  predicate CopyOk(s: State, exec: Option<Id>, id: Id)
    requires id in s.cos
  {
    var c := s.cos[id];
    && (c.stackStore ==> !c.usePrivate && InUse(s, exec, id) && exec != Some(id)
                         && |c.tmp| == c.restoreSize && c.sp + c.restoreSize == |s.buffer|)
    && (!c.usePrivate && InUse(s, exec, id) ==>
          (if exec == Some(id) then s.cpuSp else c.sp) <= |s.buffer|)
  }

  predicate CopyInv(s: State, exec: Option<Id>) {
    && OccupantOk(s, exec)
    && (forall id | id in s.cos :: StoredIffEvicted(s, exec, id))
    && (forall id | id in s.cos :: CopyOk(s, exec, id))
  }

  predicate Inv(s: State) {
    FlagsInv(s) && StackInv(s) && CopyInv(s, Exec(s))
  }

  /** The live bytes of id, wherever they are, while exec executes. */
  function Live(s: State, exec: Option<Id>, id: Id): Bytes {
    if id == s.main then s.threadStack
    else if id !in s.cos || !InUse(s, exec, id) then []
    else
      var c := s.cos[id];
      if c.usePrivate then c.own
      else if exec == Some(id) then From(s.buffer, s.cpuSp)
      else if c.stackStore then c.tmp
      else From(s.buffer, c.sp)
  }

  function StatusOf(s: State, id: Id): Spec.Status {
    if id == s.main then Spec.Started
    else if id !in s.cos || s.cos[id].done then (if id in s.cos then Spec.Finished else Spec.Fresh)
    else if s.cos[id].start then Spec.Started
    else Spec.Fresh
  }

  /** What a coroutine stands for while exec executes. */
  function TaskOf(s: State, exec: Option<Id>, id: Id): Spec.Task {
    Spec.Task(StatusOf(s, id), id == s.main || (id in s.cos && s.cos[id].usePrivate), Live(s, exec, id))
  }

  function Ids(s: State): set<Id> {
    s.cos.Keys + {s.main}
  }

  /** What the engine's state stands for. */
  function Abs(s: State): Spec.Machine {
    Spec.Machine(s.main, |s.buffer|, map id | id in Ids(s) :: TaskOf(s, Exec(s), id),
                 if s.callstack == [] then [s.main] else s.callstack)
  }

  /** d differs from c at most in what McoSwap writes. */
  predicate SameControl(c: Co, d: Co) {
    && d.usePrivate == c.usePrivate && d.sink == c.sink && d.start == c.start && d.running == c.running
    && d.done == c.done && d.doneYield == c.doneYield && d.own == c.own
    && d.inCallstack == c.inCallstack && d.shouldClose == c.shouldClose
  }

  predicate SwapFrame(s: State, t: State) {
    && t.main == s.main && t.callstack == s.callstack && t.threadStack == s.threadStack
    && |t.buffer| == |s.buffer| && t.cos.Keys == s.cos.Keys
    && forall id | id in s.cos :: SameControl(s.cos[id], t.cos[id])
  }

  lemma ParkFrame(s: State, from: Id)
    requires from in s.cos
    ensures var t := Park(s, from);
      && SwapFrame(s, t) && t.buffer == s.buffer && t.cpuSp == s.cpuSp
      && forall id | id in s.cos :: t.cos[id].parked == (s.cos[id].parked || id == from)
  {
  }

  lemma ClaimFrame(s: State, to: Id)
    requires to in s.cos
    ensures var t := Claim(s, to);
      && SwapFrame(s, t) && t.buffer == s.buffer && t.cpuSp == s.cpuSp
      && forall id | id in s.cos :: t.cos[id].parked == s.cos[id].parked
  {
  }

  lemma ArriveFrame(s: State, to: Id)
    requires to in s.cos
    ensures var t := Arrive(s, to);
      && SwapFrame(s, t)
      && forall id | id in s.cos :: t.cos[id].parked == s.cos[id].parked
  {
  }

  /** Between the two halves of McoSwap the buffer is claimed for to, whose bytes may still be stored. */
  predicate Claimed(s: State, to: Id)
    requires to in s.cos
  {
    && OccupantOk(s, if s.cos[to].start then Some(to) else None)
    && (!s.cos[to].usePrivate ==> s.occupy == Some(to))
    && (forall id | id in s.cos && id != to :: StoredIffEvicted(s, None, id))
    && (forall id | id in s.cos :: CopyOk(s, None, id))
  }

  lemma ParkKeepsBytes(s: State, from: Id)
    requires from in s.cos && CopyInv(s, Some(from))
    ensures CopyInv(Park(s, from), None)
    ensures forall id :: Live(Park(s, from), None, id) == Live(s, Some(from), id)
  {
  }

  lemma ClaimKeepsBytes(s: State, to: Id)
    requires to in s.cos && s.cos[to].start
    requires FinishedFlags(s) && CopyInv(s, None)
    ensures Claimed(Claim(s, to), to)
    ensures forall id :: Live(Claim(s, to), None, id) == Live(s, None, id)
  {
  }

  lemma ArriveKeepsBytes(s: State, to: Id)
    requires to in s.cos && s.cos[to].start && s.callstack != [] && Top(s) == to && Claimed(s, to)
    requires !s.cos[to].parked ==> s.cos[to].own == []
    ensures CopyInv(Arrive(s, to), Some(to))
    ensures forall id :: Live(Arrive(s, to), Some(to), id) == Live(s, None, id)
  {
  }

  /** A complete copy, written back, is what lies at and above the stack pointer. */
  lemma RecoverRestores(c: Co, buffer: Bytes)
    requires |c.tmp| == c.restoreSize && c.sp + c.restoreSize == |buffer|
    ensures From(RecoverInto(c, buffer), c.sp) == c.tmp
  {
  }

  predicate FinishedFlags(s: State) {
    forall id | id in s.cos :: s.cos[id].done == s.cos[id].doneYield && (s.cos[id].done ==> !s.cos[id].start)
  }

  /** McoSwap moves bytes about without changing anyone's live bytes, and re-establishes the
      occupancy invariant for the coroutine that arrives. */
  lemma SwapKeepsBytes(s: State, from: Id, to: Id)
    requires from in s.cos && to in s.cos && from != to
    requires s.callstack != [] && Top(s) == to && s.cos[to].start
    requires !s.cos[to].parked ==> s.cos[to].own == []
    requires FinishedFlags(s) && CopyInv(s, Some(from))
    ensures CopyInv(Swap(s, from, to), Some(to))
    ensures forall id :: Live(Swap(s, from, to), Some(to), id) == Live(s, Some(from), id)
  {
    var p := Park(s, from);
    var q := Claim(p, to);
    ParkFrame(s, from);
    ParkKeepsBytes(s, from);
    ClaimFrame(p, to);
    ClaimKeepsBytes(p, to);
    ArriveKeepsBytes(q, to);
  }

  /** Of what the control invariants speak of, McoSwap changes only that the leaver is parked. */
  lemma SwapKeepsControl(s: State, from: Id, to: Id)
    requires from in s.cos && to in s.cos && from != to
    ensures var t := Swap(s, from, to);
      && SwapFrame(s, t)
      && forall id | id in s.cos :: t.cos[id].parked == (s.cos[id].parked || id == from)
  {
    var p := Park(s, from);
    ParkFrame(s, from);
    ClaimFrame(p, to);
    ArriveFrame(Claim(p, to), to);
  }

  /** Of a started, unfinished coroutine of the shared buffer: it is stored exactly when it is not the
      recorded occupant, and then its copy holds all its live bytes, from its stack pointer up to the end
      of the buffer. */
  lemma Occupancy(s: State, id: Id)
    requires Inv(s) && id in s.cos && s.cos[id].start && !s.cos[id].usePrivate
    ensures var c := s.cos[id];
      && (c.stackStore <==> s.occupy != Some(id))
      && (c.stackStore ==> !c.running && c.tmp == Live(s, Exec(s), id)
                           && |c.tmp| == c.restoreSize == |s.buffer| - c.sp)
      && (!c.stackStore ==> Live(s, Exec(s), id) == From(s.buffer, if c.running then s.cpuSp else c.sp))
  {
  }
}
