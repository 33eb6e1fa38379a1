/** mco/McoRoutine.cpp and mco/McoStack.cpp in their own, imperative form. Every method is proved to
    act on the abstract value of the objects as a function of McoEngine, mostly the one of its name. */
module McoRoutines {
  import opened Prelude
  import opened McoEngine
  import opened EngineInvariant
  import opened Refinement
  import Spec = PrivateStacks

  /** A coroutine with the stack record it alone owns. */
  class McoRoutine {
    const id: Id                  // its address
    const usePrivate: bool
    var sink: McoRoutine?
    var inCallstack: bool
    var shouldClose: bool
    var start: bool
    var running: bool
    var done: bool
    var doneYield: bool
    var stackStore: bool
    var parked: bool
    var stackSp: nat
    var stackTmp: Bytes
    var restoreSize: nat
    var own: Bytes

    constructor (id: Id, usePrivate: bool)
      ensures this.id == id && View() == NewCo(usePrivate) && sink == null
    {
      this.id := id;
      this.usePrivate := usePrivate;
      sink := null;
      inCallstack, shouldClose, start, running, done, doneYield, stackStore, parked :=
        false, false, false, false, false, false, false, false;
      stackSp, stackTmp, restoreSize, own := 0, [], 0, [];
    }

    ghost function View(): Co
      reads this
    {
      Co(usePrivate, if sink == null then None else Some(sink.id), inCallstack, shouldClose, start,
         running, done, doneYield, stackStore, parked, stackSp, stackTmp, restoreSize, own)
    }

    method SetFlags(start: bool, running: bool, inCallstack: bool)
      modifies this`start, this`running, this`inCallstack
      ensures View() == old(View()).(start := start, running := running, inCallstack := inCallstack)
    {
      this.start := start;
      this.running := running;
      this.inCallstack := inCallstack;
    }

    method SetStored(stored: bool)
      modifies this`stackStore
      ensures View() == old(View()).(stackStore := stored)
    {
      stackStore := stored;
    }

    /** stack_sp = &c, and the context is saved. */
    method Park(sp: nat)
      modifies this`stackSp, this`parked
      ensures View() == old(View()).(sp := sp, parked := true)
    {
      stackSp := sp;
      parked := true;
    }

    method SetRunning(running: bool)
      modifies this`running
      ensures View() == old(View()).(running := running)
    {
      this.running := running;
    }

    method SetShouldClose()
      modifies this`shouldClose
      ensures View() == old(View()).(shouldClose := true)
    {
      shouldClose := true;
    }

    method SetOwn(live: Bytes)
      modifies this`own
      ensures View() == old(View()).(own := live)
    {
      own := live;
    }

    method SetDone()
      modifies this`done
      ensures View() == old(View()).(done := true)
    {
      done := true;
    }

    method Begin(sink: McoRoutine)
      modifies this
      ensures View() == Begun(old(View()), sink.id) && this.sink == sink
    {
      if !start {
        // InitMcoContext and McontextMake: an empty stack, and a context that enters CoroutineRun
        stackSp, stackTmp, restoreSize, parked := 0, [], 0, false;
        start := true;
      }
      running := true;
      this.sink := sink;
      inCallstack := true;
    }

    method End()
      modifies this`doneYield, this`start, this`running, this`inCallstack
      ensures View() == Ended(old(View()))
    {
      if done {
        doneYield := true;
        start := false;
      }
      running := false;
      inCallstack := true;
    }

    /** StoreUsedCommonStack: copy everything from the stack pointer up to a fresh block. */
    method StoreUsedCommonStack(commonStack: array<byte>)
      requires !usePrivate ==> stackSp <= commonStack.Length
      modifies this`stackTmp, this`restoreSize
      ensures View() == StoreCo(old(View()), commonStack[..])
    {
      if usePrivate {
        return;
      }
      restoreSize := 0;
      stackTmp := [];
      restoreSize := commonStack.Length - stackSp;
      stackTmp := commonStack[stackSp..];
      assert commonStack[..][stackSp..] == commonStack[stackSp..];
    }

    /** RecoverUsedCommonStack: copy the block back to where it came from. */
    method RecoverUsedCommonStack(commonStack: array<byte>)
      requires restoreSize <= |stackTmp| && stackSp + restoreSize <= commonStack.Length
      modifies commonStack
      ensures commonStack[..] == RecoverInto(View(), old(commonStack[..]))
    {
      if restoreSize == 0 {
        return;
      }
      ghost var was := commonStack[..];
      forall i | 0 <= i < restoreSize {
        commonStack[stackSp + i] := stackTmp[i];
      }
      assert commonStack[..] == was[..stackSp] + stackTmp[..restoreSize] + was[stackSp + restoreSize..];
    }
  }

  /** The engine of one thread: its McoStackManager, its McoCallStack and the coroutines it made.
      The ghost field state is its value as McoEngine sees it. */
  class McoThread {
    ghost var state: State
    var heap: map<Id, McoRoutine>         // the coroutines that are allocated, by address

    const main: Id
    const commonStack: array<byte>
    var commonOccupy: McoRoutine?
    var callStack: map<nat, McoRoutine>   // of which the first index entries are live
    var index: nat
    var cpuSp: nat                        // the processor's stack pointer, as an offset into commonStack
    var threadStack: Bytes

    /** c is allocated. */
    ghost predicate Known(c: McoRoutine)
      reads this`heap
    {
      c.id in heap && heap[c.id] == c
    }

    /** The coroutines are as state.cos says. */
    ghost predicate CosOk()
      reads this`heap, this`state, heap.Values
    {
      && state.cos.Keys == heap.Keys
      && (forall id | id in heap :: heap[id].id == id && heap[id].View() == state.cos[id])
    }

    /** The live prefix of the call stack is as state.callstack says, and its sinks are allocated. */
    ghost predicate LinksOk()
      reads this`heap, this`state, this`callStack, this`index, heap.Values
    {
      && |state.callstack| == index
      && (forall i: nat | i < index ::
            i in callStack && callStack[i].id == state.callstack[i] && Known(callStack[i])
            && (callStack[i].sink != null ==> Known(callStack[i].sink)))
    }

    ghost predicate RestOk()
      reads this, commonStack
    {
      && state.main == main
      && state.occupy == (if commonOccupy == null then None else Some(commonOccupy.id))
      && (commonOccupy != null ==> Known(commonOccupy))
      && state.buffer == commonStack[..] && state.cpuSp == cpuSp && state.threadStack == threadStack
    }

    ghost predicate Valid()
      reads this, heap.Values, commonStack
    {
      CosOk() && LinksOk() && RestOk()
    }

    constructor (main: Id, commonSize: nat, threadStack: Bytes)
      ensures Valid() && fresh(commonStack) && commonStack.Length == commonSize && heap == map[]
      ensures state == Init(main, commonStack[..], threadStack)
    {
      this.main := main;
      commonStack := new byte[commonSize];
      commonOccupy := null;
      callStack, index := map[], 0;
      cpuSp := 0;
      this.threadStack := threadStack;
      heap := map[];
      new;
      state := Init(main, commonStack[..], threadStack);
    }

    twostate lemma LinksKept()
      requires old(LinksOk())
      requires unchanged(this`callStack) && index <= old(index) && state.callstack == old(state.callstack)[..index]
      requires forall id | id in old(heap) ::
        && id in heap && heap[id] == old(heap[id])
        && (heap[id].sink == old(heap[id].sink) || (heap[id].sink != null && Known(heap[id].sink)))
      ensures LinksOk()
    {
    }

    twostate lemma CosChanged(co: McoRoutine)
      requires old(CosOk()) && Known(co) && unchanged(this`heap)
      requires forall id | id in heap && id != co.id :: unchanged(heap[id])
      requires state.cos == old(state.cos)[co.id := co.View()]
      ensures CosOk()
    {
    }

    /** Only fields of co changed, and state says so. */
    twostate lemma OneChanged(co: McoRoutine)
      requires old(Valid()) && Known(co)
      requires unchanged(this`heap, this`commonOccupy, this`callStack, this`index, this`cpuSp, this`threadStack)
      requires unchanged(commonStack)
      requires forall id | id in heap && id != co.id :: unchanged(heap[id])
      requires co.sink == old(co.sink) || (co.sink != null && Known(co.sink))
      requires state == old(state).(cos := old(state.cos)[co.id := co.View()], log := state.log)
      ensures Valid()
    {
      CosChanged(co);
      LinksKept();
    }

    /** Coroutines and call stack are as they were, and state says so. */
    twostate lemma NoneChanged()
      requires old(Valid())
      requires unchanged(this`heap, this`callStack, this`index)
      requires forall id | id in heap :: unchanged(heap[id])
      requires commonOccupy != null ==> Known(commonOccupy)
      requires state == old(state).(occupy := if commonOccupy == null then None else Some(commonOccupy.id),
                                    buffer := commonStack[..], cpuSp := cpuSp, threadStack := threadStack,
                                    log := state.log)
      ensures Valid()
    {
      LinksKept();
    }

    /** co was just allocated, and state says so. */
    twostate lemma Allocated(co: McoRoutine)
      requires old(Valid()) && co.id !in old(heap) && heap == old(heap)[co.id := co]
      requires unchanged(this`commonOccupy, this`callStack, this`index, this`cpuSp, this`threadStack, commonStack)
      requires forall id | id in old(heap) :: unchanged(heap[id])
      requires state == old(state).(cos := old(state.cos)[co.id := co.View()])
      ensures Valid()
    {
      LinksKept();
    }

    /** No coroutine but the one at co came or went. */
    twostate predicate OthersStay(co: Id)
      reads this`heap
    {
      forall id | id != co :: (id in old(heap) <==> id in heap) && (id in heap ==> heap[id] == old(heap)[id])
    }

    /** No coroutine came, and none but the one at co went. */
    twostate predicate Shrunk(co: Id)
      reads this`heap
    {
      && (forall id | id in heap :: id in old(heap) && heap[id] == old(heap)[id])
      && (forall id | id in old(heap) && id != co :: id in heap)
    }

    method McoCreate(id: Id, usePrivate: bool) returns (co: McoRoutine)
      requires Valid() && id !in heap
      modifies this`heap, this`state
      ensures Valid() && fresh(co) && co.id == id && co.sink == null
      ensures Known(co) && OthersStay(id)
      ensures state == old(state).(cos := old(state.cos)[id := NewCo(usePrivate)])
    {
      co := new McoRoutine(id, usePrivate);
      Adopt(co);
    }

    method Adopt(co: McoRoutine)
      requires Valid() && co.id !in heap && co.sink == null
      modifies this`heap, this`state
      ensures Valid() && Known(co) && OthersStay(co.id)
      ensures state == old(state).(cos := old(state.cos)[co.id := co.View()])
    {
      heap := heap[co.id := co];
      state := state.(cos := state.cos[co.id := co.View()]);
      Allocated(co);
    }

    method Store(co: McoRoutine)
      requires Valid() && Known(co) && (!state.cos[co.id].usePrivate ==> state.cos[co.id].sp <= |state.buffer|)
      modifies this`state, co`stackTmp, co`restoreSize
      ensures unchanged(this`heap)
      ensures Valid()
      ensures state == old(state).(cos := old(state.cos)[co.id := StoreCo(old(state.cos[co.id]), old(state.buffer))],
                                   log := old(state.log) + [Stored(co.id)])
    {
      co.StoreUsedCommonStack(commonStack);
      state := state.(cos := state.cos[co.id := co.View()], log := state.log + [Stored(co.id)]);
      OneChanged(co);
    }

    method Recover(co: McoRoutine)
      requires Valid() && Known(co)
      requires RecoverFits(state.cos[co.id], state.buffer)
      modifies this`state, commonStack
      ensures unchanged(this`heap)
      ensures Valid()
      ensures state == old(state).(buffer := RecoverInto(old(state.cos[co.id]), old(state.buffer)),
                                   log := old(state.log) + [Recovered(co.id)])
    {
      co.RecoverUsedCommonStack(commonStack);
      state := state.(buffer := commonStack[..], log := state.log + [Recovered(co.id)]);
      NoneChanged();
    }

    predicate RecoverFits(c: Co, buffer: Bytes) {
      c.restoreSize <= |c.tmp| && c.sp + c.restoreSize <= |buffer|
    }

    /** The leaver notes how deep its stack is and mcontext_swap saves its context. */
    method ParkContext(sink: McoRoutine)
      requires Valid() && Known(sink)
      modifies this`state, sink`stackSp, sink`parked
      ensures unchanged(this`heap)
      ensures Valid() && state == Park(old(state), sink.id)
    {
      sink.Park(cpuSp);
      state := state.(cos := state.cos[sink.id := sink.View()]);
      OneChanged(sink);
    }

    method MarkStored(co: McoRoutine, stored: bool)
      requires Valid() && Known(co)
      modifies this`state, co`stackStore
      ensures unchanged(this`heap)
      ensures Valid()
      ensures state == old(state).(cos := old(state.cos)[co.id := old(state.cos[co.id]).(stackStore := stored)])
    {
      co.SetStored(stored);
      state := state.(cos := state.cos[co.id := co.View()]);
      OneChanged(co);
    }

    method SetCommonOccupy(co: McoRoutine)
      requires Valid() && Known(co)
      modifies this`commonOccupy, this`state
      ensures unchanged(this`heap)
      ensures Valid() && state == Occupy(old(state), co.id)
    {
      commonOccupy := co;
      state := Occupy(state, co.id);
      NoneChanged();
    }

    method Evict(co: McoRoutine)
      requires Valid() && Known(co) && (!state.cos[co.id].usePrivate ==> state.cos[co.id].sp <= |state.buffer|)
      modifies this`state, co`stackStore, co`stackTmp, co`restoreSize
      ensures unchanged(this`heap)
      ensures Valid() && state == McoEngine.Evict(old(state), co.id)
    {
      ghost var c := state.cos[co.id].(stackStore := true);
      UpdateTwice(state.cos, co.id, c, StoreCo(c, state.buffer));
      MarkStored(co, true);
      Store(co);
    }

    /** McoSwap up to mcontext_swap: co is about to run. */
    method ClaimBuffer(co: McoRoutine)
      requires Valid() && Known(co) && CopyInv(state, None)
      modifies this`commonOccupy, this`state, heap.Values
      ensures unchanged(this`heap)
      ensures Valid() && state == Claim(old(state), co.id)
    {
      if !co.usePrivate {
        ClaimShared(co, state);
      }
    }

    /** Is the recorded occupant to be stored when co arrives? */
    method ToStore(co: McoRoutine) returns (occupy: McoRoutine?)
      requires Valid() && Known(co)
      ensures if Evicts(state, co.id) then occupy != null && Known(occupy) && state.occupy == Some(occupy.id)
              else occupy == null
    {
      occupy := commonOccupy;
      if occupy == null || occupy == co || (occupy.done && occupy.doneYield) {
        occupy := null;
      }
    }

    method ClaimShared(co: McoRoutine, ghost s: State)
      requires Valid() && Known(co) && state == s && CopyInv(s, None) && !s.cos[co.id].usePrivate
      modifies this`commonOccupy, this`state, heap.Values
      ensures unchanged(this`heap)
      ensures Valid() && state == Claim(s, co.id)
    {
      var occupy := ToStore(co);
      SetCommonOccupy(co);
      if occupy != null {
        assert CopyOk(s, None, occupy.id);
        Evict(occupy);
      }
    }

    method LoadStackPointer(sp: nat)
      requires Valid()
      modifies this`cpuSp, this`state
      ensures unchanged(this`heap)
      ensures Valid() && state == old(state).(cpuSp := sp)
    {
      cpuSp := sp;
      state := state.(cpuSp := sp);
      NoneChanged();
    }

    method Restore(co: McoRoutine)
      requires Valid() && Known(co)
      requires RecoverFits(state.cos[co.id], state.buffer)
      modifies this`state, co`stackStore, commonStack
      ensures unchanged(this`heap)
      ensures Valid()
      ensures state == old(state).(cos := old(state.cos)[co.id := old(state.cos[co.id]).(stackStore := false)],
                                   buffer := RecoverInto(old(state.cos[co.id]), old(state.buffer)),
                                   log := old(state.log) + [Recovered(co.id)])
    {
      MarkStored(co, false);
      Recover(co);
    }

    /** getCurMco: the coroutine on top of the call stack. */
    method GetCurMco() returns (cur: McoRoutine)
      requires Valid() && index > 0
      ensures cur == callStack[index - 1] && Known(cur) && cur.id == Top(state)
      ensures cur.id in state.cos && cur.View() == state.cos[cur.id]
    {
      cur := callStack[index - 1];
    }

    /** Control reaches co; unless it is fresh, it goes on with the rest of McoSwap. */
    method ArriveAt(co: McoRoutine, ghost s: State)
      requires Valid() && state == s && Known(co) && index > 0 && Top(s) == co.id && Claimed(s, co.id)
      modifies this`cpuSp, this`state, heap.Values, commonStack
      ensures unchanged(this`heap)
      ensures Valid() && state == Arrive(s, co.id)
    {
      if !co.parked {
        LoadStackPointer(commonStack.Length);
      } else {
        var cur := GetCurMco();
        assert CopyOk(state, None, cur.id);
        LoadStackPointer(co.stackSp);
        if !cur.usePrivate && cur.stackStore {
          Restore(cur);
        }
      }
    }

    /** The first half of McoSwap, and the saving of the leaver's context by mcontext_swap. */
    method SwapOut(sink: McoRoutine, co: McoRoutine)
      requires Valid() && Known(sink) && Known(co) && CopyInv(Park(state, sink.id), None)
      modifies this`commonOccupy, this`state, heap.Values
      ensures unchanged(this`heap)
      ensures Valid() && state == McoEngine.SwapOut(old(state), sink.id, co.id)
    {
      ParkContext(sink);
      ClaimBuffer(co);
    }

    method McoSwap(sink: McoRoutine, co: McoRoutine)
      requires Valid() && Known(sink) && Known(co)
      requires SwapOk(state, sink.id, co.id)
      modifies this`commonOccupy, this`cpuSp, this`state, heap.Values, commonStack
      ensures unchanged(this`heap)
      ensures Valid() && state == Swap(old(state), sink.id, co.id)
    {
      ghost var s := McoEngine.SwapOut(state, sink.id, co.id);
      SwapOut(sink, co);
      // here mcontext_swap passes control: what follows is executed by co
      ArriveAt(co, s);
    }

    /** co became the top of the call stack, and state says so. */
    twostate lemma EntryPushed(co: McoRoutine)
      requires old(Valid()) && Known(co) && (co.sink != null ==> Known(co.sink))
      requires unchanged(this`heap, this`commonOccupy, this`cpuSp, this`threadStack, commonStack)
      requires forall id | id in heap :: unchanged(heap[id])
      requires callStack == old(callStack)[old(index) := co] && index == old(index) + 1
      requires state == old(state).(callstack := old(state.callstack) + [co.id])
      ensures Valid()
    {
    }

    /** (*callstack)[index++] = co */
    method PushEntry(co: McoRoutine)
      requires Valid() && Known(co) && (co.sink != null ==> Known(co.sink))
      modifies this`state, this`callStack, this`index
      ensures unchanged(this`heap)
      ensures Valid() && index == old(index) + 1 && callStack == old(callStack)[old(index) := co]
      ensures state == old(state).(callstack := old(state.callstack) + [co.id])
    {
      callStack := callStack[index := co];
      index := index + 1;
      state := state.(callstack := state.callstack + [co.id]);
      EntryPushed(co);
    }

    /** The thread's own flow becomes the coroutine main. */
    method MainMco()
      requires Valid() && (index == 0 ==> main !in heap)
      modifies this`heap, this`state, this`callStack, this`index
      ensures Valid() && state == McoEngine.MainMco(old(state)) && index > 0
      ensures GrewByMain()
    {
      if index == 0 {
        var sink := MakeMain();
        PushEntry(sink);
      }
    }

    method MakeMain() returns (sink: McoRoutine)
      requires Valid() && main !in heap
      modifies this`heap, this`state
      ensures Valid() && Known(sink) && sink.id == main && sink.sink == null && GrewByMain()
      ensures state == old(state).(cos := old(state.cos)[main := MAIN_CO])
    {
      UpdateTwice(state.cos, main, NewCo(true), MAIN_CO);
      sink := McoCreate(main, true);
      BeginMain(sink);
    }

    method BeginMain(sink: McoRoutine)
      requires Valid() && Known(sink)
      modifies this`state, sink`start, sink`running, sink`inCallstack
      ensures unchanged(this`heap)
      ensures Valid()
      ensures state == old(state).(cos := old(state.cos)[sink.id :=
                old(state.cos[sink.id]).(start := true, running := true, inCallstack := true)])
    {
      sink.SetFlags(true, true, true);
      state := state.(cos := state.cos[sink.id := sink.View()]);
      OneChanged(sink);
    }

    /** The record of co as McoResume leaves it, above the coroutine sink. */
    method BeginCo(co: McoRoutine, sink: McoRoutine)
      requires Valid() && Known(co) && Known(sink)
      modifies this`state, co
      ensures unchanged(this`heap)
      ensures Valid() && co.sink == sink
      ensures state == old(state).(cos := old(state.cos)[co.id := Begun(old(state.cos[co.id]), sink.id)])
    {
      co.Begin(sink);
      state := state.(cos := state.cos[co.id := co.View()]);
      OneChanged(co);
    }

    method SetRunning(co: McoRoutine, running: bool)
      requires Valid() && Known(co)
      modifies this`state, co`running
      ensures unchanged(this`heap)
      ensures Valid()
      ensures state == old(state).(cos := old(state.cos)[co.id := old(state.cos[co.id]).(running := running)])
    {
      co.SetRunning(running);
      state := state.(cos := state.cos[co.id := co.View()]);
      OneChanged(co);
    }

    /** McoResume up to its call of McoSwap. */
    method PushCo(co: McoRoutine, sink: McoRoutine)
      requires Valid() && Known(co) && index > 0 && callStack[index - 1] == sink && sink != co
      modifies this`state, this`callStack, this`index, heap.Values
      ensures unchanged(this`heap)
      ensures Valid() && co.sink == sink
      ensures state == Push(old(state), co.id)
    {
      BeginAbove(co, sink);
      PushEntry(co);
    }

    method BeginAbove(co: McoRoutine, sink: McoRoutine)
      requires Valid() && Known(co) && Known(sink) && co != sink
      modifies this`state, co, sink`running
      ensures unchanged(this`heap, this`callStack, this`index)
      ensures Valid() && co.sink == sink
      ensures state == McoEngine.SetRunning(old(state).(cos := old(state.cos)[co.id :=
                Begun(old(state.cos[co.id]), sink.id)]), sink.id, false)
    {
      BeginCo(co, sink);
      SetRunning(sink, false);
    }

    /** The record of co as McoYield leaves it. */
    method EndCo(co: McoRoutine)
      requires Valid() && Known(co)
      modifies this`state, co`doneYield, co`start, co`running, co`inCallstack
      ensures unchanged(this`heap)
      ensures Valid() 
      ensures state == old(state).(cos := old(state.cos)[co.id := Ended(old(state.cos[co.id]))])
    {
      co.End();
      state := state.(cos := state.cos[co.id := co.View()]);
      OneChanged(co);
    }

    /** index-- */
    method PopEntry()
      requires Valid() && index > 0
      modifies this`state, this`index
      ensures unchanged(this`heap)
      ensures Valid() && index == old(index) - 1 && state == old(state).(callstack := Pop(old(state.callstack)))
    {
      index := index - 1;
      state := state.(callstack := Pop(state.callstack));
      LinksKept();
    }

    /** McoYield up to its call of McoSwap. */
    method UnwindCo(co: McoRoutine, sink: McoRoutine)
      requires Valid() && Known(co) && Known(sink) && index > 0
      requires state.cos[co.id].sink == Some(sink.id)
      modifies this`state, this`index, heap.Values
      ensures unchanged(this`heap)
      ensures Valid() && state == Unwind(old(state), co.id)
    {
      EndCo(co);
      SetRunning(sink, true);
      PopEntry();
    }

    /** The sink of the running coroutine. */
    method SinkOf(co: McoRoutine) returns (sink: McoRoutine)
      requires Valid() && index >= 2 && co == callStack[index - 1]
      requires state.cos[co.id].sink == Some(Below(state))
      ensures Known(sink) && sink.id == Below(state)
    {
      sink := co.sink;
      // the assertion in McoYield
      assert sink == callStack[index - 2];
    }

    method LeaveStack(co: McoRoutine) returns (sink: McoRoutine)
      requires Valid() && index >= 2 && co == callStack[index - 1]
      requires state.cos[co.id].sink == Some(Below(state)) && Below(state) in state.cos
      modifies this`state, this`index, heap.Values
      ensures unchanged(this`heap)
      ensures Valid() && state == Unwind(old(state), co.id)
      ensures Known(sink) && sink.id == Below(old(state))
    {
      sink := SinkOf(co);
      UnwindCo(co, sink);
    }

    /** The running coroutine co leaves for its sink. */
    method YieldTop(co: McoRoutine)
      requires Valid() && index >= 2 && co == callStack[index - 1]
      requires state.cos[co.id].sink == Some(Below(state)) && Below(state) in state.cos
      requires SwapOk(Unwind(state, co.id), co.id, Below(state))
      modifies this`commonOccupy, this`cpuSp, this`state, this`index, heap.Values, commonStack
      ensures unchanged(this`heap)
      ensures Valid() && state == Swap(Unwind(old(state), co.id), co.id, Below(old(state)))
    {
      var sink := LeaveStack(co);
      McoSwap(co, sink);
    }

    method McoYield(co: McoRoutine?)
      requires Valid() && Inv(state)
      requires co != null ==> Known(co) && (co.id == main ==> Exec(state) != Some(main))
      modifies this`commonOccupy, this`cpuSp, this`state, this`index, heap.Values, commonStack
      ensures unchanged(this`heap)
      ensures Valid() && Inv(state)
      ensures state == if co == null then old(state) else McoEngine.McoYield(old(state), co.id)
    {
      if co == null {
        return;
      }
      var over := co.done && co.doneYield;
      if !co.running || over {
        return;
      }
      RunningIsTop(state, co.id);
      YieldTopReady(state, false);
      YieldRefines(state, co.id);
      YieldTop(co);
    }

    /** co->done = true; McoYield(co); */
    method DoneYield(co: McoRoutine, ghost done: State)
      requires Valid() && index >= 2 && co == callStack[index - 1] && Top(state) in state.cos
      requires done == Leaving(state, true) && done.cos[co.id].sink == Some(Below(done)) && Below(done) in done.cos
      requires SwapOk(Unwind(done, co.id), co.id, Below(done))
      modifies this`commonOccupy, this`cpuSp, this`state, this`index, heap.Values, commonStack
      ensures unchanged(this`heap)
      ensures Valid() && state == Swap(Unwind(done, co.id), co.id, Below(done))
    {
      MarkDone(co);
      YieldTop(co);
    }

    /** The end of CoroutineRun: the callback of co returned. */
    method CoroutineReturn(co: McoRoutine)
      requires Valid() && Inv(state) && index >= 2 && co == callStack[index - 1]
      modifies this`commonOccupy, this`cpuSp, this`state, this`index, heap.Values, commonStack
      ensures unchanged(this`heap)
      ensures Valid() && Inv(state) && state == McoEngine.CoroutineReturn(old(state))
    {
      FinishRefines(state);
      YieldTopReady(state, true);
      DoneYield(co, Leaving(state, true));
    }

    /** The callback of the running coroutine returns. */
    method FinishRunning()
      requires Valid() && Inv(state) && |state.callstack| >= 2
      modifies this`commonOccupy, this`cpuSp, this`state, this`index, heap.Values, commonStack
      ensures unchanged(this`heap)
      ensures Valid() && Inv(state) && state == McoEngine.CoroutineReturn(old(state))
    {
      var co := callStack[index - 1];
      CoroutineReturn(co);
    }

    method MarkDone(co: McoRoutine)
      requires Valid() && Known(co)
      modifies this`state, co`done
      ensures unchanged(this`heap)
      ensures Valid()
      ensures state == old(state).(cos := old(state.cos)[co.id := old(state.cos[co.id]).(done := true)])
    {
      co.SetDone();
      state := state.(cos := state.cos[co.id := co.View()]);
      OneChanged(co);
    }

    /** The straight branch of McoResume: co is put on top of the call stack and entered. */
    method Enter(co: McoRoutine)
      requires Valid() && Known(co) && index > 0 && callStack[index - 1] != co
      requires SwapOk(Push(state, co.id), Top(state), co.id)
      modifies this`commonOccupy, this`cpuSp, this`state, this`callStack, this`index, heap.Values, commonStack
      ensures unchanged(this`heap)
      ensures Valid() && state == Swap(Push(old(state), co.id), Top(old(state)), co.id)
    {
      PushCo(co, callStack[index - 1]);
      McoSwap(co.sink, co);
    }

    method Release(co: McoRoutine)
      requires Valid() && Known(co) && StackInv(state) && (!co.running ==> co.id !in state.callstack)
      modifies this`commonOccupy, this`state, this`heap, co`shouldClose
      ensures Valid() && Shrunk(co.id) && state == McoEngine.McoFree(old(state), co.id)
    {
      if co.running {
        MarkShouldClose(co);
      } else {
        Discard(co);
      }
    }

    method McoFree(co: McoRoutine?)
      requires Valid() && Inv(state)
      requires co != null ==> Known(co) && co.id != main && (co.id in state.callstack ==> co.id == Top(state))
      modifies this`commonOccupy, this`state, this`heap, heap.Values
      ensures Valid() && Inv(state) && (co != null ==> Shrunk(co.id))
      ensures state == if co == null then old(state) else McoEngine.McoFree(old(state), co.id)
    {
      if co != null {
        FreeKeepsInv(state, co.id);
        RunningIffTop(state, co.id);
        Release(co);
      }
    }

    method MarkShouldClose(co: McoRoutine)
      requires Valid() && Known(co)
      modifies this`state, co`shouldClose
      ensures unchanged(this`heap)
      ensures Valid()
      ensures state == old(state).(cos := old(state.cos)[co.id := old(state.cos[co.id]).(shouldClose := true)])
    {
      co.SetShouldClose();
      state := state.(cos := state.cos[co.id := co.View()]);
      OneChanged(co);
    }

    method ClearOccupy()
      requires Valid()
      modifies this`commonOccupy, this`state
      ensures unchanged(this`heap)
      ensures Valid() && state == old(state).(occupy := None) && commonOccupy == null
    {
      commonOccupy := null;
      state := state.(occupy := None);
      NoneChanged();
    }

    /** The live prefix does not refer to a coroutine that is not on the call stack. */
    lemma NotReferred(co: McoRoutine)
      requires CosOk() && LinksOk() && StackInv(state) && Known(co) && co.id !in state.callstack
      ensures forall i: nat | i < index :: callStack[i] != co && callStack[i].sink != co
    {
      forall i: nat | i < index
        ensures callStack[i] != co && callStack[i].sink != co
      {
        var c := callStack[i];
        assert state.callstack[i] == c.id && c.View() == state.cos[c.id];
        assert i > 0 ==> state.cos[c.id].sink == Some(state.callstack[i - 1]);
      }
    }

    twostate lemma LinksWithout(co: McoRoutine)
      requires old(LinksOk()) && unchanged(this`callStack, this`index) && state.callstack == old(state.callstack)
      requires heap == old(heap) - {co.id} && forall id | id in heap :: unchanged(heap[id])
      requires forall i: nat | i < index :: callStack[i].id != co.id && unchanged(callStack[i])
      requires forall i: nat | i < index :: callStack[i].sink != null ==> callStack[i].sink.id != co.id
      ensures LinksOk()
    {
    }

    twostate lemma CosWithout(co: McoRoutine)
      requires old(CosOk()) && state.cos == old(state.cos) - {co.id}
      requires heap == old(heap) - {co.id} && forall id | id in heap :: unchanged(heap[id])
      ensures CosOk()
    {
    }

    twostate lemma RestWithout(co: McoRoutine)
      requires old(RestOk()) && commonOccupy != co
      requires unchanged(this`commonOccupy, this`cpuSp, this`threadStack, commonStack)
      requires commonOccupy != null ==> commonOccupy.id != co.id
      requires heap == old(heap) - {co.id} && state == old(state).(cos := state.cos, log := state.log)
      ensures RestOk()
    {
    }

    /** delete co */
    method Delete(co: McoRoutine)
      requires Valid() && Known(co) && commonOccupy != co
      requires forall i: nat | i < index :: callStack[i] != co && callStack[i].sink != co
      modifies this`state, this`heap
      ensures Valid() && Shrunk(co.id)
      ensures state == old(state).(cos := old(state.cos) - {co.id},
                log := if old(state.cos[co.id]).stackStore then old(state.log) + [Dropped(co.id)] else old(state.log))
    {
      state := state.(cos := state.cos - {co.id},
                      log := if state.cos[co.id].stackStore then state.log + [Dropped(co.id)] else state.log);
      heap := heap - {co.id};
      CosWithout(co);
      LinksWithout(co);
      RestWithout(co);
    }

    method Discard(co: McoRoutine)
      requires Valid() && Known(co) && StackInv(state) && co.id !in state.callstack
      modifies this`commonOccupy, this`state, this`heap
      ensures Valid() && Shrunk(co.id) && state == McoEngine.Discard(old(state), co.id)
    {
      if commonOccupy == co {
        ClearOccupy();
      }
      NotReferred(co);
      Delete(co);
    }

    /** The last part of McoResume: up to co, or down to it if the running coroutine was resumed by it. */
    method TransferTo(co: McoRoutine, ghost s: State)
      requires Valid() && state == s && Known(co) && index > 0 && co.id != Top(s) && TransferReady(s, co.id)
      modifies this`commonOccupy, this`cpuSp, this`state, this`callStack, this`index, heap.Values, commonStack
      ensures unchanged(this`heap)
      ensures Valid() && state == Transfer(s, co.id)
    {
      var cur := callStack[index - 1];
      if cur.sink != co {
        Enter(co);
      } else {
        YieldTop(cur);
      }
    }

    /** s is the state in which main exists. */
    method Activate(co: McoRoutine, ghost s: State)
      requires Valid() && Known(co) && (index == 0 ==> main !in heap) && s == McoEngine.MainMco(state)
      requires co.id in s.cos && s.callstack != [] && Top(s) in s.cos
      requires co.id != Top(s) && TransferReady(s, co.id)
      modifies this`commonOccupy, this`cpuSp, this`state, this`heap, this`callStack, this`index
      modifies heap.Values, commonStack
      ensures Valid() && state == Transfer(s, co.id) && GrewByMain()
    {
      MainMco();
      TransferTo(co, s);
    }

    /** No coroutine came or went, but that main may have been made. */
    twostate predicate GrewByMain()
      reads this`heap
    {
      && (forall id | id in old(heap) :: id in heap && heap[id] == old(heap)[id])
      && (forall id | id in heap && id !in old(heap) :: id == main && fresh(heap[id]))
    }

    method McoResume(co: McoRoutine?)
      requires Valid() && Inv(state)
      requires co != null ==> Known(co) && !Spec.DeepAncestor(state.callstack, co.id)
      modifies this`commonOccupy, this`cpuSp, this`state, this`heap, this`callStack, this`index
      modifies heap.Values, commonStack
      ensures Valid() && Inv(state) && GrewByMain()
      ensures state == if co == null then old(state) else McoEngine.McoResume(old(state), co.id)
    {
      if co == null {
        return;
      }
      var over := co.done && co.doneYield;
      if co.running || over {
        return;
      }
      ResumeRefines(state, co.id);
      ResumeTransfers(state, co.id);
      Activate(co, McoEngine.MainMco(state));
    }

    /** The code of the running coroutine writes to its stack. */
    method Work(live: Bytes, scribble: Bytes)
      requires Valid() && Inv(state) && WorkFits(state, live, scribble)
      modifies this`threadStack, this`cpuSp, this`state, heap.Values, commonStack
      ensures unchanged(this`heap)
      ensures Valid() && state == Compute(old(state), live, scribble)
    {
      ComputeCases(state, live, scribble);
      Write(live, scribble);
    }

    method Write(live: Bytes, scribble: Bytes)
      requires Valid() && WorkFits(state, live, scribble) && (|state.callstack| > 1 ==> Top(state) in state.cos)
      modifies this`threadStack, this`cpuSp, this`state, heap.Values, commonStack
      ensures unchanged(this`heap)
      ensures Valid() && state == Written(old(state), live, scribble)
    {
      if index <= 1 {
        WriteThread(live, scribble);
      } else {
        WriteStack(live, scribble);
      }
    }

    method WriteThread(live: Bytes, ghost scribble: Bytes)
      requires Valid() && |state.callstack| <= 1
      modifies this`threadStack, this`state
      ensures unchanged(this`heap)
      ensures Valid() && state == Written(old(state), live, scribble)
    {
      threadStack := live;
      state := state.(threadStack := live);
      NoneChanged();
    }

    method WriteStack(live: Bytes, scribble: Bytes)
      requires Valid() && |state.callstack| > 1 && Top(state) in state.cos && WorkFits(state, live, scribble)
      modifies this`cpuSp, this`state, heap.Values, commonStack
      ensures unchanged(this`heap)
      ensures Valid() && state == Written(old(state), live, scribble)
    {
      var cur := GetCurMco();
      if cur.usePrivate {
        WriteOwn(cur, live, scribble);
      } else {
        WriteShared(live, scribble);
      }
    }

    method WriteOwn(co: McoRoutine, live: Bytes, ghost scribble: Bytes)
      requires Valid() && Known(co) && |state.callstack| > 1 && co.id == Top(state) && state.cos[co.id].usePrivate
      modifies this`state, co`own
      ensures unchanged(this`heap)
      ensures Valid() && state == Written(old(state), live, scribble)
    {
      co.SetOwn(live);
      state := state.(cos := state.cos[co.id := co.View()]);
      OneChanged(co);
    }

    method WriteShared(live: Bytes, scribble: Bytes)
      requires Valid() && |state.callstack| > 1 && Top(state) in state.cos && !state.cos[Top(state)].usePrivate
      requires WorkFits(state, live, scribble)
      modifies this`cpuSp, this`state, commonStack
      ensures unchanged(this`heap)
      ensures Valid() && state == Written(old(state), live, scribble)
    {
      Fill(live, scribble);
      state := state.(cpuSp := |state.buffer| - |live|, buffer := scribble[..|state.buffer| - |live|] + live);
      NoneChanged();
    }

    method Fill(live: Bytes, scribble: Bytes)
      requires |live| <= commonStack.Length == |scribble|
      modifies this`cpuSp, commonStack
      ensures cpuSp == commonStack.Length - |live| && commonStack[..] == scribble[..cpuSp] + live
    {
      cpuSp := commonStack.Length - |live|;
      forall i | 0 <= i < commonStack.Length {
        commonStack[i] := if i < cpuSp then scribble[i] else live[i - cpuSp];
      }
    }
  }
}
