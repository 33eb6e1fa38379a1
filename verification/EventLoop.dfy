/** base/Events.cpp, base/McoPool.cpp and base/EventLoop.cpp in their own, imperative form. Every method is
    proved to act on the abstract state as a function of Scheduler. */
module EventLoops {
  import opened Prelude
  import opened EventRecords
  import opened Scheduler
  import opened SchedulerInvariant
  import opened McoRoutines
  import Spec = PrivateStacks

  /** base/Events.cpp */
  class Events {
    const id: Ev                  // its address
    const fd: Fd
    var state: EventState
    var eorigin: Mask
    var reported: Mask

    constructor (id: Ev, fd: Fd, mask: Mask)
      ensures this.id == id && View() == NewEvent(fd, mask)
      ensures this.fd == fd && state == New && eorigin == mask && reported == NONE_EVENT
    {
      this.id := id;
      this.fd := fd;
      state, eorigin, reported := New, mask, NONE_EVENT;
    }

    ghost function View(): Event
      reads this
    {
      Event(fd, state, eorigin, reported)
    }

    method SetState(state: EventState)
      modifies this`state
      ensures View() == old(View()).(state := state)
    {
      this.state := state;
    }

    method UpdateEvents(mask: Mask)
      modifies this`eorigin, this`state
      ensures View() == EventRecords.UpdateEvents(old(View()), mask)
      ensures eorigin == mask && state == Mod
    {
      eorigin := mask;
      state := Mod;
    }

    method DeleteEvent(mask: Mask)
      modifies this`eorigin, this`state
      ensures View() == EventRecords.DeleteEvent(old(View()), mask)
      ensures eorigin == old(eorigin) & (0xFFFF_FFFF ^ mask) && state == Mod
    {
      eorigin := eorigin & (0xFFFF_FFFF ^ mask);
      state := Mod;
    }

    method DeleteEventMutable(mask: Mask)
      modifies this`reported, this`state
      ensures View() == DeleteReported(old(View()), mask)
      ensures reported == old(reported) & (0xFFFF_FFFF ^ mask) && state == Mod
    {
      reported := reported & (0xFFFF_FFFF ^ mask);
      state := Mod;
    }

    method SetMutable(mask: Mask)
      modifies this`reported
      ensures View() == old(View()).(reported := mask)
    {
      reported := mask;
    }

    method DropUnaskedRead()
      modifies this`reported, this`state
      ensures View() == DropRead(old(View()))
    {
      if ReadBits(reported) && !ReadBits(eorigin) {
        DeleteEventMutable(READ_EVENT);
      }
    }

    method DropUnaskedWrite()
      modifies this`reported, this`state
      ensures View() == DropWrite(old(View()))
    {
      if WriteBits(reported) && !WriteBits(eorigin) {
        DeleteEventMutable(WRITE_EVENT);
      }
    }

    /** EventLoop::eventHandleAble */
    method HandleAble() returns (handle: bool)
      modifies this`reported, this`state
      ensures (View(), handle) == EventRecords.HandleAble(old(View()))
    {
      if state == Del {
        return false;
      }
      if state == Mod {
        DropUnaskedRead();
        DropUnaskedWrite();
        return reported != NONE_EVENT;
      }
      return true;
    }
  }

  function IdOf(co: McoRoutine?): Option<Id> {
    if co == null then None else Some(co.id)
  }

  /** base/McoPool.cpp */
  class McoPool {
    var cur: McoRoutine?
    var fdMcos: map<Fd, McoRoutine>

    constructor ()
      ensures cur == null && fdMcos == map[]
    {
      cur, fdMcos := null, map[];
    }

    method GetMcoRoutine(fd: Fd) returns (mco: McoRoutine?)
      ensures mco == if fd in fdMcos then fdMcos[fd] else null
    {
      if fd !in fdMcos {
        return null;
      }
      return fdMcos[fd];
    }

    method RemoveMcoRoutine(fd: Fd) returns (removed: bool)
      modifies this`fdMcos
      ensures fdMcos == old(fdMcos) - {fd} && removed == (fd in old(fdMcos))
    {
      removed := fd in fdMcos;
      fdMcos := fdMcos - {fd};
    }

    method SetMcoRoutine(fd: Fd, mco: McoRoutine)
      modifies this`fdMcos
      ensures fdMcos == old(fdMcos)[fd := mco]
    {
      fdMcos := fdMcos[fd := mco];
    }

    method SetCurMco(mco: McoRoutine?)
      modifies this`cur
      ensures cur == mco
    {
      cur := mco;
    }
  }

  /** The operating system as the thread sees it: its open descriptors and one epoll instance. */
  class Kernel {
    var open: set<Fd>
    var interest: map<Fd, Mask>

    constructor ()
      ensures open == {} && interest == map[]
    {
      open, interest := {}, map[];
    }

    method EpollAdd(fd: Fd, mask: Mask) returns (ok: bool)
      modifies this`interest
      ensures ok == (fd in open && fd !in old(interest))
      ensures interest == if ok then old(interest)[fd := mask] else old(interest)
    {
      ok := fd in open && fd !in interest;
      if ok {
        interest := interest[fd := mask];
      }
    }

    method EpollMod(fd: Fd, mask: Mask) returns (ok: bool)
      modifies this`interest
      ensures ok == (fd in old(interest))
      ensures interest == if ok then old(interest)[fd := mask] else old(interest)
    {
      ok := fd in interest;
      if ok {
        interest := interest[fd := mask];
      }
    }

    method EpollDel(fd: Fd) returns (ok: bool)
      modifies this`interest
      ensures ok == (fd in old(interest)) && interest == old(interest) - {fd}
    {
      ok := fd in interest;
      interest := interest - {fd};
    }

    method Open(fd: Fd)
      modifies this`open
      ensures open == old(open) + {fd}
    {
      open := open + {fd};
    }

    method Close(fd: Fd)
      modifies this`open, this`interest
      ensures open == old(open) - {fd} && interest == old(interest) - {fd}
    {
      open := open - {fd};
      interest := interest - {fd};
    }
  }

  /** The locals of a coroutine that is suspended in read or accept. */
  datatype Locals = Locals(fd: Fd, event: Events)

  /** True of every n. A proof that needs what EventLoop.Ok says names an instance. */
  predicate InLoop(n: nat) {
    true
  }

  /** The event loop of a thread, its McoPool and the frames of its waiting coroutines. The ghost field state is
      their value as Scheduler sees it; its coroutines (state.sys) are for others to keep. */
  class EventLoop {
    ghost var state: Thread
    var heap: map<Ev, Events>             // the Events objects that exist, by address

    const pool: McoPool
    const kernel: Kernel
    const wakeFd: Fd
    var events: map<Fd, Events>           // EventLoop::events_
    var frames: map<Id, Locals>

    ghost predicate Known(event: Events)
      reads this`heap
    {
      event.id in heap && heap[event.id] == event
    }

    ghost predicate ObjectsOk()
      reads this`heap, this`state, heap.Values
    {
      && state.records.Keys == heap.Keys
      && (forall id | id in heap :: heap[id].id == id && heap[id].View() == state.records[id])
    }

    ghost predicate TablesOk()
      reads this`heap, this`state, this`events, this`frames
    {
      && state.events.Keys == events.Keys
      && (forall fd | fd in events :: Known(events[fd]) && events[fd].id == state.events[fd])
      && state.frames.Keys == frames.Keys
      && (forall mco | mco in frames ::
            Known(frames[mco].event) && Frame(frames[mco].fd, frames[mco].event.id) == state.frames[mco])
    }

    ghost predicate PoolOk()
      reads this`state, pool
    {
      && state.cur == IdOf(pool.cur) && state.fdMcos.Keys == pool.fdMcos.Keys
      && (forall fd | fd in pool.fdMcos :: pool.fdMcos[fd].id == state.fdMcos[fd])
    }

    ghost predicate KernelOk()
      reads this`state, kernel
    {
      state.open == kernel.open && state.interest == kernel.interest && state.wakeFd == wakeFd
    }

    ghost predicate Valid()
      reads this, heap.Values, pool, kernel
    {
      ObjectsOk() && TablesOk() && PoolOk() && KernelOk()
    }

    /** The same, for those who need not know what it means. */
    ghost predicate Ok()
      reads this, heap.Values, pool, kernel
    {
      forall n: nat {:trigger InLoop(n)} | InLoop(n) :: Valid()
    }

    /** The Events objects are those of before, or new. */
    twostate predicate NewOnly()
      reads this`heap
    {
      forall id | id in heap :: (id in old(heap) && heap[id] == old(heap)[id]) || fresh(heap[id])
    }

    ghost function Footprint(): set<object>
      reads this`heap
    {
      {this, pool, kernel} + heap.Values
    }

    /** The constructor registers an eventfd. */
    constructor (ghost main: Id, ghost size: nat, ghost live: Bytes, wakeFd: Fd, wakeEvent: Ev)
      ensures Ok() && fresh(pool) && fresh(kernel) && fresh(heap.Values) && pool.cur == null && pool.fdMcos == map[]
      ensures state == Start(main, size, live, wakeFd, wakeEvent)
      ensures kernel.interest == map[wakeFd := READ_EVENT]
    {
      pool := new McoPool();
      var kernel := new Kernel();
      this.kernel := kernel;
      this.wakeFd := wakeFd;
      var event := new Events(wakeEvent, wakeFd, READ_EVENT);
      events := map[wakeFd := event];
      heap := map[wakeEvent := event];
      frames := map[];
      new;
      kernel.Open(wakeFd);
      var ok := kernel.EpollAdd(wakeFd, READ_EVENT);
      assert kernel.interest == map[wakeFd := READ_EVENT] && kernel.open == {wakeFd};
      state := Start(main, size, live, wakeFd, wakeEvent);
      assert ObjectsOk() && TablesOk() && PoolOk() && KernelOk();
    }

    /** Only the Events object event changed, and state says so. */
    twostate lemma ObjectChanged(event: Events)
      requires old(Valid()) && Known(event)
      requires unchanged(this`heap, this`events, this`frames, pool, kernel)
      requires forall id | id in heap && id != event.id :: unchanged(heap[id])
      requires state == old(state).(records := old(state.records)[event.id := event.View()])
      ensures Valid()
    {
    }

    /** No Events object changed and none was registered, forgotten or put into a frame; state says so. */
    twostate lemma RestChanged()
      requires old(Valid())
      requires unchanged(this`heap, this`events, this`frames) && forall id | id in heap :: unchanged(heap[id])
      requires state.records == old(state.records) && state.events == old(state.events)
      requires state.frames == old(state.frames)
      requires PoolOk() && KernelOk()
      ensures Valid()
    {
    }

    // ---- the Events objects ----

    method MakeEvents(id: Ev, fd: Fd) returns (event: Events)
      requires Valid() && id !in heap
      modifies this`heap, this`state
      ensures Valid() && fresh(event) && event.id == id && Known(event) && heap == old(heap)[id := event]
      ensures state == old(state).(records := old(state.records)[id := NewEvent(fd, READ_EVENT)])
      ensures NewOnly()
    {
      event := new Events(id, fd, READ_EVENT);
      heap := heap[id := event];
      state := state.(records := state.records[id := event.View()]);
    }

    method UpdateMask(event: Events, mask: Mask)
      requires Valid() && Known(event)
      modifies this`state, event`eorigin, event`state
      ensures Valid()
      ensures state == old(state).(records := old(state.records)[event.id :=
                EventRecords.UpdateEvents(old(state.records[event.id]), mask)])
    {
      event.UpdateEvents(mask);
      state := state.(records := state.records[event.id := event.View()]);
      ObjectChanged(event);
    }

    method DeleteMask(event: Events, mask: Mask)
      requires Valid() && Known(event)
      modifies this`state, event`eorigin, event`state
      ensures Valid()
      ensures state == old(state).(records := old(state.records)[event.id :=
                EventRecords.DeleteEvent(old(state.records[event.id]), mask)])
    {
      event.DeleteEvent(mask);
      state := state.(records := state.records[event.id := event.View()]);
      ObjectChanged(event);
    }

    method MarkDeleted(event: Events)
      requires Valid() && Known(event)
      modifies this`state, event`state
      ensures Valid()
      ensures state == old(state).(records := old(state.records)[event.id :=
                old(state.records[event.id]).(state := Del)])
    {
      event.SetState(Del);
      state := state.(records := state.records[event.id := event.View()]);
      ObjectChanged(event);
    }

    // ---- EventLoop ----

    /** events_[event->getFd()] = event */
    method Insert(event: Events)
      requires Valid() && Known(event)
      modifies this`state, this`events
      ensures Valid() && state == old(state).(events := old(state.events)[event.fd := event.id])
    {
      events := events[event.fd := event];
      state := state.(events := state.events[event.fd := event.id]);
    }

    method Erase(fd: Fd)
      requires Valid()
      modifies this`state, this`events
      ensures Valid() && state == old(state).(events := old(state.events) - {fd})
    {
      events := events - {fd};
      state := state.(events := state.events - {fd});
    }

    method AddInterest(event: Events)
      requires Valid() && Known(event)
      modifies this`state, kernel`interest
      ensures Valid() && state == EpollAdd(old(state), event.fd, event.eorigin)
    {
      var ok := kernel.EpollAdd(event.fd, event.eorigin);
      state := EpollAdd(state, event.fd, event.eorigin);
      RestChanged();
    }

    method ModInterest(event: Events)
      requires Valid() && Known(event)
      modifies this`state, kernel`interest
      ensures Valid() && state == EpollMod(old(state), event.fd, event.eorigin)
    {
      var ok := kernel.EpollMod(event.fd, event.eorigin);
      state := EpollMod(state, event.fd, event.eorigin);
      RestChanged();
    }

    method DelInterest(event: Events)
      requires Valid() && Known(event)
      modifies this`state, kernel`interest
      ensures Valid() && state == EpollDel(old(state), event.fd)
    {
      var ok := kernel.EpollDel(event.fd);
      state := EpollDel(state, event.fd);
      RestChanged();
    }

    method Register(event: Events)
      requires Valid() && Known(event)
      modifies this`state, this`events, kernel`interest
      ensures Valid()
      ensures state == Scheduler.Register(old(state), event.id)
    {
      assert event.View() == state.records[event.id];
      Insert(event);
      AddInterest(event);
    }

    method Remove(event: Events)
      requires Valid() && Known(event) && event.fd in events
      modifies this`state, this`events, kernel`interest
      ensures Valid() && state == Scheduler.Remove(old(state), event.fd)
    {
      DelInterest(event);
      assert event.fd in events;
      Erase(event.fd);
    }

    /** The assertions of pollUpdate hold, as they do whenever the scheduler calls it. */
    ghost predicate Updatable(event: Events)
      reads this`state, this`events, event
    {
      (event.state == New ==> event.fd !in events) && (event.state == Del ==> event.fd in events)
    }

    method PollUpdate(event: Events)
      requires Valid() && Known(event) && Updatable(event)
      modifies this`state, this`events, kernel`interest
      ensures Valid() && state == Scheduler.PollUpdate(old(state), event.id)
    {
      assert event.View() == state.records[event.id];
      if event.state == Invalid {
        return;
      }
      if event.state == New {
        assert event.fd !in events;
        Register(event);
      } else if event.state == Mod {
        if event.fd !in events {
          Register(event);
        } else {
          ModInterest(event);
        }
      } else if event.state == Del {
        Remove(event);
      }
    }

    /** EventLoop::updateEvents, reached through Eventsops::UpdateLoopEvents. */
    method UpdateEvents(event: Events)
      requires Valid() && Known(event) && Updatable(event)
      modifies this`state, this`events, kernel`interest
      ensures Valid() && state == Scheduler.PollUpdate(old(state), event.id)
    {
      assert event.View() == state.records[event.id];
      if event.state != Invalid {
        PollUpdate(event);
      }
    }

    method GetEvents(fd: Fd) returns (event: Events?)
      requires Valid()
      ensures event == if fd in events then events[fd] else null
    {
      if fd in events {
        return events[fd];
      }
      return null;
    }

    // ---- Mcosops and the loop ----

    method SetCurrent(mco: McoRoutine?)
      requires Valid()
      modifies this`state, pool`cur
      ensures Valid() && state == old(state).(cur := IdOf(mco)) && pool.cur == mco
    {
      pool.SetCurMco(mco);
      state := state.(cur := IdOf(mco));
      RestChanged();
    }

    ghost method SetLoopMco(mco: Option<Id>)
      requires Valid()
      modifies this`state
      ensures Valid() && state == old(state).(loopMco := mco)
    {
      state := state.(loopMco := mco);
      RestChanged();
    }

    /** The engine is called. */
    ghost method Record(a: Act)
      requires Valid()
      modifies this`state
      ensures Valid() && state == Engine(old(state), a)
      ensures unchanged(this`heap)
    {
      state := Engine(state, a);
      RestChanged();
    }

    /** Mcosops::Resume; the resume itself is up to the engine. */
    method MakeCurrent(mco: McoRoutine)
      requires Ok()
      modifies this`state, pool`cur
      ensures Ok() && state == ResumeMco(old(state), mco.id)
      ensures pool.cur == mco && pool.fdMcos == old(pool.fdMcos)
    {
      assert InLoop(0);
      SetLoopMco(Some(mco.id));
      SetCurrent(mco);
      Record(Act.Resume(mco.id));
    }

    method PopFrame(mco: Id) returns (event: Events)
      requires Valid() && mco in frames
      modifies this`state, this`frames
      ensures Valid() && Known(event) && event.id == old(state.frames[mco].event)
      ensures state == old(state).(frames := old(state.frames) - {mco})
    {
      event := frames[mco].event;
      frames := frames - {mco};
      state := state.(frames := state.frames - {mco});
    }

    method PushFrame(mco: Id, fd: Fd, event: Events)
      requires Valid() && Known(event)
      modifies this`state, this`frames
      ensures Valid() && state == old(state).(frames := old(state.frames)[mco := Frame(fd, event.id)])
    {
      frames := frames[mco := Locals(fd, event)];
      state := state.(frames := state.frames[mco := Frame(fd, event.id)]);
    }

    /** read and accept after their Yield. */
    method Withdraw(mco: Id)
      requires Valid() && mco in frames
      modifies this`state, this`frames, this`events, kernel`interest, heap.Values
      ensures Valid() && state == Withdrawn(old(state), mco)
    {
      var event := PopFrame(mco);
      DeleteMask(event, READ_EVENT);
      UpdateEvents(event);
    }

    /** What mco does first when it gets control, or its resumer if it does not. */
    method GoOn(mco: Id, runs: bool)
      requires Ok() && runs == Runs(state, mco)
      modifies Footprint()
      ensures Ok() && state == AfterResume(old(state), mco) && unchanged(pool)
      ensures NewOnly()
    {
      assert InLoop(0);
      if !runs {
        SetLoopMco(None);
      } else if mco in frames {
        Withdraw(mco);
      }
    }

    /** setMutable and eventHandleAble */
    method Note(event: Events, mask: Mask) returns (handle: bool)
      requires Valid() && Known(event)
      modifies this`state, event`reported, event`state
      ensures Valid()
      ensures var e := old(state.records[event.id]).(reported := mask);
        && state == old(state).(records := old(state.records)[event.id := EventRecords.HandleAble(e).0])
        && handle == EventRecords.HandleAble(e).1
    {
      event.SetMutable(mask);
      handle := event.HandleAble();
      state := state.(records := state.records[event.id := event.View()]);
      ObjectChanged(event);
    }

    /** The body of the loop for one report, up to the resume: the coroutine to resume, if any. */
    method Serve(fd: Fd, mask: Mask) returns (mco: McoRoutine?)
      requires Ok() && (fd in state.events ==> FdAgrees(state, fd))
      modifies Footprint()
      ensures Ok() && unchanged(pool, kernel, this`heap) && state == Served(old(state), fd, mask)
      ensures mco != null <==> Resumes(old(state), fd, mask)
      ensures mco != null ==> fd in pool.fdMcos && mco == pool.fdMcos[fd] && mco.id == state.fdMcos[fd]
    {
      assert InLoop(0);
      var event := GetEvents(fd);
      if event == null {
        return null;
      }
      assert event.View() == state.records[event.id];
      var handle := Note(event, mask);
      if !handle || wakeFd == event.fd {
        return null;
      }
      mco := pool.GetMcoRoutine(event.fd);
    }

    // ---- the hooks ----

    method SetOwner(fd: Fd, mco: McoRoutine)
      requires Valid()
      modifies this`state, pool`fdMcos
      ensures Valid() && state == old(state).(fdMcos := old(state.fdMcos)[fd := mco.id])
      ensures pool.fdMcos == old(pool.fdMcos)[fd := mco]
    {
      pool.SetMcoRoutine(fd, mco);
      state := state.(fdMcos := state.fdMcos[fd := mco.id]);
      RestChanged();
    }

    /** The registered Events object of fd, or else a new one. */
    method EventsOf(fd: Fd, made: Ev) returns (event: Events)
      requires Valid() && made !in heap
      modifies this`state, this`heap
      ensures Valid() && Known(event) && event.id == EventAt(old(state), fd, made)
      ensures state == if fd in events then old(state)
                       else old(state).(records := old(state.records)[made := NewEvent(fd, READ_EVENT)])
      ensures fd !in events ==> fresh(event)
      ensures NewOnly()
    {
      var registered := GetEvents(fd);
      if registered == null {
        event := MakeEvents(made, fd);
      } else {
        event := registered;
      }
    }

    method Ask(event: Events)
      requires Valid() && Known(event)
      modifies this`state, this`events, kernel`interest, event`eorigin, event`state
      ensures Valid()
      ensures state == Update(old(state), event.id,
                              EventRecords.UpdateEvents(old(state.records[event.id]), READ_EVENT))
    {
      UpdateMask(event, READ_EVENT);
      UpdateEvents(event);
    }

    method AskFor(fd: Fd, made: Ev) returns (event: Events)
      requires Valid() && made !in heap
      modifies this`state, this`events, this`heap, kernel`interest, heap.Values
      ensures Valid() && Known(event) && event.id == EventAt(old(state), fd, made)
      ensures state == Asked(old(state), fd, made)
      ensures NewOnly()
    {
      event := EventsOf(fd, made);
      ghost var e := state.records[event.id];
      UpdateTwice(old(state.records), event.id, e, EventRecords.UpdateEvents(e, READ_EVENT));
      Ask(event);
    }

    method MakeRegistered(fd: Fd, made: Ev) returns (event: Events)
      requires Valid() && made !in heap && fd !in events
      modifies this`state, this`events, this`heap, kernel`interest
      ensures Valid() && fresh(event) && event.id == made && Known(event)
      ensures state == Update(old(state), made, NewEvent(fd, READ_EVENT))
      ensures NewOnly()
    {
      event := MakeEvents(made, fd);
      UpdateEvents(event);
    }

    method Take(fd: Fd, mco: McoRoutine, made: Ev) returns (event: Events)
      requires Valid() && made !in heap && fd !in events
      modifies this`state, this`events, this`heap, kernel`interest, pool`fdMcos
      ensures Valid() && event.id == made && Known(event)
      ensures state == Taken(old(state), fd, mco.id, made) && pool.fdMcos == old(pool.fdMcos)[fd := mco]
      ensures NewOnly()
    {
      SetOwner(fd, mco);
      event := MakeRegistered(fd, made);
    }

    method ParkFrame(mco: Id, fd: Fd, event: Events)
      requires Valid() && Known(event)
      modifies this`state, this`frames
      ensures Valid() && state == Parked(old(state), mco, fd, event.id)
      ensures unchanged(this`heap)
    {
      PushFrame(mco, fd, event);
      Hooked(fd);
    }

    /** Control is about to leave the hook; what resumed the coroutine gives it up. */
    ghost method Hooked(fd: Fd)
      requires Valid()
      modifies this`state
      ensures Valid() && state == old(state).(loopMco := None, hooked := old(state.hooked) + {fd})
    {
      state := state.(loopMco := None, hooked := state.hooked + {fd});
      RestChanged();
    }

    method ArmOwned(fd: Fd, ghost mco: Id, made: Ev) returns (event: Events)
      requires Valid() && made !in heap && fd in state.fdMcos
      modifies this`state, this`events, this`heap, kernel`interest, heap.Values
      ensures Valid() && Known(event) && NewOnly()
      ensures event.id == WaitedEvent(old(state), fd, made) && state == Asking(old(state), fd, mco, made)
    {
      event := AskFor(fd, made);
    }

    method ArmUnowned(fd: Fd, mco: McoRoutine, made: Ev) returns (event: Events)
      requires Valid() && made !in heap && fd !in state.fdMcos && fd !in events
      modifies this`state, this`events, this`heap, kernel`interest, pool`fdMcos
      ensures Valid() && Known(event) && NewOnly() && pool.fdMcos == old(pool.fdMcos)[fd := mco]
      ensures event.id == WaitedEvent(old(state), fd, made) && state == Asking(old(state), fd, mco.id, made)
    {
      event := Take(fd, mco, made);
    }

    /** The Events object of the wait, registered and asking for reading. */
    method Arm(fd: Fd, mco: McoRoutine, made: Ev) returns (event: Events)
      requires Valid() && made !in heap && (fd !in pool.fdMcos ==> fd !in events)
      modifies this`state, this`events, this`heap, kernel`interest, pool`fdMcos, heap.Values
      ensures Valid() && Known(event) && NewOnly()
      ensures event.id == WaitedEvent(old(state), fd, made) && state == Asking(old(state), fd, mco.id, made)
      ensures pool.fdMcos == old(pool.fdMcos) || pool.fdMcos == old(pool.fdMcos)[fd := mco]
    {
      if fd in pool.fdMcos {
        event := ArmOwned(fd, mco.id, made);
      } else {
        event := ArmUnowned(fd, mco, made);
      }
    }

    /** Everything read and accept do before their Yield. */
    method Prepare(fd: Fd, mco: McoRoutine, made: Ev)
      requires Valid() && made !in heap && (fd !in pool.fdMcos ==> fd !in events)
      modifies this`state, this`events, this`heap, this`frames, kernel`interest, pool`fdMcos, heap.Values
      ensures Valid() && NewOnly()
      ensures state == Parked(Asking(old(state), fd, mco.id, made), mco.id, fd, WaitedEvent(old(state), fd, made))
      ensures pool.fdMcos == old(pool.fdMcos) || pool.fdMcos == old(pool.fdMcos)[fd := mco]
    {
      var event := Arm(fd, mco, made);
      ParkFrame(mco.id, fd, event);
    }

    /** read and accept of the current coroutine on a descriptor that blocks, up to their Yield; the yield
        itself is up to the engine. */
    method HookedWait(fd: Fd, made: Ev)
      requires Ok() && made !in state.records && (fd !in state.fdMcos ==> fd !in state.events) && pool.cur != null
      modifies Footprint()
      ensures Ok() && NewOnly() && state == Scheduler.HookedWait(old(state), fd, made)
      ensures unchanged(pool`cur) && Owners(old(pool.fdMcos), fd)
    {
      assert InLoop(0);
      var mco := pool.cur;
      Prepare(fd, mco, made);
      Record(Act.Yield(mco.id));
    }

    /** fdMcos_ was before, or the current coroutine became the owner of fd. */
    ghost predicate Owners(before: map<Fd, McoRoutine>, fd: Fd)
      reads pool
    {
      pool.fdMcos == before || (pool.cur != null && pool.fdMcos == before[fd := pool.cur])
    }

    method ForgetOwner(fd: Fd)
      requires Valid() && OneObject(fd)
      modifies this`state, pool
      ensures Valid() && state == Forget(old(state), fd)
      ensures pool.fdMcos == old(pool.fdMcos) - {fd} && (pool.cur == null || pool.cur == old(pool.cur))
      ensures unchanged(this`heap)
    {
      var fdmco := pool.GetMcoRoutine(fd);
      if pool.cur == fdmco {
        pool.SetCurMco(null);
      }
      var removed := pool.RemoveMcoRoutine(fd);
      state := Forget(state, fd);
      RestChanged();
    }

    method UniClose(fd: Fd)
      requires Valid()
      modifies this`state, kernel
      ensures Valid() && state == RealClose(old(state), fd)
      ensures unchanged(this`heap)
    {
      kernel.Close(fd);
      state := RealClose(state, fd);
      RestChanged();
    }

    /** Eventsops::RemoveEventFromLoop */
    method RemoveEventFromLoop(event: Events)
      requires Valid() && Known(event) && event.fd in events
      modifies this`state, this`events, kernel`interest, event`state
      ensures Valid()
      ensures state == Update(old(state), event.id, old(state.records[event.id]).(state := Del))
      ensures unchanged(this`heap)
    {
      MarkDeleted(event);
      UpdateEvents(event);
    }

    /** close */
    method Close(fd: Fd)
      requires Ok() && (fd in state.events ==> FdAgrees(state, fd)) && OneObject(fd)
      modifies Footprint()
      ensures Ok() && state == HookedClose(old(state), fd)
      ensures pool.fdMcos == old(pool.fdMcos) - {fd} && (pool.cur == null || pool.cur == old(pool.cur))
      ensures NewOnly()
    {
      assert InLoop(0);
      assert fd in events ==> events[fd].View() == state.records[events[fd].id];
      ForgetOwner(fd);
      var event := GetEvents(fd);
      if event != null {
        RemoveEventFromLoop(event);
      } else {
        UniClose(fd);
      }
    }

    /** If the owner of fd has the address of the current coroutine, it is that coroutine. */
    ghost predicate OneObject(fd: Fd)
      reads pool
    {
      pool.cur != null && fd in pool.fdMcos && pool.cur.id == pool.fdMcos[fd].id ==> pool.cur == pool.fdMcos[fd]
    }

    method Delete(event: Events)
      requires Valid() && Known(event)
      requires event.id !in state.events.Values
      requires forall mco | mco in state.frames :: state.frames[mco].event != event.id
      modifies this`state, this`heap
      ensures Valid() && state == old(state).(records := old(state.records) - {event.id})
      ensures NewOnly()
    {
      heap := heap - {event.id};
      state := state.(records := state.records - {event.id});
    }

    /** The destructor of Events, when the last reference is dropped. */
    method Destroy(id: Ev)
      requires Ok() && id in state.records && id !in state.events.Values
      requires forall mco | mco in state.frames :: state.frames[mco].event != id
      modifies Footprint()
      ensures Ok() && unchanged(pool)
      ensures state == RealClose(old(state).(records := old(state.records) - {id}), old(state.records)[id].fd)
      ensures NewOnly()
    {
      assert InLoop(0);
      var event := heap[id];
      assert event.View() == state.records[id];
      Delete(event);
      UniClose(event.fd);
    }

    /** The system issues a descriptor. */
    method Open(fd: Fd)
      requires Ok()
      modifies Footprint()
      ensures Ok() && unchanged(pool)
      ensures state == old(state).(open := old(state.open) + {fd}, user := old(state.user) + {fd},
                                   openings := old(state.openings) + multiset{fd})
      ensures NewOnly()
    {
      assert InLoop(0);
      kernel.Open(fd);
      state := state.(open := state.open + {fd}, user := state.user + {fd}, openings := state.openings + multiset{fd});
      RestChanged();
    }

    /** The callback of mco holds event, or its callback is destroyed. */
    ghost method Bind(bound: map<Id, Ev>)
      requires Valid()
      modifies this`state
      ensures Valid() && state == old(state).(bound := bound)
    {
      state := state.(bound := bound);
      RestChanged();
    }

    /** As TcpServer does for a new descriptor and the coroutine made for it: the coroutine is known before the
        loop can report the descriptor. */
    method Spawn(fd: Fd, mco: McoRoutine, made: Ev, ghost bound: map<Id, Ev>)
      requires Ok() && made !in state.records && fd !in state.events
      modifies Footprint()
      ensures Ok() && pool.fdMcos == old(pool.fdMcos)[fd := mco] && unchanged(pool`cur)
      ensures state == Taken(Engine(old(state), Act.Create(mco.id, false)).(bound := bound), fd, mco.id, made)
      ensures NewOnly()
    {
      assert InLoop(0);
      Record(Act.Create(mco.id, false));
      Bind(bound);
      var event := Take(fd, mco, made);
    }

    /** The engine is called for something that concerns the loop no further than this. */
    ghost method Called(a: Act, loopMco: Option<Id>, bound: map<Id, Ev>)
      requires Ok()
      modifies this`state
      ensures Ok() && state == Engine(old(state).(loopMco := loopMco, bound := bound), a)
    {
      assert InLoop(0);
      SetLoopMco(loopMco);
      Bind(bound);
      Record(a);
    }
  }

  /** The registered object of fd is for fd. */
  predicate FdAgrees(t: Thread, fd: Fd)
    requires fd in t.events
  {
    t.events[fd] in t.records && t.records[t.events[fd]].fd == fd
  }
}
