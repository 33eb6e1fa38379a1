/** What every happening on a scheduler's thread keeps. */
module SchedulerInvariant {
  import opened Prelude
  import opened EventRecords
  import opened Scheduler
  import Spec = PrivateStacks

  function Coroutines(m: Spec.Machine): set<Id> {
    m.tasks.Keys - {m.main}
  }

  /** The coroutines that have started and are neither running nor finished. */
  function Waiting(m: Spec.Machine): set<Id> {
    set mco | mco in m.tasks && mco != m.main && m.tasks[mco].status == Spec.Started && mco !in m.stack
  }

  /** Either the thread's own flow runs, or a coroutine that it resumed. */
  predicate SysOk(m: Spec.Machine) {
    && m.main in m.tasks
    && (m.stack == [m.main] || (|m.stack| == 2 && m.stack == [m.main, Spec.Top(m)]))
    && (|m.stack| == 2 ==> Spec.Top(m) in Coroutines(m) && m.tasks[Spec.Top(m)].status == Spec.Started)
  }

  /** The running coroutine is held by the frame that resumed it, and is current, or nothing is. */
  predicate CurOk(t: Thread) {
    && (t.cur.Some? ==> t.cur.value in Coroutines(t.sys))
    && (if |t.sys.stack| == 2 then t.loopMco == Some(Spec.Top(t.sys)) && (t.cur == None || t.cur == t.loopMco)
        else t.loopMco == None)
  }

  /** events_ and the interest set agree about fd. */
  predicate RegisteredOk(t: Thread, fd: Fd)
    requires fd in t.events
  {
    && t.events[fd] in t.records
    && var e := t.records[t.events[fd]];
       e.fd == fd && (e.state == New || e.state == Mod)
       && fd in t.interest && t.interest[fd] == e.eorigin
  }

  predicate LoopOk(t: Thread) {
    && t.faults == 0
    && (forall fd | fd in t.events :: RegisteredOk(t, fd))
    && t.interest.Keys == t.events.Keys
    && t.wakeFd in t.events && t.wakeFd !in t.user && t.interest[t.wakeFd] == READ_EVENT
  }

  /** An Events object is the only one for its descriptor, which stays open; of a descriptor the program
      uses it is the registered one. */
  predicate RecordOk(t: Thread, event: Ev)
    requires event in t.records
  {
    var fd := t.records[event].fd;
    && fd in t.open
    && (fd in t.user ==> fd in t.events && t.events[fd] == event)
    && (forall other | other in t.records && t.records[other].fd == fd :: other == event)
  }

  predicate RecordsOk(t: Thread) {
    && (forall event | event in t.records :: RecordOk(t, event))
    && (forall mco | mco in t.bound :: t.bound[mco] in t.records)
    && t.user <= t.open
  }

  /** A descriptor the program uses belongs to a coroutine exactly when it is registered. */
  predicate OwnersOk(t: Thread) {
    && t.fdMcos.Keys == t.user * t.events.Keys
    && t.fdMcos.Values <= Coroutines(t.sys)
    && t.bound.Keys <= Coroutines(t.sys)
  }

  /** What is registered while mco waits: reading, for mco; nothing, if someone closed the descriptor. */
  predicate FrameOk(t: Thread, mco: Id)
    requires mco in t.frames
  {
    var f := t.frames[mco];
    && f.fd != t.wakeFd && f.event in t.records && t.records[f.event].fd == f.fd
    && (if f.fd in t.user then
          f.fd in t.fdMcos && t.fdMcos[f.fd] == mco && t.records[f.event].eorigin == READ_EVENT
        else
          t.records[f.event].state == Del && f.fd !in t.events)
    && (forall other | other in t.frames && t.frames[other].event == f.event :: other == mco)
  }

  predicate FramesOk(t: Thread) {
    t.frames.Keys == Waiting(t.sys) && forall mco | mco in t.frames :: FrameOk(t, mco)
  }

  predicate WaitsOn(t: Thread, mco: Id, fd: Fd) {
    mco in t.frames && t.frames[mco].fd == fd
  }

  /** Once a hook has waited on fd, the kernel watches it exactly while its owner waits on it. */
  predicate HookedOk(t: Thread, fd: Fd) {
    && fd in t.fdMcos && fd in t.interest
    && t.interest[fd] == (if WaitsOn(t, t.fdMcos[fd], fd) then READ_EVENT else NONE_EVENT)
  }

  predicate TablesOk(t: Thread) {
    && LoopOk(t) && RecordsOk(t) && (forall fd | fd in t.hooked :: HookedOk(t, fd))
    && t.openings == t.closings + multiset(t.open)
  }

  predicate Inv(t: Thread) {
    SysOk(t.sys) && CurOk(t) && OwnersOk(t) && FramesOk(t) && TablesOk(t)
  }

  lemma StartOk(main: Id, size: nat, live: Bytes, wakeFd: Fd, wakeEvent: Ev)
    ensures Inv(Start(main, size, live, wakeFd, wakeEvent))
  {
  }

  // ---- the coroutines ----

  lemma CreateSys(m: Spec.Machine, mco: Id)
    requires SysOk(m) && mco !in m.tasks
    ensures var n := Spec.WithFresh(m, mco, false);
      SysOk(n) && Coroutines(n) == Coroutines(m) + {mco} && Waiting(n) == Waiting(m)
  {
  }

  lemma ResumeSys(m: Spec.Machine, mco: Id)
    requires SysOk(m) && m.stack == [m.main] && mco in Coroutines(m)
    ensures Spec.Legal(m, Resume(mco))
    ensures var n := Spec.Step(m, Resume(mco));
      && SysOk(n) && n.main == m.main && Coroutines(n) == Coroutines(m) && Waiting(n) == Waiting(m) - {mco}
      && n == if m.tasks[mco].status == Spec.Finished then m else Spec.Pushed(m, mco)
  {
  }

  lemma LeaveSys(m: Spec.Machine, over: bool)
    requires SysOk(m) && |m.stack| == 2
    ensures var n := Spec.Popped(m, over);
      && SysOk(n) && n.main == m.main && n.stack == [m.main] && Coroutines(n) == Coroutines(m)
      && Waiting(n) == if over then Waiting(m) else Waiting(m) + {Spec.Top(m)}
  {
  }

  lemma FreeSys(m: Spec.Machine, mco: Id)
    requires SysOk(m) && mco in Coroutines(m) && mco !in m.stack && mco !in Waiting(m)
    ensures var n := Spec.Without(m, mco);
      SysOk(n) && Coroutines(n) == Coroutines(m) - {mco} && Waiting(n) == Waiting(m)
  {
  }

  lemma WorkSys(m: Spec.Machine, live: Bytes)
    requires SysOk(m)
    ensures var n := Spec.WithLive(m, live);
      SysOk(n) && Coroutines(n) == Coroutines(m) && Waiting(n) == Waiting(m)
  {
  }

  /** From t to u only the coroutines changed, and who is current and who holds what. */
  predicate SameTables(t: Thread, u: Thread) {
    u == t.(sys := u.sys, calls := u.calls, cur := u.cur, loopMco := u.loopMco, bound := u.bound)
  }

  lemma TablesFrame(t: Thread, u: Thread)
    requires TablesOk(t) && SameTables(t, u)
    requires forall mco | mco in u.bound :: mco in t.bound && u.bound[mco] == t.bound[mco]
    ensures TablesOk(u)
  {
  }

  lemma FramesFrame(t: Thread, u: Thread)
    requires FramesOk(t) && SameTables(t, u) && Waiting(u.sys) == Waiting(t.sys)
    ensures FramesOk(u)
  {
  }

  lemma FinishShape(t: Thread)
    requires SysOk(t.sys) && |t.sys.stack| == 2
    ensures var u := Engine(t.(loopMco := None), Finish);
      && u == t.(sys := Spec.Popped(t.sys, true), calls := u.calls, loopMco := None)
      && SysOk(u.sys) && u.sys.stack == [u.sys.main]
      && Coroutines(u.sys) == Coroutines(t.sys) && Waiting(u.sys) == Waiting(t.sys)
  {
    LeaveSys(t.sys, true);
  }

  lemma ReturnOk(t: Thread)
    requires Inv(t) && |t.sys.stack| == 2
    ensures Inv(Engine(t.(loopMco := None), Finish))
  {
    var u := Engine(t.(loopMco := None), Finish);
    FinishShape(t);
    TablesFrame(t, u);
    FramesFrame(t, u);
  }

  lemma ComputeOk(t: Thread, live: Bytes, scribble: Bytes)
    requires Inv(t) && Spec.Wf(t.sys) && Spec.Legal(t.sys, Work(live, scribble))
    ensures Inv(Engine(t, Work(live, scribble)))
  {
    var u := Engine(t, Work(live, scribble));
    WorkSys(t.sys, live);
    assert u.sys == Spec.WithLive(t.sys, live);
    TablesFrame(t, u);
    FramesFrame(t, u);
  }

  lemma ReclaimOk(t: Thread, mco: Id)
    requires Inv(t) && mco in Coroutines(t.sys) && !McoHeld(t, mco)
    ensures Inv(Engine(t.(bound := t.bound - {mco}), Free(mco)))
  {
    var u := Engine(t.(bound := t.bound - {mco}), Free(mco));
    FreeSys(t.sys, mco);
    assert u.sys == Spec.Without(t.sys, mco);
    TablesFrame(t, u);
    FramesFrame(t, u);
  }

  // ---- the tables of the loop ----

  predicate RegistersOk(t: Thread) {
    LoopOk(t) && RecordsOk(t)
  }

  /** A new Events object for a descriptor that the program uses and that is not registered. */
  lemma UpdateNew(t: Thread, event: Ev, e: Event)
    requires RegistersOk(t) && event !in t.records && e.state == New && e.fd in t.user && e.fd !in t.events
    ensures var u := Update(t, event, e);
      && u == t.(records := t.records[event := e], events := t.events[e.fd := event],
                 interest := t.interest[e.fd := e.eorigin])
      && RegistersOk(u)
  {
    var u := Update(t, event, e);
    forall x | x in u.records ensures RecordOk(u, x) {
      assert x != event ==> RecordOk(t, x);
    }
    forall fd | fd in u.events ensures RegisteredOk(u, fd) {
      assert fd != e.fd ==> RegisteredOk(t, fd);
    }
  }

  /** An Events object is modified: it is or becomes the registered one of its descriptor. */
  lemma UpdateMod(t: Thread, event: Ev, e: Event)
    requires RegistersOk(t) && event in t.records && e.state == Mod && e.fd == t.records[event].fd
    requires e.fd != t.wakeFd && (e.fd in t.events ==> t.events[e.fd] == event)
    ensures var u := Update(t, event, e);
      && u == t.(records := t.records[event := e], events := t.events[e.fd := event],
                 interest := t.interest[e.fd := e.eorigin])
      && RegistersOk(u)
  {
    var u := Update(t, event, e);
    assert RecordOk(t, event);
    assert e.fd in t.events ==> t.events[e.fd := event] == t.events;
    forall x | x in u.records ensures RecordOk(u, x) {
      assert RecordOk(t, x);
    }
    forall fd | fd in u.events ensures RegisteredOk(u, fd) {
      assert fd != e.fd ==> RegisteredOk(t, fd);
    }
  }

  /** An Events object of a descriptor that the program has given up is deleted. */
  lemma UpdateDel(t: Thread, event: Ev, e: Event)
    requires RegistersOk(t) && event in t.records && e.state == Del && e.fd == t.records[event].fd
    requires e.fd !in t.user && e.fd in t.events && t.events[e.fd] == event && e.fd != t.wakeFd
    ensures var u := Update(t, event, e);
      && u == t.(records := t.records[event := e], events := t.events - {e.fd}, interest := t.interest - {e.fd})
      && RegistersOk(u)
  {
  }

  /** What eventHandleAble does to an Events object concerns neither its descriptor nor its mask. */
  lemma ReportKeeps(t: Thread, event: Ev, e: Event)
    requires Inv(t) && event in t.records && e.fd == t.records[event].fd
    requires e.eorigin == t.records[event].eorigin && e.state == t.records[event].state
    ensures Inv(t.(records := t.records[event := e]))
  {
    var u := t.(records := t.records[event := e]);
    forall x | x in u.records ensures RecordOk(u, x) {
      assert RecordOk(t, x);
    }
    forall fd | fd in u.events ensures RegisteredOk(u, fd) {
      assert RegisteredOk(t, fd);
    }
    forall mco | mco in u.frames ensures FrameOk(u, mco) {
      assert FrameOk(t, mco);
    }
    forall fd | fd in u.hooked ensures HookedOk(u, fd) {
      assert HookedOk(t, fd);
    }
  }

  // ---- Open, Destroy, Spawn, Close ----

  lemma OpenOk(t: Thread, fd: Fd)
    requires Inv(t) && fd !in t.open
    ensures Inv(Happen(t, Open(fd)))
  {
  }

  lemma DestroyOk(t: Thread, event: Ev)
    requires Inv(t) && Possible(t, Destroy(event))
    ensures Inv(Happen(t, Destroy(event)))
  {
    var fd := t.records[event].fd;
    assert RecordOk(t, event);
    assert fd !in t.events by {
      assert fd in t.events ==> RegisteredOk(t, fd);
    }
    RemoveRecord(t, event);
  }

  /** An Events object that nobody holds is destroyed. */
  lemma RemoveRecord(t: Thread, event: Ev)
    requires Inv(t) && event in t.records && !EventHeld(t, event) && t.records[event].fd !in t.events
    ensures Inv(RealClose(t.(records := t.records - {event}), t.records[event].fd))
  {
    var u := RealClose(t.(records := t.records - {event}), t.records[event].fd);
    assert u.interest == t.interest;
    assert RecordOk(t, event);
    forall x | x in u.records ensures RecordOk(u, x) {
      assert RecordOk(t, x);
    }
    forall x | x in u.events ensures RegisteredOk(u, x) {
      assert RegisteredOk(t, x);
    }
    forall mco | mco in u.frames ensures FrameOk(u, mco) {
      assert FrameOk(t, mco);
    }
    forall x | x in u.hooked ensures HookedOk(u, x) {
      assert HookedOk(t, x);
    }
  }

  lemma CreateOk(t: Thread, mco: Id)
    requires Inv(t) && mco !in t.sys.tasks
    ensures var u := Engine(t, Create(mco, false));
      Inv(u) && u == t.(calls := u.calls, sys := Spec.WithFresh(t.sys, mco, false)) && mco in Coroutines(u.sys)
  {
    var u := Engine(t, Create(mco, false));
    CreateSys(t.sys, mco);
    TablesFrame(t, u);
    FramesFrame(t, u);
  }

  lemma AssignShape(t: Thread, fd: Fd, mco: Id, event: Ev, bound: map<Id, Ev>)
    requires RegistersOk(t) && fd in t.user && fd !in t.events && event !in t.records
    requires bound == t.bound || bound == t.bound[mco := event]
    ensures var u := Update(t.(fdMcos := t.fdMcos[fd := mco], bound := bound), event, NewEvent(fd, READ_EVENT));
      && RegistersOk(u)
      && u == t.(records := t.records[event := NewEvent(fd, READ_EVENT)], events := t.events[fd := event],
                 interest := t.interest[fd := READ_EVENT], fdMcos := t.fdMcos[fd := mco], bound := bound)
  {
    var e := NewEvent(fd, READ_EVENT);
    var v := Update(t, event, e);
    UpdateNew(t, event, e);
    var u := Update(t.(fdMcos := t.fdMcos[fd := mco], bound := bound), event, e);
    assert u == v.(fdMcos := t.fdMcos[fd := mco], bound := bound);
    forall x | x in u.records ensures RecordOk(u, x) {
      assert RecordOk(v, x);
    }
    forall x | x in u.events ensures RegisteredOk(u, x) {
      assert RegisteredOk(v, x);
    }
  }

  /** A coroutine is given a descriptor of its own. */
  lemma AssignOk(t: Thread, fd: Fd, mco: Id, event: Ev, bound: map<Id, Ev>)
    requires Inv(t) && fd in t.user && fd !in t.fdMcos && mco in Coroutines(t.sys) && event !in t.records
    requires bound == t.bound || bound == t.bound[mco := event]
    ensures var u := Update(t.(fdMcos := t.fdMcos[fd := mco], bound := bound), event, NewEvent(fd, READ_EVENT));
      Inv(u) && u == t.(records := t.records[event := NewEvent(fd, READ_EVENT)], events := t.events[fd := event],
                        interest := t.interest[fd := READ_EVENT], fdMcos := t.fdMcos[fd := mco], bound := bound)
  {
    AssignShape(t, fd, mco, event, bound);
    var u := Update(t.(fdMcos := t.fdMcos[fd := mco], bound := bound), event, NewEvent(fd, READ_EVENT));
    forall x | x in u.hooked ensures HookedOk(u, x) {
      assert HookedOk(t, x);
    }
    forall x | x in u.frames ensures FrameOk(u, x) {
      assert FrameOk(t, x);
    }
  }

  lemma SpawnOk(t: Thread, fd: Fd, mco: Id, event: Ev, binds: bool)
    requires Inv(t) && Possible(t, Spawn(fd, mco, event, binds))
    ensures Inv(Happen(t, Spawn(fd, mco, event, binds)))
  {
    CreateOk(t, mco);
    var s := Engine(t, Create(mco, false));
    AssignOk(s, fd, mco, event, if binds then s.bound[mco := event] else s.bound);
  }

  lemma ForgetOk(t: Thread, fd: Fd)
    requires Inv(t) && fd in t.user
    ensures RegistersOk(Forget(t, fd))
  {
  }

  lemma CloseRegistered(t: Thread, fd: Fd)
    requires Inv(t) && fd in t.user && fd in t.events
    ensures Inv(HookedClose(t, fd))
  {
    var s := Forget(t, fd);
    var event := t.events[fd];
    assert RegisteredOk(t, fd);
    ForgetOk(t, fd);
    UpdateDel(s, event, t.records[event].(state := Del));
    var u := HookedClose(t, fd);
    forall x | x in u.hooked ensures HookedOk(u, x) {
      assert HookedOk(t, x);
    }
    forall x | x in u.frames ensures FrameOk(u, x) {
      assert FrameOk(t, x) && RecordOk(t, t.frames[x].event);
    }
  }

  lemma ClosePlain(t: Thread, fd: Fd)
    requires Inv(t) && fd in t.user && fd !in t.events
    ensures Inv(HookedClose(t, fd))
  {
    var u := HookedClose(t, fd);
    ForgetOk(t, fd);
    assert u.interest == t.interest;
    forall x | x in u.records ensures RecordOk(u, x) {
      assert RecordOk(t, x);
    }
    forall x | x in u.events ensures RegisteredOk(u, x) {
      assert RegisteredOk(t, x);
    }
    forall x | x in u.hooked ensures HookedOk(u, x) {
      assert HookedOk(t, x);
    }
    forall x | x in u.frames ensures FrameOk(u, x) {
      assert FrameOk(t, x);
    }
  }

  // ---- Launch, Dispatch ----

  /** Mcosops::Resume from the thread's own flow: mco runs unless it is over. */
  lemma ResumeShape(t: Thread, mco: Id)
    requires SysOk(t.sys) && InMain(t) && mco in Coroutines(t.sys)
    ensures var u := ResumeMco(t, mco);
      && u == t.(sys := u.sys, calls := u.calls, cur := Some(mco), loopMco := Some(mco))
      && SysOk(u.sys) && Coroutines(u.sys) == Coroutines(t.sys) && Waiting(u.sys) == Waiting(t.sys) - {mco}
      && if t.sys.tasks[mco].status == Spec.Finished then u.sys == t.sys && !Runs(u, mco)
         else u.sys.stack == [t.sys.main, mco] && Runs(u, mco)
  {
  }

  lemma ResumeIdle(t: Thread, mco: Id)
    requires Inv(t) && InMain(t) && mco in Coroutines(t.sys) && mco !in t.frames
    ensures Inv(AfterResume(ResumeMco(t, mco), mco))
  {
    ResumeShape(t, mco);
    var r := ResumeMco(t, mco);
    var u := AfterResume(r, mco);
    assert u == if Runs(r, mco) then r else r.(loopMco := None);
    TablesFrame(t, u);
    FramesFrame(t, u);
  }

  lemma WithdrawShape(t: Thread, mco: Id)
    requires Inv(t) && mco in t.frames
    ensures t.frames[mco].event in t.records
    ensures var f := t.frames[mco];
      var e := DeleteEvent(t.records[f.event], READ_EVENT);
      && Withdrawn(t, mco) == t.(frames := t.frames - {mco}, records := t.records[f.event := e],
                                 events := t.events[f.fd := f.event], interest := t.interest[f.fd := e.eorigin])
      && e.fd == f.fd && e.state == Mod
      && (f.fd in t.user ==> t.fdMcos[f.fd] == mco && f.fd in t.events && e.eorigin == NONE_EVENT)
      && RegistersOk(Withdrawn(t, mco))
  {
    var f := t.frames[mco];
    assert FrameOk(t, mco);
    var e := DeleteEvent(t.records[f.event], READ_EVENT);
    assert RecordOk(t, f.event);
    UpdateMod(t, f.event, e);
    if f.fd in t.user {
      ReadWithdrawn(t.records[f.event]);
    }
    RegistersFrame(Update(t, f.event, e), Withdrawn(t, mco));
  }

  lemma RegistersFrame(v: Thread, u: Thread)
    requires RegistersOk(v)
    requires u == v.(frames := u.frames, sys := u.sys, calls := u.calls, loopMco := u.loopMco, hooked := u.hooked)
    ensures RegistersOk(u)
  {
  }

  lemma Withdraw(t: Thread, mco: Id)
    requires Inv(t) && mco in t.frames
    ensures t.frames[mco].event in t.records
    ensures var u := Withdrawn(t, mco);
      TablesOk(u) && OwnersOk(u) && forall x | x in u.frames :: FrameOk(u, x)
  {
    var f := t.frames[mco];
    WithdrawShape(t, mco);
    var u := Withdrawn(t, mco);
    forall x | x in u.hooked ensures HookedOk(u, x) {
      assert HookedOk(t, x);
    }
    forall x | x in u.frames ensures FrameOk(u, x) {
      assert FrameOk(t, x) && FrameOk(t, mco);
    }
  }

  lemma ResumeWaiting(t: Thread, mco: Id)
    requires Inv(t) && InMain(t) && mco in t.frames
    ensures Inv(AfterResume(ResumeMco(t, mco), mco))
  {
    WithdrawShape(t, mco);
    Withdraw(t, mco);
    var v := Withdrawn(t, mco);
    ResumeShape(t, mco);
    var r := ResumeMco(t, mco);
    var u := AfterResume(r, mco);
    assert u == v.(sys := r.sys, calls := r.calls, cur := Some(mco), loopMco := Some(mco));
    TablesFrame(v, u);
    FramesSame(v, u);
  }

  lemma FramesSame(v: Thread, u: Thread)
    requires SameTables(v, u) && forall x | x in v.frames :: FrameOk(v, x)
    ensures forall x | x in u.frames :: FrameOk(u, x)
  {
  }

  lemma NotedOk(t: Thread, fd: Fd, mask: Mask)
    requires Inv(t) && fd in t.events
    ensures t.events[fd] in t.records && Inv(Noted(t, fd, mask))
  {
    assert RegisteredOk(t, fd);
    var e := t.records[t.events[fd]].(reported := mask);
    HandleAbleKeeps(e);
    ReportKeeps(t, t.events[fd], HandleAble(e).0);
  }

  lemma DispatchOk(t: Thread, fd: Fd, mask: Mask)
    requires Inv(t) && InMain(t)
    ensures Inv(Report(t, fd, mask))
  {
    if fd in t.events {
      NotedOk(t, fd, mask);
      var s := Noted(t, fd, mask);
      if fd in t.fdMcos {
        var mco := t.fdMcos[fd];
        if mco in t.frames { ResumeWaiting(s, mco); } else { ResumeIdle(s, mco); }
      }
    }
  }

  // ---- Wait ----

  /** The hook has registered its interest in fd, which belongs to the running coroutine. */
  predicate ParkReady(t: Thread, fd: Fd) {
    && Inv(t) && |t.sys.stack| == 2 && t.cur == Some(Spec.Top(t.sys)) && fd !in t.hooked
    && fd in t.fdMcos && t.fdMcos[fd] == t.cur.value && fd in t.events && t.interest[fd] == READ_EVENT
  }

  lemma ParkShape(t: Thread, fd: Fd)
    requires ParkReady(t, fd)
    ensures var u := Park(t, fd, t.events[fd]);
      && u == t.(sys := u.sys, calls := u.calls, loopMco := None, hooked := t.hooked + {fd},
                 frames := t.frames[t.cur.value := Frame(fd, t.events[fd])])
      && SysOk(u.sys) && InMain(u) && Coroutines(u.sys) == Coroutines(t.sys)
      && Waiting(u.sys) == Waiting(t.sys) + {t.cur.value} && CurOk(u)
  {
    LeaveSys(t.sys, false);
    var u := Park(t, fd, t.events[fd]);
    assert u.sys == Spec.Popped(t.sys, false);
  }

  lemma ParkFrames(t: Thread, u: Thread, mco: Id, fd: Fd, event: Ev)
    requires u == t.(sys := u.sys, calls := u.calls, loopMco := None, hooked := u.hooked,
                     frames := t.frames[mco := Frame(fd, event)])
    requires FramesOk(t) && mco !in t.frames && Waiting(u.sys) == Waiting(t.sys) + {mco}
    requires fd in t.fdMcos && t.fdMcos[fd] == mco && fd in t.user && fd != t.wakeFd
    requires event in t.records && t.records[event].fd == fd && t.records[event].eorigin == READ_EVENT
    ensures FramesOk(u)
  {
    forall x | x in u.frames ensures FrameOk(u, x) {
      if x != mco {
        assert FrameOk(t, x);
      }
    }
  }

  lemma ParkOk(t: Thread, fd: Fd)
    requires ParkReady(t, fd)
    ensures Inv(Park(t, fd, t.events[fd]))
  {
    ParkShape(t, fd);
    assert RegisteredOk(t, fd) && t.cur.value !in t.frames;
    var u := Park(t, fd, t.events[fd]);
    ParkFrames(t, u, t.cur.value, fd, t.events[fd]);
    ParkHooked(t, u, t.cur.value, fd, t.events[fd]);
    RegistersFrame(t, u);
  }

  lemma ParkHooked(t: Thread, u: Thread, mco: Id, fd: Fd, event: Ev)
    requires u.fdMcos == t.fdMcos && u.interest == t.interest && u.frames == t.frames[mco := Frame(fd, event)]
    requires u.hooked == t.hooked + {fd} && mco !in t.frames && forall x | x in t.hooked :: HookedOk(t, x)
    requires fd in t.fdMcos && t.fdMcos[fd] == mco && fd in t.interest && t.interest[fd] == READ_EVENT
    ensures forall x | x in u.hooked :: HookedOk(u, x)
  {
    forall x | x in u.hooked ensures HookedOk(u, x) {
      if x != fd {
        assert HookedOk(t, x);
      }
    }
  }

  /** The running coroutine asks for reading on its own descriptor. */
  lemma AskOk(t: Thread, fd: Fd)
    requires Inv(t) && |t.sys.stack| == 2 && fd in t.fdMcos && t.fdMcos[fd] == Spec.Top(t.sys)
    ensures fd in t.events && t.events[fd] in t.records
    ensures var event := t.events[fd];
      var v := Update(t, event, UpdateEvents(t.records[event], READ_EVENT)).(hooked := t.hooked - {fd});
      && Inv(v) && v == t.(records := v.records, interest := t.interest[fd := READ_EVENT], hooked := v.hooked)
  {
    var event := t.events[fd];
    assert RegisteredOk(t, fd);
    var e := UpdateEvents(t.records[event], READ_EVENT);
    UpdateMod(t, event, e);
    var u := Update(t, event, e);
    var v := u.(hooked := t.hooked - {fd});
    assert v.events == t.events;
    RegistersFrame(u, v);
    forall x | x in v.hooked ensures HookedOk(v, x) {
      assert HookedOk(t, x);
    }
    forall x | x in v.frames ensures FrameOk(v, x) {
      assert FrameOk(t, x);
    }
  }

  lemma WaitOk(t: Thread, fd: Fd, made: Ev)
    requires Inv(t) && |t.sys.stack| == 2 && fd in t.user && !Trips(t, fd) && made !in t.records
    ensures Inv(HookedWait(t, fd, made))
  {
    if fd in t.fdMcos {
      WaitOwnedOk(t, fd, made);
    } else if t.cur.Some? {
      WaitUnownedOk(t, fd, made);
    }
  }

  lemma WaitOwnedOk(t: Thread, fd: Fd, made: Ev)
    requires Inv(t) && |t.sys.stack| == 2 && fd in t.fdMcos && !Trips(t, fd)
    ensures Inv(HookedWait(t, fd, made))
  {
    AskOk(t, fd);
    var event := t.events[fd];
    var u := Update(t, event, UpdateEvents(t.records[event], READ_EVENT));
    var v := u.(hooked := t.hooked - {fd});
    ParkOk(v, fd);
    assert Park(u, fd, event) == Park(v, fd, event);
  }

  lemma WaitUnownedOk(t: Thread, fd: Fd, made: Ev)
    requires Inv(t) && |t.sys.stack| == 2 && fd in t.user && fd !in t.fdMcos && t.cur.Some? && made !in t.records
    ensures Inv(HookedWait(t, fd, made))
  {
    AssignOk(t, fd, t.cur.value, made, t.bound);
    var s := t.(fdMcos := t.fdMcos[fd := t.cur.value], bound := t.bound);
    assert s == t.(fdMcos := t.fdMcos[fd := t.cur.value]);
    ParkOk(Update(s, made, NewEvent(fd, READ_EVENT)), fd);
  }

  // ---- every run ----

  /** The main result: whatever happens keeps the invariant. */
  lemma HappenOk(t: Thread, h: Happening)
    requires Inv(t) && Possible(t, h)
    ensures Inv(Happen(t, h))
  {
    match h {
      case Open(fd) => OpenOk(t, fd);
      case Spawn(fd, mco, event, binds) => SpawnOk(t, fd, mco, event, binds);
      case Launch(mco) => CreateOk(t, mco); ResumeIdle(Engine(t, Create(mco, false)), mco);
      case Dispatch(fd, mask) => DispatchOk(t, fd, mask);
      case Wait(fd, event, plain) => if !plain { WaitOk(t, fd, event); }
      case Close(fd) => if fd in t.events { CloseRegistered(t, fd); } else { ClosePlain(t, fd); }
      case Compute(live, scribble) => ComputeOk(t, live, scribble);
      case Return => ReturnOk(t);
      case Reclaim(mco) => ReclaimOk(t, mco);
      case Destroy(event) => DestroyOk(t, event);
    }
  }

  lemma {:induction false} RunOk(t: Thread, hs: seq<Happening>)
    requires Inv(t) && PossibleRun(t, hs)
    ensures Inv(Run(t, hs))
    decreases |hs|
  {
    if hs != [] {
      HappenOk(t, hs[0]);
      RunOk(Happen(t, hs[0]), hs[1..]);
    }
  }
}
