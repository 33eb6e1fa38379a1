/** When coroutines are freed, descriptors are closed and registrations hold. */
module Lifetimes {
  import opened Prelude
  import opened EventRecords
  import opened Scheduler
  import opened SchedulerInvariant
  import opened Wakeups
  import Spec = PrivateStacks
  import McoEngine
  import EngineInvariant
  import Refinement

  // ---- coroutines ----

  /** Reference counting is enough: a coroutine that runs or is suspended is held, so what is reclaimed has
      never started or is finished, and it is not on the call stack. */
  lemma SuspendedIsHeld(t: Thread, mco: Id)
    requires Inv(t) && mco in Coroutines(t.sys) && (mco in t.sys.stack || t.sys.tasks[mco].status == Spec.Started)
    ensures McoHeld(t, mco)
  {
  }

  /** So McoFree, whatever the engine's state that serves the scheduler, never finds the coroutine running:
      it frees it. */
  lemma ReclaimFrees(t: Thread, mco: Id, s: McoEngine.State)
    requires Inv(t) && Possible(t, Reclaim(mco)) && EngineInvariant.Inv(s) && EngineInvariant.Abs(s) == t.sys
    ensures mco in s.cos && !s.cos[mco].running && mco !in s.callstack
    ensures var u := McoEngine.McoFree(s, mco);
      mco !in u.cos && EngineInvariant.Inv(u) && EngineInvariant.Abs(u) == Happen(t, Reclaim(mco)).sys
  {
    if mco in t.sys.stack || t.sys.tasks[mco].status == Spec.Started {
      SuspendedIsHeld(t, mco);
      assert false;
    }
    Refinement.AbsWf(s);
    Refinement.RunningIffTop(s, mco);
    assert Spec.Legal(t.sys, Free(mco));
    Refinement.StepRefines(s, Free(mco));
  }

  // ---- descriptors ----

  /** fd means nothing to the scheduler. */
  predicate Forgotten(t: Thread, fd: Fd) {
    && fd !in t.events && fd !in t.fdMcos && fd !in t.interest && fd !in t.user && fd !in t.hooked
    && (forall event | event in t.records :: t.records[event].fd != fd)
    && (forall mco | mco in t.frames :: t.frames[mco].fd != fd)
  }

  /** Whatever is not open is forgotten, so a descriptor that the system issues again finds no stale entry. */
  lemma ClosedIsForgotten(t: Thread, fd: Fd)
    requires Inv(t) && fd !in t.open
    ensures Forgotten(t, fd)
  {
  }

  /** Every descriptor was really closed as often as it was opened, but for the last time if it is open. */
  lemma ClosedOncePerOpening(t: Thread, fd: Fd)
    requires Inv(t)
    ensures t.openings[fd] == t.closings[fd] + (if fd in t.open then 1 else 0)
  {
  }

  /** From t to u the open descriptor fd was really closed, and it had left all tables before. */
  predicate LastClose(t: Thread, u: Thread, fd: Fd) {
    && fd in t.open && fd !in t.events && fd !in t.fdMcos
    && u.closings == t.closings + multiset{fd} && u.open == t.open - {fd} && Forgotten(u, fd)
  }

  lemma CloseReal(t: Thread, fd: Fd)
    requires Inv(t) && fd in t.user
    ensures var u := HookedClose(t, fd);
      if fd in t.events then u.closings == t.closings else LastClose(t, u, fd)
  {
  }

  lemma DestroyReal(t: Thread, event: Ev)
    requires Inv(t) && Possible(t, Destroy(event))
    ensures t.records[event].fd !in t.user && LastClose(t, Happen(t, Destroy(event)), t.records[event].fd)
  {
  }

  /** A real close is of an open descriptor that has left all tables of the scheduler; it happens when the
      program closes a descriptor that was never registered, or when the last reference to the Events object
      of one that it has closed before is dropped. */
  lemma RealCloseIsLast(t: Thread, h: Happening)
    requires Inv(t) && Possible(t, h)
    ensures var u := Happen(t, h);
      || u.closings == t.closings
      || (h.Close? && h.fd in t.user && LastClose(t, u, h.fd))
      || (h.Destroy? && t.records[h.event].fd !in t.user && LastClose(t, u, t.records[h.event].fd))
  {
    match h {
      case Close(fd) => CloseReal(t, fd);
      case Destroy(event) => DestroyReal(t, event);
      case _ =>
    }
  }

  /** The close of a registered descriptor leaves the closing to its Events object, which alone keeps it. */
  lemma CloseHandsOver(t: Thread, fd: Fd)
    requires Inv(t) && fd in t.user && fd in t.events
    ensures var u := Happen(t, Close(fd));
      var event := t.events[fd];
      && u.closings == t.closings && fd in u.open && fd !in u.events && fd !in u.fdMcos && fd !in u.interest
      && event in u.records && u.records[event].fd == fd && u.records[event].state == Del
      && event in t.records && u.records[event] == t.records[event].(state := Del)
      && (forall other | other in u.records && other != event :: u.records[other].fd != fd)
  {
  }

  // ---- what a callback holds ----

  /** The callback of mco holds the object event. */
  predicate Binds(t: Thread, mco: Id, event: Ev) {
    mco in t.bound && t.bound[mco] == event
  }

  lemma BindsStep(t: Thread, h: Happening, mco: Id, event: Ev)
    requires Inv(t) && Possible(t, h) && Binds(t, mco, event) && h != Reclaim(mco)
    ensures Binds(Happen(t, h), mco, event)
  {
    assert mco in t.sys.tasks;
  }

  lemma {:induction false} BindsRun(t: Thread, hs: seq<Happening>, mco: Id, event: Ev)
    requires Inv(t) && PossibleRun(t, hs) && Binds(t, mco, event) && Reclaim(mco) !in hs
    ensures Binds(Run(t, hs), mco, event)
    decreases |hs|
  {
    if hs != [] {
      assert hs[0] in hs;
      BindsStep(t, hs[0], mco, event);
      HappenOk(t, hs[0]);
      BindsRun(Happen(t, hs[0]), hs[1..], mco, event);
    }
  }

  /** The object that is made for a coroutine whose callback holds it is not destroyed before the coroutine is
      reclaimed, whatever happens. */
  lemma BoundIsHeld(t: Thread, fd: Fd, mco: Id, event: Ev, hs: seq<Happening>)
    requires Inv(t) && Possible(t, Spawn(fd, mco, event, true))
    requires PossibleRun(Happen(t, Spawn(fd, mco, event, true)), hs) && Reclaim(mco) !in hs
    ensures !Possible(Run(Happen(t, Spawn(fd, mco, event, true)), hs), Destroy(event))
  {
    var u := Happen(t, Spawn(fd, mco, event, true));
    HappenOk(t, Spawn(fd, mco, event, true));
    BindsRun(u, hs, mco, event);
  }

  // ---- registrations ----

  /** In every run no assertion of pollUpdate fails, the kernel refuses no epoll_ctl call, and events_ and
      the interest set have the same descriptors with the same masks. */
  lemma RegistrationsAgree(main: Id, size: nat, live: Bytes, wakeFd: Fd, wakeEvent: Ev, hs: seq<Happening>)
    requires PossibleRun(Start(main, size, live, wakeFd, wakeEvent), hs)
    ensures var t := Run(Start(main, size, live, wakeFd, wakeEvent), hs);
      && t.faults == 0 && t.interest.Keys == t.events.Keys
      && (forall fd | fd in t.events :: t.events[fd] in t.records && t.interest[fd] == t.records[t.events[fd]].eorigin)
  {
    StartOk(main, size, live, wakeFd, wakeEvent);
    RunOk(Start(main, size, live, wakeFd, wakeEvent), hs);
    var t := Run(Start(main, size, live, wakeFd, wakeEvent), hs);
    forall fd | fd in t.events
      ensures t.events[fd] in t.records && t.interest[fd] == t.records[t.events[fd]].eorigin
    {
      assert RegisteredOk(t, fd);
    }
  }

  lemma {:induction false} SameWakeFd(t: Thread, hs: seq<Happening>)
    requires PossibleRun(t, hs)
    ensures Run(t, hs).wakeFd == t.wakeFd
    decreases |hs|
  {
    if hs != [] {
      StepUser(t, hs[0]);
      SameWakeFd(Happen(t, hs[0]), hs[1..]);
    }
  }

  /** The loop can always be woken up: in every run the eventfd of its constructor is watched for reading. */
  lemma WakeFdWatched(main: Id, size: nat, live: Bytes, wakeFd: Fd, wakeEvent: Ev, hs: seq<Happening>)
    requires PossibleRun(Start(main, size, live, wakeFd, wakeEvent), hs)
    ensures var t := Run(Start(main, size, live, wakeFd, wakeEvent), hs);
      && t.wakeFd == wakeFd && wakeFd !in t.user
      && wakeFd in t.events && wakeFd in t.interest && t.interest[wakeFd] == READ_EVENT
  {
    StartOk(main, size, live, wakeFd, wakeEvent);
    RunOk(Start(main, size, live, wakeFd, wakeEvent), hs);
    SameWakeFd(Start(main, size, live, wakeFd, wakeEvent), hs);
  }

  /** Once a hook has waited on a descriptor, the kernel watches it for reading exactly while a coroutine
      waits on it, and for nothing otherwise. */
  lemma WatchedIffWaited(t: Thread, fd: Fd)
    requires Inv(t) && fd in t.hooked
    ensures fd in t.interest && t.interest[fd] in {READ_EVENT, NONE_EVENT}
    ensures t.interest[fd] == READ_EVENT <==> exists mco :: WaitsOn(t, mco, fd)
  {
  }

  lemma WaitHooked(t: Thread, fd: Fd, made: Ev)
    ensures t.hooked <= HookedWait(t, fd, made).hooked
  {
    if t.cur.Some? {
      var v := Asking(t, fd, t.cur.value, made);
      assert Park(v, fd, WaitedEvent(t, fd, made)).hooked == t.hooked + {fd};
    }
  }

  lemma StepHooked(t: Thread, h: Happening, fd: Fd)
    requires Possible(t, h) && fd in t.hooked && h != Close(fd)
    ensures fd in Happen(t, h).hooked
  {
    if h.Wait? && !h.plain {
      WaitHooked(t, h.fd, h.event);
    }
  }

  lemma {:induction false} RunHooked(t: Thread, hs: seq<Happening>, fd: Fd)
    requires Inv(t) && PossibleRun(t, hs) && fd in t.hooked && Close(fd) !in hs
    ensures fd in Run(t, hs).hooked
    decreases |hs|
  {
    if hs != [] {
      assert hs[0] in hs;
      StepHooked(t, hs[0], fd);
      HappenOk(t, hs[0]);
      RunHooked(Happen(t, hs[0]), hs[1..], fd);
    }
  }

  /** So over any run after a hooked wait of a current coroutine, until the descriptor is closed. */
  lemma WatchedSinceWait(t: Thread, fd: Fd, event: Ev, hs: seq<Happening>)
    requires Inv(t) && Possible(t, Wait(fd, event, false)) && t.cur.Some?
    requires PossibleRun(Happen(t, Wait(fd, event, false)), hs) && Close(fd) !in hs
    ensures var u := Run(Happen(t, Wait(fd, event, false)), hs);
      && fd in u.interest && u.interest[fd] in {READ_EVENT, NONE_EVENT}
      && (u.interest[fd] == READ_EVENT <==> exists mco :: WaitsOn(u, mco, fd))
  {
    var u := Happen(t, Wait(fd, event, false));
    HappenOk(t, Wait(fd, event, false));
    RunOk(u, hs);
    RunHooked(u, hs, fd);
    WatchedIffWaited(Run(u, hs), fd);
  }
}
