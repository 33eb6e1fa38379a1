/** What becomes of a descriptor after the program has closed it. */
module ClosedDescriptors {
  import opened Prelude
  import opened EventRecords
  import opened Scheduler
  import opened SchedulerInvariant
  import opened Wakeups
  import opened Lifetimes
  import Spec = PrivateStacks

  /** The program has closed fd, or has not opened it yet. */
  predicate GivenUp(t: Thread, fd: Fd) {
    fd !in t.user && fd != t.wakeFd
  }

  // ---- back in events_ ----

  /** The coroutine that runs after a resume withdraws its interest, which registers what it waited on. */
  lemma ResumeRegisters(t: Thread, next: Id, fd: Fd)
    requires Inv(t) && InMain(t) && next in Coroutines(t.sys)
    ensures var u := AfterResume(ResumeMco(t, next), next);
      && (fd in u.events <==> fd in t.events || (WaitsOn(t, next, fd) && Runs(u, next)))
      && (forall mco | mco in u.frames :: mco in t.frames && u.frames[mco] == t.frames[mco])
      && (Runs(u, next) || InMain(u))
  {
    ResumeShape(t, next);
    if next in t.frames {
      WithdrawShape(t, next);
      WakeShape(t, next);
    }
  }

  /** Only next can have got to run. */
  lemma OnlyRuns(t: Thread, u: Thread, next: Id, fd: Fd)
    requires Inv(t) && InMain(t) && u.sys.main == t.sys.main && (Runs(u, next) || InMain(u))
    ensures Wakened(t, u, fd) <==> WaitsOn(t, next, fd) && Runs(u, next)
  {
    forall mco | WaitsOn(t, mco, fd) ensures mco != t.sys.main {
      assert mco in Waiting(t.sys);
    }
  }

  lemma ReportRegisters(t: Thread, f: Fd, mask: Mask, fd: Fd)
    requires Inv(t) && InMain(t)
    ensures var u := Report(t, f, mask);
      && (fd in u.events <==> fd in t.events || Wakened(t, u, fd))
      && (forall mco | mco in u.frames :: mco in t.frames && u.frames[mco] == t.frames[mco])
  {
    var u := Report(t, f, mask);
    if Resumes(t, f, mask) {
      var next := t.fdMcos[f];
      assert next in t.fdMcos.Values;
      NotedOk(t, f, mask);
      ResumeRegisters(Noted(t, f, mask), next, fd);
      OnlyRuns(t, u, next, fd);
    } else {
      assert u.sys == t.sys && u.events == t.events && u.frames == t.frames;
      OnlyRuns(t, u, t.sys.main, fd);
    }
  }

  /** An update of an Events object concerns only the descriptor of that object. */
  lemma UpdateElsewhere(t: Thread, event: Ev, e: Event, fd: Fd)
    requires fd != e.fd
    ensures fd in Update(t, event, e).events <==> fd in t.events
  {
    match e.state {
      case New =>
      case Mod =>
      case Del =>
      case _ =>
    }
  }

  lemma WaitElsewhere(t: Thread, f: Fd, made: Ev, fd: Fd)
    requires Inv(t) && |t.sys.stack| == 2 && !Trips(t, f) && f in t.user && fd !in t.user
    ensures var u := HookedWait(t, f, made);
      && (fd in u.events <==> fd in t.events)
      && forall mco :: WaitsOn(u, mco, fd) <==> WaitsOn(t, mco, fd)
  {
    if t.cur.Some? {
      WaitShape(t, f, made);
      assert t.cur.value !in Waiting(t.sys);
      if f in t.fdMcos {
        assert RegisteredOk(t, f);
        UpdateElsewhere(t, t.events[f], UpdateEvents(t.records[t.events[f]], READ_EVENT), fd);
      } else {
        UpdateElsewhere(t.(fdMcos := t.fdMcos[f := t.cur.value]), made, NewEvent(f, READ_EVENT), fd);
      }
    }
  }

  lemma CloseElsewhere(t: Thread, f: Fd, fd: Fd)
    requires Inv(t) && f != fd
    ensures var u := HookedClose(t, f);
      (fd in u.events <==> fd in t.events) && u.frames == t.frames
  {
    if f in t.events {
      assert RegisteredOk(t, f);
      UpdateElsewhere(Forget(t, f), t.events[f], t.records[t.events[f]].(state := Del), fd);
    }
  }

  lemma LaunchElsewhere(t: Thread, made: Id, fd: Fd)
    requires Inv(t) && InMain(t) && made !in t.sys.tasks
    ensures var u := Happen(t, Launch(made));
      (fd in u.events <==> fd in t.events) && u.frames == t.frames
  {
    CreateOk(t, made);
    assert made !in Waiting(t.sys);
    var s := Engine(t, Create(made, false));
    ResumeRegisters(s, made, fd);
    IdleShape(s, made);
  }

  /** Only a report brings a descriptor that was given up back into events_, or ends a wait on it. */
  lemma StaysOut(t: Thread, h: Happening, fd: Fd)
    requires Inv(t) && Possible(t, h) && GivenUp(t, fd) && !h.Dispatch?
    ensures var u := Happen(t, h);
      && (fd in u.events <==> fd in t.events)
      && forall mco :: WaitsOn(u, mco, fd) <==> WaitsOn(t, mco, fd)
  {
    match h {
      case Spawn(f, mco, event, binds) => UpdateElsewhere(t, event, NewEvent(f, READ_EVENT), fd);
      case Wait(f, event, plain) => if !plain { WaitElsewhere(t, f, event, fd); }
      case Close(f) => CloseElsewhere(t, f, fd);
      case Launch(made) => LaunchElsewhere(t, made, fd);
      case _ =>
    }
  }

  /** From t to u whoever waits on fd goes on, unless it runs; nobody begins to. */
  ghost predicate WaitersGoOn(t: Thread, u: Thread, fd: Fd) {
    forall mco :: WaitsOn(u, mco, fd) <==> WaitsOn(t, mco, fd) && !Runs(u, mco)
  }

  /** A coroutine that waits on fd in t runs in u. */
  ghost predicate Wakened(t: Thread, u: Thread, fd: Fd) {
    exists mco :: WaitsOn(t, mco, fd) && Runs(u, mco)
  }

  lemma ReportWaiters(t: Thread, f: Fd, mask: Mask, fd: Fd)
    requires Inv(t) && InMain(t)
    ensures WaitersGoOn(t, Report(t, f, mask), fd)
  {
    var u := Report(t, f, mask);
    ReportRegisters(t, f, mask, fd);
    forall mco | WaitsOn(t, mco, fd) ensures WaitsOn(u, mco, fd) <==> !Runs(u, mco) {
      ReportWaits(t, f, mask, mco);
    }
  }

  lemma OthersRun(t: Thread, h: Happening, fd: Fd)
    requires Inv(t) && Possible(t, h) && !h.Dispatch?
    ensures !Wakened(t, Happen(t, h), fd)
  {
    forall mco | WaitsOn(t, mco, fd) ensures !Runs(Happen(t, h), mco) {
      StepWaits(t, h, mco);
    }
  }

  /** Exactly the wake-up of a coroutine that waits on it brings a given up descriptor back. */
  lemma BackStep(t: Thread, h: Happening, fd: Fd)
    requires Inv(t) && Possible(t, h) && GivenUp(t, fd) && h != Open(fd)
    ensures GivenUp(Happen(t, h), fd) && WaitersGoOn(t, Happen(t, h), fd)
    ensures fd in Happen(t, h).events <==> fd in t.events || Wakened(t, Happen(t, h), fd)
  {
    StepUser(t, h);
    if h.Dispatch? {
      ReportRegisters(t, h.fd, h.mask, fd);
      ReportWaiters(t, h.fd, h.mask, fd);
    } else {
      StaysOut(t, h, fd);
      OthersRun(t, h, fd);
    }
  }

  // ---- what is never really closed ----

  /** Someone waits on the given up fd, or its object is registered again. */
  ghost predicate Leaks(t: Thread, fd: Fd) {
    GivenUp(t, fd) && (fd in t.events || exists mco :: WaitsOn(t, mco, fd))
  }

  lemma LeaksOpen(t: Thread, fd: Fd)
    requires Inv(t) && Leaks(t, fd)
    ensures fd in t.open && !Forgotten(t, fd)
  {
    if fd in t.events {
      assert RegisteredOk(t, fd) && RecordOk(t, t.events[fd]);
    } else {
      var mco :| WaitsOn(t, mco, fd);
      assert FrameOk(t, mco) && RecordOk(t, t.frames[mco].event);
    }
  }

  lemma LeakStep(t: Thread, h: Happening, fd: Fd)
    requires Inv(t) && Possible(t, h) && Leaks(t, fd)
    ensures Leaks(Happen(t, h), fd) && Happen(t, h).closings[fd] == t.closings[fd]
  {
    var u := Happen(t, h);
    LeaksOpen(t, fd);
    BackStep(t, h, fd);
    HappenOk(t, h);
    LeaksOpen(u, fd);
    RealCloseIsLast(t, h);
  }

  /** Once a descriptor leaks, it is never really closed, whatever happens. */
  lemma {:induction false} LeaksForGood(t: Thread, hs: seq<Happening>, fd: Fd)
    requires Inv(t) && PossibleRun(t, hs) && Leaks(t, fd)
    ensures Leaks(Run(t, hs), fd) && Run(t, hs).closings[fd] == t.closings[fd] && fd in Run(t, hs).open
    decreases |hs|
  {
    if hs == [] {
      LeaksOpen(t, fd);
    } else {
      LeakStep(t, hs[0], fd);
      HappenOk(t, hs[0]);
      LeaksForGood(Happen(t, hs[0]), hs[1..], fd);
    }
  }

  // ---- when the real close can come ----

  /** A coroutine that waits on fd in t runs at some point of hs. */
  ghost predicate WakenedIn(t: Thread, hs: seq<Happening>, fd: Fd)
    requires PossibleRun(t, hs)
  {
    exists mco :: WaitsOn(t, mco, fd) && RunsIn(t, hs, mco)
  }

  lemma WakenedInSplit(t: Thread, hs: seq<Happening>, fd: Fd)
    requires Inv(t) && PossibleRun(t, hs) && hs != [] && WaitersGoOn(t, Happen(t, hs[0]), fd)
    ensures Wakened(t, Happen(t, hs[0]), fd) ==> WakenedIn(t, hs, fd)
    ensures !Wakened(t, Happen(t, hs[0]), fd) ==>
      (WakenedIn(t, hs, fd) <==> WakenedIn(Happen(t, hs[0]), hs[1..], fd))
  {
    var u := Happen(t, hs[0]);
    forall mco | WaitsOn(t, mco, fd)
      ensures RunsIn(t, hs, mco) <==> RunsIn(u, hs[1..], mco)
      ensures Runs(u, mco) ==> RunsIn(u, hs[1..], mco)
    {
      assert mco in Waiting(t.sys);
    }
  }

  /** Over any run after the close of fd, before it is issued again: its object is back in events_ if and
      only if a coroutine that waited on fd has run since. */
  lemma {:induction false} BackIffWakened(t: Thread, hs: seq<Happening>, fd: Fd)
    requires Inv(t) && PossibleRun(t, hs) && GivenUp(t, fd) && fd !in t.events && Open(fd) !in hs
    ensures fd in Run(t, hs).events <==> WakenedIn(t, hs, fd)
    decreases |hs|
  {
    if hs == [] {
      forall mco | WaitsOn(t, mco, fd) ensures !RunsIn(t, hs, mco) {
        assert mco in Waiting(t.sys);
      }
    } else {
      var u := Happen(t, hs[0]);
      assert hs[0] in hs;
      BackStep(t, hs[0], fd);
      HappenOk(t, hs[0]);
      WakenedInSplit(t, hs, fd);
      if fd in u.events {
        StaysBack(u, hs[1..], fd);
      } else {
        BackIffWakened(u, hs[1..], fd);
      }
    }
  }

  lemma {:induction false} StaysBack(t: Thread, hs: seq<Happening>, fd: Fd)
    requires Inv(t) && PossibleRun(t, hs) && GivenUp(t, fd) && fd in t.events && Open(fd) !in hs
    ensures fd in Run(t, hs).events
    decreases |hs|
  {
    if hs != [] {
      assert hs[0] in hs;
      BackStep(t, hs[0], fd);
      HappenOk(t, hs[0]);
      StaysBack(Happen(t, hs[0]), hs[1..], fd);
    }
  }

  /** Nobody waits on the given up fd, and its object event is not registered. */
  ghost predicate Released(t: Thread, fd: Fd, event: Ev) {
    && GivenUp(t, fd) && fd !in t.events && (forall mco :: !WaitsOn(t, mco, fd))
    && event in t.records && t.records[event].fd == fd
  }

  /** Then only a callback can still hold the object. */
  lemma ReleasedPossible(t: Thread, fd: Fd, event: Ev)
    requires Inv(t) && Released(t, fd, event)
    ensures Possible(t, Destroy(event)) <==> event !in t.bound.Values
  {
    assert EventHeld(t, event) <==> event in t.bound.Values by {
      forall f | f in t.events ensures t.events[f] != event {
        assert RegisteredOk(t, f);
      }
      forall c | c in t.frames ensures t.frames[c].event != event {
        assert FrameOk(t, c) && !WaitsOn(t, c, fd);
      }
    }
  }

  /** From t to u the object event was not destroyed. */
  predicate RecordStays(t: Thread, u: Thread, event: Ev)
    requires event in t.records
  {
    event in u.records && u.records[event].fd == t.records[event].fd
  }

  lemma ResumeRecords(t: Thread, mco: Id, event: Ev)
    requires event in t.records
    ensures RecordStays(t, AfterResume(ResumeMco(t, mco), mco), event)
  {
  }

  lemma ReportRecords(t: Thread, f: Fd, mask: Mask, event: Ev)
    requires event in t.records
    ensures RecordStays(t, Report(t, f, mask), event)
  {
    if f in t.events && t.events[f] in t.records {
      HandleAbleKeeps(t.records[t.events[f]].(reported := mask));
      if f in t.fdMcos {
        ResumeRecords(Noted(t, f, mask), t.fdMcos[f], event);
      }
    }
  }

  lemma WaitRecords(t: Thread, f: Fd, made: Ev, event: Ev)
    requires made !in t.records && event in t.records
    ensures RecordStays(t, HookedWait(t, f, made), event)
  {
    if t.cur.Some? {
      AskingRecords(t, f, t.cur.value, made, event);
    } else if f in t.fdMcos {
      AskedRecords(t, f, made, event);
    }
  }

  lemma AskedRecords(t: Thread, f: Fd, made: Ev, event: Ev)
    requires made !in t.records && event in t.records
    ensures RecordStays(t, Asked(t, f, made), event)
  {
  }

  lemma AskingRecords(t: Thread, f: Fd, mco: Id, made: Ev, event: Ev)
    requires made !in t.records && event in t.records
    ensures RecordStays(t, Asking(t, f, mco, made), event)
  {
    AskedRecords(t, f, made, event);
  }

  lemma StepRecords(t: Thread, h: Happening, event: Ev)
    requires Possible(t, h) && event in t.records && h != Destroy(event)
    ensures RecordStays(t, Happen(t, h), event)
  {
    match h {
      case Dispatch(f, mask) => ReportRecords(t, f, mask, event);
      case Wait(f, made, plain) => if !plain { WaitRecords(t, f, made, event); }
      case Launch(mco) => ResumeRecords(Engine(t, Create(mco, false)), mco, event);
      case _ =>
    }
  }

  /** It stays so until its object is destroyed, which really closes it. */
  lemma ReleasedStep(t: Thread, h: Happening, fd: Fd, event: Ev)
    requires Inv(t) && Possible(t, h) && Released(t, fd, event) && h != Open(fd)
    ensures var u := Happen(t, h);
      if h == Destroy(event) then u.closings[fd] == t.closings[fd] + 1 && fd !in u.open
      else Released(u, fd, event) && u.closings[fd] == t.closings[fd]
  {
    RealCloseIsLast(t, h);
    if h == Destroy(event) {
      DestroyReal(t, event);
    } else {
      BackStep(t, h, fd);
      StepRecords(t, h, event);
      assert RecordOk(t, event);
    }
  }

  lemma ClosedStep(t: Thread, h: Happening, fd: Fd)
    requires Inv(t) && Possible(t, h) && fd !in t.open && h != Open(fd)
    ensures fd !in Happen(t, h).open && Happen(t, h).closings[fd] == t.closings[fd]
  {
    RealCloseIsLast(t, h);
  }

  lemma {:induction false} StaysClosed(t: Thread, hs: seq<Happening>, fd: Fd)
    requires Inv(t) && PossibleRun(t, hs) && fd !in t.open && Open(fd) !in hs
    ensures Run(t, hs).closings[fd] == t.closings[fd]
    decreases |hs|
  {
    if hs != [] {
      assert hs[0] in hs;
      ClosedStep(t, hs[0], fd);
      HappenOk(t, hs[0]);
      StaysClosed(Happen(t, hs[0]), hs[1..], fd);
    }
  }

  /** Over any run, before fd is issued again: it is really closed exactly if its object is destroyed, and
      that can happen exactly when no callback holds the object. */
  lemma {:induction false} ReleasedRun(t: Thread, hs: seq<Happening>, fd: Fd, event: Ev)
    requires Inv(t) && PossibleRun(t, hs) && Released(t, fd, event) && Open(fd) !in hs
    ensures var v := Run(t, hs);
      if Destroy(event) in hs then v.closings[fd] == t.closings[fd] + 1
      else v.closings[fd] == t.closings[fd] && (Possible(v, Destroy(event)) <==> event !in v.bound.Values)
    decreases |hs|
  {
    if hs == [] {
      ReleasedPossible(t, fd, event);
    } else {
      assert hs[0] in hs && forall h :: h in hs <==> h == hs[0] || h in hs[1..];
      ReleasedStep(t, hs[0], fd, event);
      HappenOk(t, hs[0]);
      if hs[0] == Destroy(event) {
        StaysClosed(Happen(t, hs[0]), hs[1..], fd);
      } else {
        ReleasedRun(Happen(t, hs[0]), hs[1..], fd, event);
      }
    }
  }

  /** Some coroutine waits on fd. */
  ghost predicate Awaited(t: Thread, fd: Fd) {
    exists mco :: WaitsOn(t, mco, fd)
  }

  lemma AfterClose(t: Thread, fd: Fd)
    requires Inv(t) && fd in t.user && fd in t.events
    ensures var u := Happen(t, Close(fd));
      && Inv(u) && u.closings == t.closings
      && if Awaited(t, fd) then Leaks(u, fd) else Released(u, fd, t.events[fd])
  {
    var u := Happen(t, Close(fd));
    HappenOk(t, Close(fd));
    CloseHandsOver(t, fd);
    FramesStay(t, Close(fd));
    StepUser(t, Close(fd));
    forall mco ensures WaitsOn(u, mco, fd) <==> WaitsOn(t, mco, fd) {
    }
  }

  /** Whether the close of a registered descriptor ever becomes a real one depends on whether a coroutine
      waits on it at that moment. If one does, the descriptor is never closed: the object stays in the frame
      of that coroutine, and when it runs, its hook puts the object back into events_. If none does, it is
      really closed exactly when the object is destroyed, which is possible as soon as no callback holds it. */
  lemma CloseSettles(t: Thread, fd: Fd, hs: seq<Happening>)
    requires Inv(t) && fd in t.user && fd in t.events && PossibleRun(Happen(t, Close(fd)), hs)
    ensures var v := Run(Happen(t, Close(fd)), hs);
      Awaited(t, fd) ==> v.closings[fd] == t.closings[fd] && fd in v.open && fd !in v.user
    ensures var v := Run(Happen(t, Close(fd)), hs);
      !Awaited(t, fd) && Open(fd) !in hs ==>
        if Destroy(t.events[fd]) in hs then v.closings[fd] == t.closings[fd] + 1
        else v.closings[fd] == t.closings[fd]
             && (Possible(v, Destroy(t.events[fd])) <==> t.events[fd] !in v.bound.Values)
  {
    var u := Happen(t, Close(fd));
    AfterClose(t, fd);
    if Awaited(t, fd) {
      LeaksForGood(u, hs, fd);
    } else if Open(fd) !in hs {
      ReleasedRun(u, hs, fd, t.events[fd]);
    }
  }

  /** A coroutine may close what it owns, and anyone what nobody waits on: a running coroutine's own
      descriptors are not awaited. */
  lemma OwnNotAwaited(t: Thread, fd: Fd)
    requires Inv(t) && |t.sys.stack| == 2 && OwnerOf(t, fd) == Some(Spec.Top(t.sys))
    ensures !Awaited(t, fd)
  {
    forall mco ensures !WaitsOn(t, mco, fd) {
      assert mco in t.frames ==> FrameOk(t, mco) && mco in Waiting(t.sys);
    }
  }

  /** After the close of a descriptor, before it is issued again, no report on it resumes anyone. */
  lemma {:induction false} ClosedNeverResumes(t: Thread, hs: seq<Happening>, fd: Fd, mask: Mask)
    requires Inv(t) && PossibleRun(t, hs) && GivenUp(t, fd) && Open(fd) !in hs && InMain(Run(t, hs))
    ensures var v := Run(t, hs); var w := Happen(v, Dispatch(fd, mask));
      && w.sys == v.sys && w.calls == v.calls && w.cur == v.cur && w.frames == v.frames
      && (w == v || fd in v.events)
    decreases |hs|
  {
    if hs == [] {
      assert fd !in t.fdMcos;
    } else {
      assert hs[0] in hs;
      StepUser(t, hs[0]);
      HappenOk(t, hs[0]);
      ClosedNeverResumes(Happen(t, hs[0]), hs[1..], fd, mask);
    }
  }

  // ---- a run that leaks ----

  lemma CloseInterest(t: Thread, f: Fd, fd: Fd)
    requires Inv(t) && f != fd && f in t.events
    ensures HookedClose(t, f).interest == t.interest - {f}
  {
    var s := Forget(t, f);
    assert RegisteredOk(t, f);
    assert Update(s, t.events[f], t.records[t.events[f]].(state := Del)).interest == t.interest - {f};
  }

  /** Closing another descriptor leaves a coroutine ready. */
  lemma CloseOther(t: Thread, c: Id, own: Fd, fd: Fd)
    requires Ready(t, c, own) && own != fd && fd in t.user && fd in t.events
    ensures Ready(HookedClose(t, fd), c, own) && HookedClose(t, fd).frames == t.frames
  {
    HappenOk(t, Close(fd));
    CloseInterest(t, fd, own);
  }

  /** The running coroutine waits on a new descriptor; its own one is still watched. */
  lemma WaitKeepsOwn(t: Thread, c: Id, own: Fd, fd: Fd, event: Ev) returns (u: Thread)
    requires RunsOwning(t, c, own) && own in t.interest && t.interest[own] == READ_EVENT
    requires fd in t.user && fd !in t.fdMcos && event !in t.records
    ensures u == HookedWait(t, fd, event) && Ready(u, c, own) && WaitsFor(u, c, fd) && fd in u.events && own != fd
  {
    u := HookedWait(t, fd, event);
    WaitNew(t, c, fd, event);
    Armed(u, c, fd);
  }

  /** The running coroutine waits on a new descriptor, and somebody closes that. */
  lemma WaitThenClose(t: Thread, c: Id, own: Fd, fd: Fd, event: Ev) returns (u: Thread)
    requires RunsOwning(t, c, own) && own in t.interest && t.interest[own] == READ_EVENT
    requires fd !in t.open && event !in t.records
    ensures Leads(t, [Open(fd), Wait(fd, event, false), Close(fd)], u)
    ensures Ready(u, c, own) && WaitsOn(u, c, fd) && GivenUp(u, fd) && fd !in u.events
  {
    var t1 := Happen(t, Open(fd));
    OpenOk(t, fd);
    var t2 := WaitKeepsOwn(t1, c, own, fd, event);
    CloseOther(t2, c, own, fd);
    CloseHandsOver(t2, fd);
    u := Happen(t2, Close(fd));
    LeadsAfter(t, Open(fd), Wait(fd, event, false), Close(fd));
  }

  /** So not every registered descriptor that is closed is really closed: a coroutine waits on its second
      descriptor, somebody closes that, and a report on the first resumes the coroutine. Its hook puts the
      object of the closed descriptor back into events_, from where nothing removes it. */
  lemma CloseCanLeak(t: Thread, c: Id, fd1: Fd, ev1: Ev, fd2: Fd, ev2: Ev) returns (u: Thread, v: Thread)
    requires Inv(t) && InMain(t) && fd1 !in t.open && fd2 !in t.open && fd1 != fd2 && c !in t.sys.tasks
    requires ev1 !in t.records && ev2 !in t.records && ev1 != ev2
    ensures Leads(t, [Open(fd1), Spawn(fd1, c, ev1, false), Dispatch(fd1, POLLIN)], u)
    ensures Leads(u, [Open(fd2), Wait(fd2, ev2, false), Close(fd2)], v)
    ensures Inv(v) && fd2 !in v.user && fd2 !in v.events && Possible(v, Dispatch(fd1, POLLIN))
    ensures var w := Happen(v, Dispatch(fd1, POLLIN)); Inv(w) && fd2 in w.events && Leaks(w, fd2)
  {
    u := FirstRun(t, c, fd1, ev1);
    v := WaitThenClose(u, c, fd1, fd2, ev2);
    ReadyHandled(v, c, fd1);
    ResumeRegisters(Noted(v, fd1, POLLIN), c, fd2);
    DispatchRuns(v, c, fd1);
    assert WaitsOn(Noted(v, fd1, POLLIN), c, fd2);
  }
}
