/** The scheduler of one thread: base/EventLoop.cpp, base/SysapiHook.cpp, base/McoPool.cpp,
    base/Mcosops.h and base/Eventsops.h as functions of the thread's state, over the coroutines of
    PrivateStacks. */
module Scheduler {
  import opened Prelude
  import opened EventRecords
  import Spec = PrivateStacks

  /** The address of an Events object. */
  type Ev = nat

  /** The locals of a coroutine that is suspended in a hooked read or accept. */
  datatype Frame = Frame(fd: Fd, event: Ev)

  datatype Thread = Thread(
    sys: Spec.Machine,         // the coroutines of the thread
    calls: seq<Act>,           // every call of the coroutine engine so far
    cur: Option<Id>,           // McoPool::cur_
    fdMcos: map<Fd, Id>,       // McoPool::fdMcos_
    records: map<Ev, Event>,   // the Events objects that exist
    events: map<Fd, Ev>,       // EventLoop::events_
    interest: map<Fd, Mask>,   // the interest set of the epoll instance
    faults: nat,               // assertions of pollUpdate that failed, and epoll_ctl calls refused
    wakeFd: Fd,
    frames: map<Id, Frame>,
    bound: map<Id, Ev>,        // the Events object that the callback of a coroutine holds
    loopMco: Option<Id>,       // the local mco of whoever resumed the running coroutine
    open: set<Fd>,             // the descriptors the kernel has open
    user: set<Fd>,             // those that the program opened and has not closed since
    hooked: set<Fd>,           // those of them on which a hooked read or accept has waited
    openings: multiset<Fd>,    // every opening of a descriptor so far
    closings: multiset<Fd>)    // every real close so far

  /** What can happen on the thread between two transfers of control. */
  datatype Happening =
      // a system call returns a new descriptor
    | Open(fd: Fd)
      // new Continuation, setMcoRoutine, and an Events object for reading is registered;
      // binds: the callback holds that object
    | Spawn(fd: Fd, mco: Id, event: Ev, binds: bool)
      // the thread's own flow makes a coroutine and resumes it
    | Launch(mco: Id)
      // the loop handles one report of epoll_wait
    | Dispatch(fd: Fd, mask: Mask)
      // the running coroutine calls read or accept; plain: the descriptor does not block
    | Wait(fd: Fd, event: Ev, plain: bool)
    | Close(fd: Fd)
      // the running coroutine computes
    | Compute(live: Bytes, scribble: Bytes)
      // its callback returns
    | Return
      // the last shared_ptr to a Continuation, or to an Events object, is dropped
    | Reclaim(mco: Id)
    | Destroy(event: Ev)

  function Engine(t: Thread, a: Act): Thread {
    t.(calls := t.calls + [a],
       sys := if Spec.Wf(t.sys) && Spec.Legal(t.sys, a) then Spec.Step(t.sys, a) else t.sys)
  }

  // ---- epoll_ctl ----

  function EpollAdd(t: Thread, fd: Fd, mask: Mask): (u: Thread)
    ensures u == t.(interest := u.interest, faults := u.faults)
  {
    if fd in t.interest || fd !in t.open then t.(faults := t.faults + 1)
    else t.(interest := t.interest[fd := mask])
  }

  function EpollMod(t: Thread, fd: Fd, mask: Mask): (u: Thread)
    ensures u == t.(interest := u.interest, faults := u.faults)
  {
    if fd in t.interest then t.(interest := t.interest[fd := mask]) else t.(faults := t.faults + 1)
  }

  function EpollDel(t: Thread, fd: Fd): (u: Thread)
    ensures u == t.(interest := u.interest, faults := u.faults)
  {
    if fd in t.interest then t.(interest := t.interest - {fd}) else t.(faults := t.faults + 1)
  }

  /** close(2): the kernel also forgets its interest. */
  function RealClose(t: Thread, fd: Fd): Thread {
    t.(open := t.open - {fd}, closings := t.closings + multiset{fd}, interest := t.interest - {fd})
  }

  // ---- EventLoop ----

  function Assert(t: Thread, holds: bool): Thread {
    if holds then t else t.(faults := t.faults + 1)
  }

  /** events_[event->getFd()] = event, and the kernel is told. */
  function Register(t: Thread, event: Ev): (u: Thread)
    requires event in t.records
    ensures u == t.(events := u.events, interest := u.interest, faults := u.faults)
  {
    var e := t.records[event];
    EpollAdd(t.(events := t.events[e.fd := event]), e.fd, e.eorigin)
  }

  function Remove(t: Thread, fd: Fd): (u: Thread)
    ensures u == t.(events := u.events, interest := u.interest, faults := u.faults)
  {
    Assert(EpollDel(t, fd), fd in t.events).(events := t.events - {fd})
  }

  function PollUpdate(t: Thread, event: Ev): (u: Thread)
    requires event in t.records
    ensures u == t.(events := u.events, interest := u.interest, faults := u.faults)
  {
    var e := t.records[event];
    match e.state
    case New => Register(Assert(t, e.fd !in t.events), event)
    case Mod => if e.fd !in t.events then Register(t, event) else EpollMod(t, e.fd, e.eorigin)
    case Del => Remove(t, e.fd)
    case _ => t
  }

  lemma AddFaults(t: Thread, fd: Fd, mask: Mask)
    ensures EpollAdd(t, fd, mask).faults == t.faults + if fd in t.open && fd !in t.interest then 0 else 1
  {
  }

  lemma RemoveFaults(t: Thread, fd: Fd)
    ensures Remove(t, fd).faults
         == t.faults + (if fd in t.interest then 0 else 1) + (if fd in t.events then 0 else 1)
  {
  }

  /** What fails in pollUpdate: a new object finds its descriptor taken, a deleted one finds it missing, or
      epoll_ctl finds the descriptor watched already, not watched or not open. */
  lemma UpdateFaults(t: Thread, event: Ev)
    requires event in t.records
    ensures var e := t.records[event]; var u := PollUpdate(t, event);
      && (e.state == New ==>
            (u.faults == t.faults <==> e.fd !in t.events && e.fd in t.open && e.fd !in t.interest))
      && (e.state == Mod ==>
            (u.faults == t.faults <==> if e.fd in t.events then e.fd in t.interest
                                       else e.fd in t.open && e.fd !in t.interest))
      && (e.state == Del ==> (u.faults == t.faults <==> e.fd in t.events && e.fd in t.interest))
  {
    var e := t.records[event];
    AddFaults(t.(events := t.events[e.fd := event]), e.fd, e.eorigin);
    AddFaults(Assert(t, e.fd !in t.events).(events := t.events[e.fd := event]), e.fd, e.eorigin);
    RemoveFaults(t, e.fd);
  }

  /** The object event becomes e, and the loop is told. */
  function Update(t: Thread, event: Ev, e: Event): (u: Thread)
    ensures u == t.(records := t.records[event := e], events := u.events, interest := u.interest, faults := u.faults)
  {
    PollUpdate(t.(records := t.records[event := e]), event)
  }

  // ---- Mcosops and the hooks ----

  /** Mcosops::Resume, from a frame that holds the coroutine. */
  function ResumeMco(t: Thread, mco: Id): Thread {
    Engine(t.(cur := Some(mco), loopMco := Some(mco)), Act.Resume(mco))
  }

  predicate Runs(t: Thread, mco: Id) {
    t.sys.stack != [] && Spec.Top(t.sys) == mco
  }

  /** The hook of mco goes on after its Yield. */
  function Withdrawn(t: Thread, mco: Id): (u: Thread)
    requires mco in t.frames && t.frames[mco].event in t.records
    ensures u == t.(frames := t.frames - {mco}, records := u.records, events := u.events, interest := u.interest,
                    faults := u.faults)
  {
    var event := t.frames[mco].event;
    Update(t.(frames := t.frames - {mco}), event, DeleteEvent(t.records[event], READ_EVENT))
  }

  /** If mco now runs and was suspended in a hook, the hook goes on; if it does not run, Resume returned. */
  function AfterResume(t: Thread, mco: Id): (u: Thread)
    ensures u == t.(loopMco := u.loopMco, frames := u.frames, records := u.records, events := u.events,
                    interest := u.interest, faults := u.faults)
  {
    if !Runs(t, mco) then t.(loopMco := None)
    else if mco in t.frames && t.frames[mco].event in t.records then Withdrawn(t, mco)
    else t
  }

  /** The locals of the hook stay in the frame of the coroutine. */
  function Parked(t: Thread, mco: Id, fd: Fd, event: Ev): Thread {
    t.(frames := t.frames[mco := Frame(fd, event)], loopMco := None, hooked := t.hooked + {fd})
  }

  /** The hook suspends. */
  function Park(t: Thread, fd: Fd, event: Ev): Thread {
    if t.cur == None then t else Engine(Parked(t, t.cur.value, fd, event), Act.Yield(t.cur.value))
  }

  /** The registered Events object of fd, or else the one made. */
  function EventAt(t: Thread, fd: Fd, made: Ev): Ev {
    if fd in t.events then t.events[fd] else made
  }

  /** It is told to ask for reading. */
  function Asked(t: Thread, fd: Fd, made: Ev): (u: Thread)
    ensures u == t.(records := u.records, events := u.events, interest := u.interest, faults := u.faults)
  {
    var event := EventAt(t, fd, made);
    var e := if fd in t.events && event in t.records then t.records[event] else NewEvent(fd, READ_EVENT);
    Update(t, event, UpdateEvents(e, READ_EVENT))
  }

  /** fd becomes a descriptor of mco, and the new object made asks for reading. */
  function Taken(t: Thread, fd: Fd, mco: Id, made: Ev): (u: Thread)
    ensures u == t.(fdMcos := t.fdMcos[fd := mco], records := t.records[made := NewEvent(fd, READ_EVENT)],
                    events := u.events, interest := u.interest, faults := u.faults)
  {
    Update(t.(fdMcos := t.fdMcos[fd := mco]), made, NewEvent(fd, READ_EVENT))
  }

  /** The Events object that a wait on fd registers. */
  function WaitedEvent(t: Thread, fd: Fd, made: Ev): Ev {
    if fd in t.fdMcos then EventAt(t, fd, made) else made
  }

  /** mco asks for reading on fd. */
  function Asking(t: Thread, fd: Fd, mco: Id, made: Ev): (u: Thread)
    ensures u == t.(fdMcos := u.fdMcos, records := u.records, events := u.events, interest := u.interest,
                    faults := u.faults)
  {
    if fd in t.fdMcos then Asked(t, fd, made) else Taken(t, fd, mco, made)
  }

  /** read and accept on a descriptor that blocks. */
  function HookedWait(t: Thread, fd: Fd, made: Ev): (u: Thread)
    ensures u.user == t.user && u.wakeFd == t.wakeFd && u.open == t.open && u.bound == t.bound
    ensures t.cur.Some? ==>
      var v := Asking(t, fd, t.cur.value, made);
      u.records == v.records && u.events == v.events && u.interest == v.interest && u.fdMcos == v.fdMcos
  {
    if t.cur == None then (if fd in t.fdMcos then Asked(t, fd, made) else t)
    else Park(Asking(t, fd, t.cur.value, made), fd, WaitedEvent(t, fd, made))
  }

  function OwnerOf(t: Thread, fd: Fd): Option<Id> {
    if fd in t.fdMcos then Some(t.fdMcos[fd]) else None
  }

  function Forget(t: Thread, fd: Fd): Thread {
    t.(cur := if t.cur == OwnerOf(t, fd) then None else t.cur, fdMcos := t.fdMcos - {fd},
       user := t.user - {fd}, hooked := t.hooked - {fd})
  }

  /** close */
  function HookedClose(t: Thread, fd: Fd): (u: Thread)
    ensures u == Forget(t, fd).(records := u.records, events := u.events, interest := u.interest, faults := u.faults,
                                open := u.open, closings := u.closings)
  {
    var s := Forget(t, fd);
    if fd in s.events && s.events[fd] in s.records then
      var event := s.events[fd];
      Update(s, event, s.records[event].(state := Del))
    else RealClose(s, fd)
  }

  /** setMutable and eventHandleAble. */
  function Noted(t: Thread, fd: Fd, mask: Mask): Thread
    requires fd in t.events && t.events[fd] in t.records
  {
    var event := t.events[fd];
    t.(records := t.records[event := HandleAble(t.records[event].(reported := mask)).0])
  }

  predicate Handled(t: Thread, fd: Fd, mask: Mask)
    requires fd in t.events && t.events[fd] in t.records
  {
    HandleAble(t.records[t.events[fd]].(reported := mask)).1
  }

  /** The body of the loop in EventLoop::loop for one report, up to the resume. */
  function Served(t: Thread, fd: Fd, mask: Mask): Thread {
    if fd !in t.events || t.events[fd] !in t.records then t else Noted(t, fd, mask)
  }

  /** Does a report resume the coroutine that fd is mapped to? */
  predicate Resumes(t: Thread, fd: Fd, mask: Mask) {
    && fd in t.events && t.events[fd] in t.records
    && Handled(t, fd, mask) && fd != t.wakeFd && fd in t.fdMcos
  }

  /** The body of the loop for one report. */
  function Report(t: Thread, fd: Fd, mask: Mask): (u: Thread)
    ensures u == t.(sys := u.sys, calls := u.calls, cur := u.cur, loopMco := u.loopMco, frames := u.frames,
                    records := u.records, events := u.events, interest := u.interest, faults := u.faults)
  {
    if Resumes(t, fd, mask) then AfterResume(ResumeMco(Served(t, fd, mask), t.fdMcos[fd]), t.fdMcos[fd])
    else Served(t, fd, mask)
  }

  // ---- what happens on the thread ----

  /** The loop, or another function of the thread's own flow, runs. */
  predicate InMain(t: Thread) {
    t.sys.stack == [t.sys.main]
  }

  predicate McoHeld(t: Thread, mco: Id) {
    mco in t.fdMcos.Values || t.cur == Some(mco) || t.loopMco == Some(mco) || mco in t.frames
  }

  predicate EventHeld(t: Thread, event: Ev) {
    || event in t.events.Values
    || (exists c :: c in t.frames && t.frames[c].event == event)
    || event in t.bound.Values
  }

  /** The assertion of the hooked wait fails: the descriptor belongs to another coroutine. */
  predicate Trips(t: Thread, fd: Fd) {
    fd in t.fdMcos && t.cur != Some(t.fdMcos[fd])
  }

  /** Addresses and descriptors are new where they are made, counters are right, and programs use
      descriptors they own. */
  predicate Possible(t: Thread, h: Happening) {
    match h
    case Open(fd) => fd !in t.open
    case Spawn(fd, mco, event, _) =>
      fd in t.user && fd !in t.fdMcos && mco !in t.sys.tasks && event !in t.records
    case Launch(mco) => InMain(t) && mco !in t.sys.tasks
    case Dispatch(_, _) => InMain(t)
    case Wait(fd, event, plain) =>
      !InMain(t) && (!plain ==> fd in t.user && !Trips(t, fd) && event !in t.records)
    case Close(fd) => fd in t.user
    case Compute(live, scribble) =>
      Spec.Wf(t.sys) && Spec.Legal(t.sys, Work(live, scribble))
    case Return => !InMain(t)
    case Reclaim(mco) => mco in t.sys.tasks && mco != t.sys.main && !McoHeld(t, mco)
    case Destroy(event) => event in t.records && !EventHeld(t, event)
  }

  function Happen(t: Thread, h: Happening): Thread
    requires Possible(t, h)
  {
    match h
    case Open(fd) => t.(open := t.open + {fd}, user := t.user + {fd}, openings := t.openings + multiset{fd})
    case Spawn(fd, mco, event, binds) =>
      var s := Engine(t, Create(mco, false));
      Update(s.(fdMcos := s.fdMcos[fd := mco], bound := if binds then s.bound[mco := event] else s.bound),
             event, NewEvent(fd, READ_EVENT))
    case Launch(mco) => AfterResume(ResumeMco(Engine(t, Create(mco, false)), mco), mco)
    case Dispatch(fd, mask) => Report(t, fd, mask)
    case Wait(fd, event, plain) => if plain then t else HookedWait(t, fd, event)
    case Close(fd) => HookedClose(t, fd)
    case Compute(live, scribble) => Engine(t, Work(live, scribble))
    case Return => Engine(t.(loopMco := None), Finish)
    case Reclaim(mco) => Engine(t.(bound := t.bound - {mco}), Free(mco))
    case Destroy(event) => RealClose(t.(records := t.records - {event}), t.records[event].fd)
  }

  /** A thread after the constructor of its EventLoop. */
  function Start(main: Id, size: nat, live: Bytes, wakeFd: Fd, wakeEvent: Ev): Thread {
    Thread(Spec.Init(main, size, live), [], None, map[], map[wakeEvent := NewEvent(wakeFd, READ_EVENT)],
           map[wakeFd := wakeEvent], map[wakeFd := READ_EVENT], 0, wakeFd, map[], map[], None,
           {wakeFd}, {}, {}, multiset{wakeFd}, multiset{})
  }

  predicate PossibleRun(t: Thread, hs: seq<Happening>)
    decreases |hs|
  {
    hs == [] || (Possible(t, hs[0]) && PossibleRun(Happen(t, hs[0]), hs[1..]))
  }

  function Run(t: Thread, hs: seq<Happening>): Thread
    requires PossibleRun(t, hs)
    decreases |hs|
  {
    if hs == [] then t else Run(Happen(t, hs[0]), hs[1..])
  }
}
