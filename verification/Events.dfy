/** base/Events.cpp: what the loop knows about a file descriptor. */
module EventRecords {

  type Fd = int

  type Mask = bv32

  const POLLIN: Mask := 0x1
  const POLLPRI: Mask := 0x2
  const POLLOUT: Mask := 0x4
  const POLLRDHUP: Mask := 0x2000

  const NONE_EVENT: Mask := 0
  const READ_EVENT: Mask := POLLIN | POLLPRI
  const WRITE_EVENT: Mask := POLLOUT

  datatype EventState = New | Mod | Used | Del | Invalid

  datatype Event = Event(fd: Fd, state: EventState, eorigin: Mask, reported: Mask)

  function NewEvent(fd: Fd, mask: Mask): Event {
    Event(fd, New, mask, NONE_EVENT)
  }

  function UpdateEvents(e: Event, mask: Mask): Event {
    e.(eorigin := mask, state := Mod)
  }

  /** eorigin_ &= ~mask */
  function DeleteEvent(e: Event, mask: Mask): Event {
    e.(eorigin := e.eorigin & (0xFFFF_FFFF ^ mask), state := Mod)
  }

  /** mutable_ &= ~mask */
  function DeleteReported(e: Event, mask: Mask): Event {
    e.(reported := e.reported & (0xFFFF_FFFF ^ mask), state := Mod)
  }

  predicate ReadBits(m: Mask) {
    m & (POLLIN | POLLPRI | POLLRDHUP) != 0
  }

  predicate WriteBits(m: Mask) {
    m & POLLOUT != 0
  }

  /** A report that was not asked for is dropped. */
  function Dropped(e: Event, unasked: bool, mask: Mask): (f: Event)
    ensures f.fd == e.fd && f.eorigin == e.eorigin && (e.state == Mod ==> f.state == Mod)
  {
    if unasked then DeleteReported(e, mask) else e
  }

  function DropRead(e: Event): Event {
    Dropped(e, ReadBits(e.reported) && !ReadBits(e.eorigin), READ_EVENT)
  }

  function DropWrite(e: Event): Event {
    Dropped(e, WriteBits(e.reported) && !WriteBits(e.eorigin), WRITE_EVENT)
  }

  /** EventLoop::eventHandleAble: drop what was not asked for; is there anything left to handle? */
  function HandleAble(e: Event): (Event, bool) {
    if e.state == Del then (e, false)
    else if e.state == Mod then
      var f := DropWrite(DropRead(e));
      (f, f.reported != NONE_EVENT)
    else (e, true)
  }

  /** Of a modified record that asks for reading, exactly the reports of anything besides writable space are
      handled. */
  lemma ReadingHandles(e: Event)
    requires e.state == Mod && e.eorigin == READ_EVENT
    ensures HandleAble(e).1 <==> e.reported & 0xFFFF_FFFB != 0
  {
  }

  /** Of one that asks for writing alone, those of anything besides readable data. */
  lemma WritingHandles(e: Event)
    requires e.state == Mod && e.eorigin == WRITE_EVENT
    ensures HandleAble(e).1 <==> e.reported & 0xFFFF_FFFC != 0
  {
  }

  /** Of one that asks for both, all but the empty one. */
  lemma BothHandle(e: Event)
    requires e.state == Mod && ReadBits(e.eorigin) && WriteBits(e.eorigin)
    ensures HandleAble(e).1 <==> e.reported != 0
    ensures HandleAble(e).0 == e
  {
  }

  /** A deleted record handles no report, and one that is not modified either every one. */
  lemma UnmodifiedHandles(e: Event)
    requires e.state != Mod
    ensures HandleAble(e).0 == e && (HandleAble(e).1 <==> e.state != Del)
  {
  }

  /** So a report of anything besides writable space is handled whenever reading was asked for, also just after
      the registration. */
  lemma ReadReportHandled(e: Event)
    requires e.state != Del && e.eorigin == READ_EVENT && e.reported & 0xFFFF_FFFB != 0
    ensures HandleAble(e).1
  {
  }

  /** eventHandleAble changes neither the descriptor, the state nor the mask asked for. */
  lemma HandleAbleKeeps(e: Event)
    ensures var f := HandleAble(e).0;
      f.fd == e.fd && f.eorigin == e.eorigin && f.state == e.state
  {
  }

  lemma ReadWithdrawn(e: Event)
    requires e.eorigin == READ_EVENT || e.eorigin == NONE_EVENT
    ensures DeleteEvent(e, READ_EVENT).eorigin == NONE_EVENT
  {
  }

  /** Once reading is withdrawn, a report of readable or writable data alone is not handled: of a record that
      asks for nothing, handled is exactly what has a bit beyond those of READ_EVENT and WRITE_EVENT. */
  lemma WithdrawnReportIgnored(e: Event)
    requires e.state == Mod && e.eorigin == NONE_EVENT
    ensures HandleAble(e).1 <==> e.reported & 0xFFFF_FFF8 != 0
  {
  }
}
