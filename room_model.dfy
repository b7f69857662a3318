/**
 * Value model of the windowed pagination of the room view component
 * (src/controllers/organisms/RoomView.js).
 *
 * A Window is the component's whole state at one instant: its React state
 * (messageCap, paginating, joining, joinError), its instance fields
 * (waiting_for_paginate, atBottom, oldScrollHeight), the message list's scroll
 * metrics, and the timeline length and pagination token of the Room object it
 * shares with the client. Every handler of the component is a function from the
 * old Window to the new one. setState is treated as an immediate field update.
 */
module RoomModel {

  /** Events revealed locally, or requested from the server, per round. */
  const PAGINATE_SIZE: nat := 20
  /** Most recent events shown when the component is created. */
  const INITIAL_SIZE: nat := 100

  datatype Option<T> = None | Some(value: T)

  /** React's lifecycle; isMounted() holds exactly in Mounted. */
  datatype Phase = Created | Mounted | Unmounted

  datatype Window = Window(
    messageCap: nat,
    paginating: bool,
    waiting: bool,                  // waiting_for_paginate
    atBottom: bool,
    joining: bool,
    joinError: Option<string>,
    phase: Phase,
    oldScrollHeight: Option<int>,   // undefined is None
    listShown: bool,                // refs.messageList is rendered
    scrollTop: int,
    clientHeight: int,
    scrollHeight: int,
    timelineLength: nat,            // room.timeline.length
    hasToken: bool,                 // room.oldState.paginationToken is set
    // bookkeeping that the source does not store:
    outstanding: nat,               // scrollback requests issued and not yet settled
    issued: nat,                    // scrollback requests issued so far
    joinsOutstanding: nat,          // joinRoom requests issued and not yet settled
    roomReloads: nat                // room re-reads that reached the React state
  )

  /** The first half of fillSpace's test: less than one screen of content lies above the viewport. */
  predicate NearTop(w: Window) {
    w.scrollTop < w.clientHeight
  }

  /** The atBottom test shared by the scroll and the timeline handlers. */
  predicate ScrolledToBottom(w: Window) {
    w.scrollHeight - w.scrollTop <= w.clientHeight
  }

  /** The cap after one local round: PAGINATE_SIZE more events, but no more than are buffered. */
  function LocalCap(cap: nat, len: nat): (r: nat)
    requires cap < len
    ensures cap < r <= len
    ensures r <= cap + PAGINATE_SIZE
    ensures r == len || r == cap + PAGINATE_SIZE
  {
    if cap + PAGINATE_SIZE < len then cap + PAGINATE_SIZE else len
  }

  /** getInitialState followed by componentWillMount (which sets atBottom). */
  function Initial(timelineLength: nat, hasToken: bool): (w: Window)
    ensures w.messageCap == INITIAL_SIZE && w.atBottom
    ensures !w.paginating && !w.waiting && !w.joining && w.joinError == None
    ensures w.phase == Created && w.outstanding == 0 && w.issued == 0
    ensures w.timelineLength == timelineLength && w.hasToken == hasToken
    ensures Inv(w)
  {
    Window(INITIAL_SIZE, false, false, true, false, None, Created, None,
           false, 0, 0, 0, timelineLength, hasToken, 0, 0, 0, 0)
  }

  /**
   * fillSpace. Declines (false, nothing changed) unless the view is near the top
   * and the room has a pagination token. Otherwise it starts or continues a
   * growth cycle, capturing the content height, and either reveals buffered
   * events (local round) or grows the cap ahead of one scrollback request
   * (remote round). Only the cap, the cycle flags, the captured height and the
   * request counters change.
   */
  function FillSpace(w: Window): (r: (Window, bool))
    requires w.listShown
    ensures r.1 <==> NearTop(w) && w.hasToken
    ensures !r.1 ==> r.0 == w
    ensures r.1 ==> r.0.paginating && r.0.oldScrollHeight == Some(w.scrollHeight)
    ensures r.1 ==> r.0.messageCap > w.messageCap
    ensures r.1 && w.messageCap < w.timelineLength ==>
      && r.0.messageCap <= w.timelineLength
      && r.0.messageCap <= w.messageCap + PAGINATE_SIZE
      && (r.0.messageCap == w.timelineLength || r.0.messageCap == w.messageCap + PAGINATE_SIZE)
      && !r.0.waiting && r.0.outstanding == w.outstanding && r.0.issued == w.issued
    ensures r.1 && w.timelineLength <= w.messageCap ==>
      && r.0.messageCap == w.messageCap + PAGINATE_SIZE
      && r.0.waiting
      && r.0.outstanding == w.outstanding + 1 && r.0.issued == w.issued + 1
    ensures r.0.(messageCap := w.messageCap, paginating := w.paginating, waiting := w.waiting,
                 oldScrollHeight := w.oldScrollHeight, outstanding := w.outstanding,
                 issued := w.issued) == w
  {
    if NearTop(w) && w.hasToken then
      var started := w.(paginating := true, oldScrollHeight := Some(w.scrollHeight));
      if w.messageCap < w.timelineLength then
        (started.(waiting := false, messageCap := LocalCap(w.messageCap, w.timelineLength)), true)
      else
        // scrollback(room, PAGINATE_SIZE) is issued; its settlement is ScrollbackFinished
        (started.(waiting := true, messageCap := w.messageCap + PAGINATE_SIZE,
                  outstanding := w.outstanding + 1, issued := w.issued + 1), true)
    else
      (w, false)
  }

  /**
   * A call of fillSpace whose caller does not check for the message list: without
   * the list node fillSpace throws a TypeError before it changes anything, and the
   * calling handler (whose last statement it is) ends there.
   */
  function FillSpaceOrThrow(w: Window): (r: Window)
    ensures r.messageCap >= w.messageCap
    ensures !w.listShown ==> r == w
  {
    if w.listShown then FillSpace(w).0 else w
  }

  /**
   * setState({room: getRoom(roomId)}). The Room object is shared with the client,
   * so re-reading it only schedules a re-render; React drops a setState on a
   * component that is not mounted.
   */
  function ReloadRoom(w: Window): (r: Window)
    ensures r == w.(roomReloads := r.roomReloads)
    ensures r.roomReloads == w.roomReloads + (if w.phase == Mounted then 1 else 0)
  {
    if w.phase == Mounted then w.(roomReloads := w.roomReloads + 1) else w
  }

  /** componentDidMount: pin the list to its bottom, then try to fill the screen once. */
  function ComponentDidMount(w: Window): (r: Window)
    requires w.phase == Created && !w.paginating
    ensures r.phase == Mounted
    ensures !w.listShown ==> r == w.(phase := Mounted)
    ensures w.listShown ==> r.scrollTop == w.scrollHeight
    ensures w.listShown ==> (r.paginating <==> w.scrollHeight < w.clientHeight && w.hasToken)
    ensures r.messageCap >= w.messageCap && r.outstanding <= w.outstanding + 1
  {
    var m := w.(phase := Mounted);
    if m.listShown then FillSpace(m.(scrollTop := m.scrollHeight)).0 else m
  }

  /**
   * componentDidUpdate. While a cycle is active and no scrollback is awaited, the
   * scroll offset moves down by exactly the height gained since the capture, the
   * capture is cleared and fillSpace runs again; the cycle ends iff it declines.
   * Otherwise a view that was at the bottom is pinned to the bottom.
   */
  function ComponentDidUpdate(w: Window): (r: Window)
    requires w.paginating ==> w.oldScrollHeight.Some?
    ensures r.messageCap >= w.messageCap
    ensures !w.listShown ==> r == w
    ensures w.listShown && w.paginating && !w.waiting ==>
      var anchored := w.scrollTop + (w.scrollHeight - w.oldScrollHeight.value);
      && r.scrollTop == anchored
      && (r.paginating <==> anchored < w.clientHeight && w.hasToken)
      && r.oldScrollHeight == (if r.paginating then Some(w.scrollHeight) else None)
    ensures w.listShown && !(w.paginating && !w.waiting) && w.atBottom ==>
      r == w.(scrollTop := w.scrollHeight) && (w.clientHeight >= 0 ==> ScrolledToBottom(r))
    ensures w.listShown && !(w.paginating && !w.waiting) && !w.atBottom ==> r == w
  {
    if !w.listShown then w
    else if w.paginating && !w.waiting then
      var heightGained := w.scrollHeight - w.oldScrollHeight.value;
      var w1 := w.(scrollTop := w.scrollTop + heightGained, oldScrollHeight := None);
      var (w2, grew) := FillSpace(w1);
      if !grew then w2.(paginating := false) else w2
    else if w.atBottom then w.(scrollTop := w.scrollHeight)
    else w
  }

  /** onMessageListScroll: refresh atBottom, and try to fill unless a cycle is active. */
  function OnMessageListScroll(w: Window): (r: Window)
    ensures r.atBottom == (if w.listShown then ScrolledToBottom(w) else w.atBottom)
    ensures w.paginating ==> r == w.(atBottom := r.atBottom)
    ensures !w.paginating && w.listShown ==> (r.paginating <==> NearTop(w) && w.hasToken)
    ensures r.messageCap >= w.messageCap
  {
    var w1 := if w.listShown then w.(atBottom := ScrolledToBottom(w)) else w;
    if !w1.paginating then FillSpaceOrThrow(w1) else w1
  }

  /**
   * onRoomTimeline, for an event of this room (isThisRoom) added at the start
   * (toStart) or the end of its timeline. Ignored before mount or after unmount,
   * during a growth cycle, while joining, and for other rooms. Otherwise it
   * refreshes atBottom and the room, and tries to fill only for a prepended event.
   */
  function OnRoomTimeline(w: Window, isThisRoom: bool, toStart: bool): (r: Window)
    ensures w.phase != Mounted || w.paginating || w.joining || !isThisRoom ==> r == w
    ensures w.phase == Mounted && !w.paginating && !w.joining && isThisRoom ==>
      && r.roomReloads == w.roomReloads + 1
      && r.atBottom == (if w.listShown then ScrolledToBottom(w) else w.atBottom)
      && (!toStart ==> r == w.(atBottom := r.atBottom, roomReloads := r.roomReloads))
      && (toStart && w.listShown ==> (r.paginating <==> NearTop(w) && w.hasToken))
    ensures r.messageCap >= w.messageCap
  {
    if w.phase != Mounted then w
    else if w.paginating then w
    else if w.joining then w
    else if !isThisRoom then w
    else
      var w1 := if w.listShown then w.(atBottom := ScrolledToBottom(w)) else w;
      var w2 := ReloadRoom(w1);
      if toStart && !w2.paginating then FillSpaceOrThrow(w2) else w2
  }

  /** onAction: a 'message_sent' action re-reads the room and nothing else. */
  function OnAction(w: Window, messageSent: bool): (r: Window)
    ensures r == w.(roomReloads := r.roomReloads)
    ensures r.roomReloads == w.roomReloads + (if messageSent && w.phase == Mounted then 1 else 0)
  {
    if messageSent then ReloadRoom(w) else w
  }

  /**
   * The finally continuation of scrollback, after the client has stored what the
   * server returned (the room's new length and token; unchanged on failure). It
   * clears waiting_for_paginate, re-reads the room only if still mounted, and
   * leaves the cycle to the next componentDidUpdate.
   */
  function ScrollbackFinished(w: Window, newLength: nat, newHasToken: bool): (r: Window)
    requires w.outstanding > 0
    ensures !r.waiting && r.outstanding == w.outstanding - 1
    ensures r.paginating == w.paginating && r.messageCap == w.messageCap
    ensures r.timelineLength == newLength && r.hasToken == newHasToken
    ensures r.roomReloads == w.roomReloads + (if w.phase == Mounted then 1 else 0)
    ensures r.(waiting := w.waiting, outstanding := w.outstanding, timelineLength := w.timelineLength,
               hasToken := w.hasToken, roomReloads := w.roomReloads) == w
  {
    ReloadRoom(w.(timelineLength := newLength, hasToken := newHasToken,
                  waiting := false, outstanding := w.outstanding - 1))
  }

  /** onJoinButtonClicked: issue joinRoom, then show the spinner. */
  function JoinClicked(w: Window): (r: Window)
    ensures r.joining && r.joinsOutstanding == w.joinsOutstanding + 1
    ensures r.(joining := w.joining, joinsOutstanding := w.joinsOutstanding) == w
  {
    w.(joining := true, joinsOutstanding := w.joinsOutstanding + 1)
  }

  /** The success continuation of joinRoom: clear the spinner and re-read the room. */
  function JoinSucceeded(w: Window): (r: Window)
    requires w.joinsOutstanding > 0
    ensures r.joinsOutstanding == w.joinsOutstanding - 1 && r.joinError == w.joinError
    ensures w.phase == Mounted ==> !r.joining && r.roomReloads == w.roomReloads + 1
    ensures w.phase != Mounted ==> r.joining == w.joining && r.roomReloads == w.roomReloads
    ensures r.(joining := w.joining, joinsOutstanding := w.joinsOutstanding,
               roomReloads := w.roomReloads) == w
  {
    var w1 := w.(joinsOutstanding := w.joinsOutstanding - 1);
    if w.phase == Mounted then w1.(joining := false, roomReloads := w.roomReloads + 1) else w1
  }

  /** The failure continuation of joinRoom: clear the spinner and record the error. */
  function JoinFailed(w: Window, error: string): (r: Window)
    requires w.joinsOutstanding > 0
    ensures r.joinsOutstanding == w.joinsOutstanding - 1
    ensures w.phase == Mounted ==> !r.joining && r.joinError == Some(error)
    ensures w.phase != Mounted ==> r.joining == w.joining && r.joinError == w.joinError
    ensures r.(joining := w.joining, joinError := w.joinError,
               joinsOutstanding := w.joinsOutstanding) == w
  {
    var w1 := w.(joinsOutstanding := w.joinsOutstanding - 1);
    if w.phase == Mounted then w1.(joining := false, joinError := Some(error)) else w1
  }

  /** What the environment can do to a Window, one event at a time. */
  datatype Event =
    | Layout(listShown: bool, scrollTop: int, clientHeight: int, scrollHeight: int)
        // the browser re-rendered, resized or the user scrolled
    | RoomChanged(timelineLength: nat, hasToken: bool)
        // the client added events to the shared Room object
    | Mount
    | Update
    | Scroll
    | Timeline(isThisRoom: bool, toStart: bool)
    | Action(messageSent: bool)
    | BackfillDone(timelineLength: nat, hasToken: bool)
    | JoinClick
    | JoinOk
    | JoinError(error: string)
    | Unmount

  /** The handlers that may call fillSpace, and so change the cap. */
  predicate MayFill(e: Event) {
    e.Mount? || e.Update? || e.Scroll? || e.Timeline?
  }

  /** What React, the browser and the client guarantee about when each event occurs. */
  predicate Enabled(w: Window, e: Event) {
    match e
    case Layout(_, _, clientHeight, scrollHeight) => clientHeight >= 0 && scrollHeight >= 0
    case RoomChanged(_, _) => true
    case Mount => w.phase == Created
    case Update => w.phase == Mounted
    case Scroll => w.phase == Mounted
    case Timeline(_, _) => true
    case Action(_) => true
    case BackfillDone(_, _) => w.outstanding > 0
    case JoinClick => w.phase == Mounted
    case JoinOk => w.joinsOutstanding > 0
    case JoinError(_) => w.joinsOutstanding > 0
    case Unmount => w.phase == Mounted
  }

  /**
   * The invariant every reachable Window keeps. Its third and fourth conjuncts are
   * single flight: a cycle always carries its captured height, and a scrollback is
   * outstanding exactly while waiting_for_paginate is set, so never two at once.
   */
  predicate Inv(w: Window) {
    && w.messageCap >= INITIAL_SIZE
    && (w.waiting ==> w.paginating)
    && (w.paginating <==> w.oldScrollHeight.Some?)
    && w.outstanding == (if w.waiting then 1 else 0)
    && (w.phase == Created ==> !w.paginating && !w.joining && w.joinsOutstanding == 0)
    && (w.joining && w.phase == Mounted ==> w.joinsOutstanding > 0)
    && w.clientHeight >= 0 && w.scrollHeight >= 0
  }

  /** The events that can give the room a pagination token. */
  predicate BringsToken(e: Event) {
    (e.RoomChanged? && e.hasToken) || (e.BackfillDone? && e.hasToken)
  }

  /** Settlements of scrollback requests in an event. */
  function Completed(e: Event): nat {
    if e.BackfillDone? then 1 else 0
  }

  /** One event applied to a Window. */
  function Step(w: Window, e: Event): (r: Window)
    requires Inv(w) && Enabled(w, e)
    ensures Inv(r)
    ensures r.messageCap >= w.messageCap
    ensures !MayFill(e) ==> r.messageCap == w.messageCap
    ensures r.issued + w.outstanding == w.issued + r.outstanding + Completed(e)
  {
    match e
    case Layout(listShown, scrollTop, clientHeight, scrollHeight) =>
      w.(listShown := listShown, scrollTop := scrollTop,
         clientHeight := clientHeight, scrollHeight := scrollHeight)
    case RoomChanged(len, token) => w.(timelineLength := len, hasToken := token)
    case Mount => ComponentDidMount(w)
    case Update => ComponentDidUpdate(w)
    case Scroll => OnMessageListScroll(w)
    case Timeline(isThisRoom, toStart) => OnRoomTimeline(w, isThisRoom, toStart)
    case Action(messageSent) => OnAction(w, messageSent)
    case BackfillDone(len, token) => ScrollbackFinished(w, len, token)
    case JoinClick => JoinClicked(w)
    case JoinOk => JoinSucceeded(w)
    case JoinError(error) => JoinFailed(w, error)
    case Unmount => w.(phase := Unmounted)
  }

  /** A sequence of events each of which the environment can deliver when it comes. */
  predicate Legal(w: Window, es: seq<Event>)
    requires Inv(w)
    decreases |es|
  {
    es == [] || (Enabled(w, es[0]) && Legal(Step(w, es[0]), es[1..]))
  }

  /** The Window after a legal sequence of events. */
  function Run(w: Window, es: seq<Event>): (r: Window)
    requires Inv(w) && Legal(w, es)
    ensures Inv(r)
    ensures r.messageCap >= w.messageCap
    ensures r.outstanding <= 1
    decreases |es|
  {
    if es == [] then w else Run(Step(w, es[0]), es[1..])
  }
}
