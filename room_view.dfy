/**
 * The room view component as an object whose handlers update its fields in
 * place (src/controllers/organisms/RoomView.js). Each React setState is an
 * immediate field update. Each promise continuation (of scrollback and of
 * joinRoom) is a method the environment calls later. The browser's layout and
 * the client's Room object are fields the environment sets through Measure and
 * RoomUpdated. Every handler, continuation and environment method is proved to
 * take the object from Model() to the Window that RoomModel.Step gives for its
 * event, so the lemmas of RoomProperties hold of every run driven by those
 * methods. FillSpace is the helper they share and has no event of its own.
 */
module RoomViewComponent {
  import opened RoomModel

  class RoomView {
    // React state
    var messageCap: nat
    var paginating: bool
    var joining: bool
    var joinError: Option<string>
    // instance fields
    var waiting: bool                  // waiting_for_paginate
    var atBottom: bool
    var oldScrollHeight: Option<int>
    var phase: Phase
    // the message list node, when rendered
    var listShown: bool
    var scrollTop: int
    var clientHeight: int
    var scrollHeight: int
    // the Room object shared with the client
    var timelineLength: nat
    var hasToken: bool
    // bookkeeping
    ghost var outstanding: nat         // scrollback requests not yet settled
    ghost var issued: nat              // scrollback requests issued so far
    ghost var joinsOutstanding: nat    // joinRoom requests not yet settled
    ghost var roomReloads: nat         // room re-reads that reached the React state

    /** The object's state as a value. */
    ghost function Model(): Window
      reads this
    {
      Window(messageCap, paginating, waiting, atBottom, joining, joinError, phase,
             oldScrollHeight, listShown, scrollTop, clientHeight, scrollHeight,
             timelineLength, hasToken, outstanding, issued, joinsOutstanding, roomReloads)
    }

    ghost predicate Valid()
      reads this
    {
      Inv(Model())
    }

    /** getInitialState and componentWillMount, for a room with the given timeline. */
    constructor (timelineLength: nat, hasToken: bool)
      ensures Model() == Initial(timelineLength, hasToken)
      ensures Valid()
    {
      messageCap := INITIAL_SIZE;
      paginating, joining, joinError := false, false, None;
      waiting, atBottom, oldScrollHeight, phase := false, true, None, Created;
      listShown, scrollTop, clientHeight, scrollHeight := false, 0, 0, 0;
      this.timelineLength, this.hasToken := timelineLength, hasToken;
      outstanding, issued, joinsOutstanding, roomReloads := 0, 0, 0, 0;
    }

    /** The browser laid the list out again, resized it, or the user scrolled it. */
    method Measure(listShown: bool, scrollTop: int, clientHeight: int, scrollHeight: int)
      requires Valid() && clientHeight >= 0 && scrollHeight >= 0
      modifies this
      ensures Model() == Step(old(Model()), Layout(listShown, scrollTop, clientHeight, scrollHeight))
      ensures Valid()
    {
      this.listShown, this.scrollTop := listShown, scrollTop;
      this.clientHeight, this.scrollHeight := clientHeight, scrollHeight;
    }

    /** The client changed the shared Room object (new events, a new pagination token). */
    method RoomUpdated(newLength: nat, newHasToken: bool)
      requires Valid()
      modifies this
      ensures Model() == Step(old(Model()), RoomChanged(newLength, newHasToken))
      ensures Valid()
    {
      timelineLength, hasToken := newLength, newHasToken;
    }

    /** fillSpace; a remote round issues one scrollback, settled later by ScrollbackFinished. */
    method FillSpace() returns (grew: bool)
      requires listShown
      modifies this
      ensures (Model(), grew) == RoomModel.FillSpace(old(Model()))
    {
      if scrollTop < clientHeight && hasToken {
        paginating := true;
        oldScrollHeight := Some(scrollHeight);
        if messageCap < timelineLength {
          waiting := false;
          messageCap := LocalCap(messageCap, timelineLength);
        } else {
          waiting := true;
          messageCap := messageCap + PAGINATE_SIZE;
          outstanding, issued := outstanding + 1, issued + 1;
        }
        return true;
      }
      return false;
    }

    method ComponentDidMount()
      requires Valid() && phase == Created
      modifies this
      ensures Model() == Step(old(Model()), Mount)
      ensures Valid()
    {
      phase := Mounted;
      if listShown {
        scrollTop := scrollHeight;
        var _ := FillSpace();
      }
    }

    method ComponentDidUpdate()
      requires Valid() && phase == Mounted
      modifies this
      ensures Model() == Step(old(Model()), Update)
      ensures Valid()
    {
      if !listShown {
        return;
      }
      if paginating && !waiting {
        var heightGained := scrollHeight - oldScrollHeight.value;
        scrollTop := scrollTop + heightGained;
        oldScrollHeight := None;
        var grew := FillSpace();
        if !grew {
          paginating := false;
        }
      } else if atBottom {
        scrollTop := scrollHeight;
      }
    }

    method OnMessageListScroll()
      requires Valid() && phase == Mounted
      modifies this
      ensures Model() == Step(old(Model()), Scroll)
      ensures Valid()
    {
      if listShown {
        atBottom := scrollHeight - scrollTop <= clientHeight;
      }
      // without the list node fillSpace throws before changing anything
      if !paginating && listShown {
        var _ := FillSpace();
      }
    }

    method OnRoomTimeline(isThisRoom: bool, toStart: bool)
      requires Valid()
      modifies this
      ensures Model() == Step(old(Model()), Timeline(isThisRoom, toStart))
      ensures Valid()
    {
      if phase != Mounted {
        return;
      }
      if paginating {
        return;
      }
      if joining {
        return;
      }
      if !isThisRoom {
        return;
      }
      if listShown {
        atBottom := scrollHeight - scrollTop <= clientHeight;
      }
      roomReloads := roomReloads + 1;
      // without the list node fillSpace throws before changing anything
      if toStart && !paginating && listShown {
        var _ := FillSpace();
      }
    }

    method OnAction(messageSent: bool)
      requires Valid()
      modifies this
      ensures Model() == Step(old(Model()), Action(messageSent))
      ensures Valid()
    {
      if messageSent && phase == Mounted {
        roomReloads := roomReloads + 1;
      }
    }

    /** The finally continuation of scrollback, once the client has stored the reply. */
    method ScrollbackFinished(newLength: nat, newHasToken: bool)
      requires Valid() && outstanding > 0
      modifies this
      ensures Model() == Step(old(Model()), BackfillDone(newLength, newHasToken))
      ensures Valid()
    {
      timelineLength, hasToken := newLength, newHasToken;
      outstanding := outstanding - 1;
      waiting := false;
      if phase == Mounted {
        roomReloads := roomReloads + 1;
      }
    }

    method JoinClicked()
      requires Valid() && phase == Mounted
      modifies this
      ensures Model() == Step(old(Model()), JoinClick)
      ensures Valid()
    {
      joinsOutstanding := joinsOutstanding + 1;
      joining := true;
    }

    /** The success continuation of joinRoom; React drops it once unmounted. */
    method JoinSucceeded()
      requires Valid() && joinsOutstanding > 0
      modifies this
      ensures Model() == Step(old(Model()), JoinOk)
      ensures Valid()
    {
      joinsOutstanding := joinsOutstanding - 1;
      if phase == Mounted {
        joining := false;
        roomReloads := roomReloads + 1;
      }
    }

    /** The failure continuation of joinRoom; React drops it once unmounted. */
    method JoinFailed(error: string)
      requires Valid() && joinsOutstanding > 0
      modifies this
      ensures Model() == Step(old(Model()), JoinError(error))
      ensures Valid()
    {
      joinsOutstanding := joinsOutstanding - 1;
      if phase == Mounted {
        joining := false;
        joinError := Some(error);
      }
    }

    /** componentWillUnmount, as far as isMounted() is concerned. */
    method ComponentWillUnmount()
      requires Valid() && phase == Mounted
      modifies this
      ensures Model() == Step(old(Model()), Unmount)
      ensures Valid()
    {
      phase := Unmounted;
    }
  }
}
