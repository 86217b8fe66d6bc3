/** Notification bookkeeping (contexts/NotificationContext.tsx): the unread
    counter and the user's notification preferences. Every backend call is
    replaced by its reply, given as an argument. */
module NotificationContext {
  import opened Lists

  datatype Preferences = Preferences(
    newMachinesNearby: bool,
    machineApproved: bool,
    favoritesUpdates: bool,
    promotional: bool)

  /** Everything on except promotional messages. */
  const DefaultPreferences: Preferences := Preferences(true, true, true, false)

  /** `Partial<NotificationPreferences>`: `None` for an absent key. */
  datatype PreferencesUpdate = PreferencesUpdate(
    newMachinesNearby: Option<bool>,
    machineApproved: Option<bool>,
    favoritesUpdates: Option<bool>,
    promotional: Option<bool>)

  const NoChange: PreferencesUpdate := PreferencesUpdate(None, None, None, None)

  /** `{ ...preferences, ...prefs }`: each key present in the update wins. */
  function Merge(current: Preferences, update: PreferencesUpdate): (r: Preferences)
    ensures update.newMachinesNearby.Some? ==> r.newMachinesNearby == update.newMachinesNearby.value
    ensures update.newMachinesNearby.None? ==> r.newMachinesNearby == current.newMachinesNearby
    ensures update.machineApproved.Some? ==> r.machineApproved == update.machineApproved.value
    ensures update.machineApproved.None? ==> r.machineApproved == current.machineApproved
    ensures update.favoritesUpdates.Some? ==> r.favoritesUpdates == update.favoritesUpdates.value
    ensures update.favoritesUpdates.None? ==> r.favoritesUpdates == current.favoritesUpdates
    ensures update.promotional.Some? ==> r.promotional == update.promotional.value
    ensures update.promotional.None? ==> r.promotional == current.promotional
  {
    Preferences(
      update.newMachinesNearby.GetOr(current.newMachinesNearby),
      update.machineApproved.GetOr(current.machineApproved),
      update.favoritesUpdates.GetOr(current.favoritesUpdates),
      update.promotional.GetOr(current.promotional))
  }

  /** One spread after another: the later update wins key by key. */
  function Then(first: PreferencesUpdate, second: PreferencesUpdate): PreferencesUpdate
  {
    PreferencesUpdate(
      if second.newMachinesNearby.Some? then second.newMachinesNearby else first.newMachinesNearby,
      if second.machineApproved.Some? then second.machineApproved else first.machineApproved,
      if second.favoritesUpdates.Some? then second.favoritesUpdates else first.favoritesUpdates,
      if second.promotional.Some? then second.promotional else first.promotional)
  }

  /** The merge changes exactly the keys the update carries: an empty update
      keeps the preferences, a repeated update changes nothing more, and two
      updates in a row act as their key-wise combination. */
  lemma MergeLaws(current: Preferences, first: PreferencesUpdate, second: PreferencesUpdate)
    ensures Merge(current, NoChange) == current
    ensures Merge(Merge(current, first), first) == Merge(current, first)
    ensures Merge(Merge(current, first), second) == Merge(current, Then(first, second))
  {
  }

  /** The error code the backend uses for "no row": not an error here. */
  const NoRowsCode: string := "PGRST116"

  /** The reply to the preferences query: a row (or none) and an error code
      (or none), or an exception. */
  datatype PreferencesReply =
    | PreferencesResult(data: Option<Preferences>, errorCode: Option<string>)
    | PreferencesThrown

  /** `loadNotificationPreferences`: an error other than "no row" or an
      exception keeps the preferences; otherwise a returned row replaces
      them and a missing row keeps them. */
  function PreferencesAfterLoad(current: Preferences, reply: PreferencesReply): (r: Preferences)
    ensures reply.PreferencesThrown? ==> r == current
    ensures reply.PreferencesResult? && reply.errorCode.Some? && reply.errorCode.value != NoRowsCode ==> r == current
    ensures reply.PreferencesResult? && reply.data.None? ==> r == current
    ensures reply.PreferencesResult? && reply.data.Some? &&
              (reply.errorCode.None? || reply.errorCode == Some(NoRowsCode)) ==>
              r == reply.data.value
    ensures r != current ==> reply.PreferencesResult? && reply.data == Some(r) &&
                             (reply.errorCode.None? || reply.errorCode == Some(NoRowsCode))
  {
    match reply
    case PreferencesThrown => current
    case PreferencesResult(data, errorCode) =>
      if errorCode.Some? && errorCode.value != NoRowsCode then current
      else data.GetOr(current)
  }

  /** The reply to the unread-count query. */
  datatype CountReply = CountResult(count: Option<nat>) | CountFailed

  /** The reply to an update or upsert. */
  datatype WriteReply = WriteOk | WriteFailed

  /** What can happen to the unread counter. */
  datatype UnreadEvent =
    | Received
    | MarkedRead(writeReply: WriteReply)
    | CountLoaded(countReply: CountReply)

  /** The counter after one event: a received notification adds one; a
      successful mark-read takes one away but never below zero; a loaded
      count replaces it (a null count reads as zero); failures keep it. */
  function UnreadStep(count: int, e: UnreadEvent): (r: int)
    ensures count >= 0 ==> r >= 0
    ensures e == Received ==> r == count + 1
    ensures e == MarkedRead(WriteOk) ==> r == if count >= 1 then count - 1 else 0
    ensures e == MarkedRead(WriteFailed) || e == CountLoaded(CountFailed) ==> r == count
    ensures e.CountLoaded? && e.countReply.CountResult? ==> r == e.countReply.count.GetOr(0)
  {
    match e
    case Received => count + 1
    case MarkedRead(WriteOk) => if 0 > count - 1 then 0 else count - 1
    case MarkedRead(WriteFailed) => count
    case CountLoaded(CountResult(c)) => c.GetOr(0)
    case CountLoaded(CountFailed) => count
  }

  /** The counter after a sequence of events. */
  function Replay(count: int, events: seq<UnreadEvent>): int
    decreases events
  {
    if events == [] then count else Replay(UnreadStep(count, events[0]), events[1..])
  }

  function Occurrences(events: seq<UnreadEvent>, e: UnreadEvent): nat
  {
    if events == [] then 0 else (if events[0] == e then 1 else 0) + Occurrences(events[1..], e)
  }

  /** Starting from a non-negative count the counter never goes negative. */
  lemma {:induction false} ReplayNeverNegative(count: int, events: seq<UnreadEvent>)
    requires count >= 0
    ensures Replay(count, events) >= 0
    decreases events
  {
    if events != [] {
      ReplayNeverNegative(UnreadStep(count, events[0]), events[1..]);
    }
  }

  /** Without loads from the backend, the counter is at most the start plus
      the notifications received, and at least that minus the successful
      mark-reads (the clamp at zero only ever raises it). */
  lemma {:induction false} ReplayBounds(count: int, events: seq<UnreadEvent>)
    requires count >= 0
    requires forall i :: 0 <= i < |events| ==> !events[i].CountLoaded?
    ensures Replay(count, events) <= count + Occurrences(events, Received)
    ensures Replay(count, events) >= count + Occurrences(events, Received) - Occurrences(events, MarkedRead(WriteOk))
    decreases events
  {
    if events != [] {
      ReplayBounds(UnreadStep(count, events[0]), events[1..]);
    }
  }

  class NotificationState {
    var user: Option<string>
    var preferences: Preferences
    var unreadCount: int
    var loading: bool

    ghost predicate Valid()
      reads this
    {
      unreadCount >= 0
    }

    /** The provider's initial state. */
    constructor ()
      ensures Valid()
      ensures user == None && preferences == DefaultPreferences && unreadCount == 0 && !loading
    {
      user := None;
      preferences := DefaultPreferences;
      unreadCount := 0;
      loading := false;
    }

    /** The user effect: with a user, preferences and the unread count are
        loaded from the backend (push registration is not modelled). */
    method OnUserChange(newUser: Option<string>, preferencesReply: PreferencesReply, countReply: CountReply)
      requires Valid()
      modifies this`user, this`preferences, this`unreadCount
      ensures Valid() && user == newUser
      ensures newUser.None? ==> preferences == old(preferences) && unreadCount == old(unreadCount)
      ensures newUser.Some? ==>
                preferences == PreferencesAfterLoad(old(preferences), preferencesReply) &&
                unreadCount == UnreadStep(old(unreadCount), CountLoaded(countReply))
    {
      user := newUser;
      if newUser.Some? {
        LoadNotificationPreferences(preferencesReply);
        LoadUnreadCount(countReply);
      }
    }

    /** The received-notification listener. */
    method OnNotificationReceived()
      requires Valid()
      modifies this`unreadCount
      ensures Valid() && unreadCount == old(unreadCount) + 1
    {
      unreadCount := UnreadStep(unreadCount, Received);
    }

    /** `loadNotificationPreferences` */
    method LoadNotificationPreferences(reply: PreferencesReply)
      modifies this`preferences
      ensures user.None? ==> preferences == old(preferences)
      ensures user.Some? ==> preferences == PreferencesAfterLoad(old(preferences), reply)
    {
      if user.None? {
        return;
      }
      preferences := PreferencesAfterLoad(preferences, reply);
    }

    /** `loadUnreadCount` */
    method LoadUnreadCount(reply: CountReply)
      requires Valid()
      modifies this`unreadCount
      ensures Valid()
      ensures user.None? ==> unreadCount == old(unreadCount)
      ensures user.Some? ==> unreadCount == UnreadStep(old(unreadCount), CountLoaded(reply))
    {
      if user.None? {
        return;
      }
      unreadCount := UnreadStep(unreadCount, CountLoaded(reply));
    }

    /** `markNotificationAsRead` */
    method MarkNotificationAsRead(reply: WriteReply)
      requires Valid()
      modifies this`unreadCount
      ensures Valid()
      ensures user.None? ==> unreadCount == old(unreadCount)
      ensures user.Some? ==> unreadCount == UnreadStep(old(unreadCount), MarkedRead(reply))
    {
      if user.None? {
        return;
      }
      unreadCount := UnreadStep(unreadCount, MarkedRead(reply));
    }

    /** The notification-response listener: a tapped notification whose
        payload carries a non-empty id is marked as read; any other is
        ignored. */
    method OnNotificationResponse(notificationId: Option<string>, reply: WriteReply)
      requires Valid()
      modifies this`unreadCount
      ensures Valid()
      ensures notificationId.None? || notificationId == Some("") || user.None? ==> unreadCount == old(unreadCount)
      ensures notificationId.Some? && notificationId.value != "" && user.Some? ==>
                unreadCount == UnreadStep(old(unreadCount), MarkedRead(reply))
    {
      if notificationId.Some? && notificationId.value != "" {
        MarkNotificationAsRead(reply);
      }
    }

    /** `updatePreferences`: the merged preferences are sent to the backend
        (`sent`) and committed only when the upsert succeeds; a failed upsert
        is rethrown (`thrown`). Without a user the call does nothing. */
    method UpdatePreferences(update: PreferencesUpdate, reply: WriteReply) returns (sent: Option<Preferences>, thrown: bool)
      modifies this`preferences, this`loading
      ensures user.None? ==> sent.None? && !thrown && preferences == old(preferences) && loading == old(loading)
      ensures user.Some? ==> sent == Some(Merge(old(preferences), update))
      ensures user.Some? ==> !loading && (thrown <==> reply == WriteFailed)
      ensures user.Some? ==> preferences == if reply == WriteOk then Merge(old(preferences), update) else old(preferences)
    {
      if user.None? {
        return None, false;
      }
      loading := true;
      var updated := Merge(preferences, update);
      sent := Some(updated);
      if reply == WriteFailed {
        thrown := true;
      } else {
        preferences := updated;
        thrown := false;
      }
      loading := false;
    }
  }
}
