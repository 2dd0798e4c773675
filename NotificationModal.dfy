/**
 * The notifications pop-up (src/components/NotificationModal.tsx): the list it shows is
 * chosen once from the prop or the mock data, and shrinks under delete-one and delete-all.
 */
module NotificationModal {
  import opened Seqs

  datatype Notification = Notification(id: string, message: string, date: string, read: bool)

  const MockNotifications: seq<Notification> := [
    Notification("1", "Your flight to London has been confirmed.", "2023-07-15 10:30 AM", false),
    Notification("2", "Reminder: Check-in opens in 24 hours for your flight to Paris.", "2023-07-14 2:45 PM", true),
    Notification("3", "Special offer: 20% off on your next booking!", "2023-07-13 9:00 AM", false),
    Notification("4", "Flight status update: Your flight to Tokyo is on time.", "2023-07-12 11:15 AM", true)
  ]

  /** The initial list: the `notifications` prop when it has entries, the mock list otherwise;
      either way the modal opens on a non-empty list. */
  function InitialNotifications(notifications: seq<Notification>): (r: seq<Notification>)
    ensures r != []
    ensures notifications != [] ==> r == notifications
    ensures notifications == [] ==> r == MockNotifications
  {
    if |notifications| > 0 then notifications else MockNotifications
  }

  function KeepOthers(id: string): Notification -> bool { (n: Notification) => n.id != id }

  /** The list after `handleDeleteSingle(id)`. */
  function DeleteSingle(list: seq<Notification>, id: string): seq<Notification> {
    Filter(list, KeepOthers(id))
  }

  /** Every notification with the id is gone; every other one stays, as often as before and in
      its original relative order. */
  lemma DeleteSingleSpec(list: seq<Notification>, id: string, n: Notification)
    ensures n.id == id ==> n !in DeleteSingle(list, id)
    ensures n.id != id ==> multiset(DeleteSingle(list, id))[n] == multiset(list)[n]
    ensures IsSubsequence(DeleteSingle(list, id), list)
  {
    FilterMember(list, KeepOthers(id), n);
    FilterCount(list, KeepOthers(id), n);
    FilterIsSubsequence(list, KeepOthers(id));
  }

  /** Deleting an id that no notification has changes nothing. */
  lemma DeleteAbsentIsNoop(list: seq<Notification>, id: string)
    requires forall i :: 0 <= i < |list| ==> list[i].id != id
    ensures DeleteSingle(list, id) == list
  {
    FilterKeepsAll(list, KeepOthers(id));
  }

  /** Deleting the same id twice is deleting it once. */
  lemma DeleteTwice(list: seq<Notification>, id: string)
    ensures DeleteSingle(DeleteSingle(list, id), id) == DeleteSingle(list, id)
  {
    FilterIdempotent(list, KeepOthers(id));
  }

  /** The modal's `displayNotifications` state. */
  class NotificationsModal {
    var displayNotifications: seq<Notification>

    constructor (notifications: seq<Notification>)
      ensures displayNotifications == InitialNotifications(notifications)
    {
      displayNotifications := InitialNotifications(notifications);
    }

    /** "No new notifications" is shown. */
    function ShowsEmptyState(): bool
      reads this
    {
      |displayNotifications| == 0
    }

    /** The "Delete all notifications" button is shown. */
    function ShowsDeleteAll(): bool
      reads this
    {
      |displayNotifications| > 0
    }

    method HandleDeleteAll()
      modifies this
      ensures displayNotifications == []
      ensures ShowsEmptyState() && !ShowsDeleteAll()
    {
      displayNotifications := [];
    }

    method HandleDeleteSingle(id: string)
      modifies this
      ensures displayNotifications == DeleteSingle(old(displayNotifications), id)
    {
      displayNotifications := DeleteSingle(displayNotifications, id);
    }
  }
}
