/** The notification handlers: `newNotification`, the helper other handlers
    call to record a notification, and the three request handlers that
    create, list and clear the caller's notifications. */
module NotificationController {
  import opened Common
  import opened Records
  import opened Store

  const FieldsRequired: string := "All fields (senderId, title, body, type) are required."
  const MissingTitleOrBody: string := "Missing required fields: title, body, or type"
  /** The message of the validation error `save()` raises for an empty type. */
  const TypeRequired: string := "Notification validation failed: type: Path `type` is required."

  /** The guard of `newNotification`: every argument except `isRead` is truthy. */
  predicate NewNotificationAccepted(receiverId: Option<Id>, senderId: Option<Id>, title: string, body: string,
                                    kind: string, bookingId: Option<Id>)
  {
    receiverId.Some? && senderId.Some? && Present(title) && Present(body) && Present(kind) && bookingId.Some?
  }

  /** A notification that passed the guard always passes schema validation, so
      the save inside `newNotification` cannot fail. */
  lemma AcceptedNotificationValidates(receiverId: Option<Id>, senderId: Option<Id>, title: string, body: string,
                                      isRead: bool, kind: string, bookingId: Option<Id>)
    requires NewNotificationAccepted(receiverId, senderId, title, body, kind, bookingId)
    ensures NotificationPassesValidation(Notification(receiverId, senderId, title, body, bookingId, kind, isRead))
  {
  }

  /** `newNotification`: throws and stores nothing when a field is missing;
      otherwise stores exactly one notification carrying the arguments, under a
      fresh id, and returns that id. */
  method NewNotification(db: Database, receiverId: Option<Id>, senderId: Option<Id>, title: string, body: string,
                         isRead: bool, kind: string, bookingId: Option<Id>)
    returns (r: Result<Id>)
    requires db.Valid()
    modifies db
    ensures db.Valid()
    ensures r.Err? <==> !NewNotificationAccepted(receiverId, senderId, title, body, kind, bookingId)
    ensures r.Err? ==> r.error == FieldsRequired && db.Snapshot() == old(db.Snapshot())
    ensures r.Ok? ==>
              var s := old(db.Snapshot());
              && r.value == s.nextId
              && db.Snapshot() == s.(notifications := s.notifications[r.value := Notification(receiverId, senderId, title, body, bookingId, kind, isRead)],
                                     nextId := s.nextId + 1)
  {
    if !NewNotificationAccepted(receiverId, senderId, title, body, kind, bookingId) {
      return Err(FieldsRequired);
    }
    var n := Notification(receiverId, senderId, title, body, bookingId, kind, isRead);
    AcceptedNotificationValidates(receiverId, senderId, title, body, isRead, kind, bookingId);
    var id := db.NewId();
    db.notifications := db.notifications[id := n];
    r := Ok(id);
  }

  /** `createNotification`: the caller becomes the receiver and the caller's role
      the type; there is no sender. A missing title or body is reported as 500,
      and so is the schema's rejection of an empty type. */
  method CreateNotification(db: Database, caller: Principal, title: string, body: string,
                            bookingId: Option<Id>, isRead: bool)
    returns (r: Response)
    requires db.Valid()
    modifies db
    ensures db.Valid()
    ensures !Present(title) || !Present(body) ==>
              r == Response(500, MissingTitleOrBody) && db.Snapshot() == old(db.Snapshot())
    ensures Present(title) && Present(body) && !Present(caller.role) ==>
              r == Response(500, TypeRequired) && db.Snapshot() == old(db.Snapshot())
    ensures Present(title) && Present(body) && Present(caller.role) ==>
              var s := old(db.Snapshot());
              && r == Response(201, "Notification saved successfully")
              && db.Snapshot() == s.(notifications := s.notifications[s.nextId := Notification(caller.linkedId, None, title, body, bookingId, caller.role, isRead)],
                                     nextId := s.nextId + 1)
  {
    if !Present(title) || !Present(body) {
      return Response(500, MissingTitleOrBody);
    }
    var n := Notification(caller.linkedId, None, title, body, bookingId, caller.role, isRead);
    if !NotificationPassesValidation(n) {
      return Response(500, TypeRequired);
    }
    var id := db.NewId();
    db.notifications := db.notifications[id := n];
    r := Response(201, "Notification saved successfully");
  }

  /** `Notification.find({ receiverId })`. */
  function ReceivedBy(notifications: map<Id, Notification>, receiverId: Id): (found: map<Id, Notification>)
    ensures forall k :: k in found <==> k in notifications && notifications[k].receiverId == Some(receiverId)
    ensures forall k :: k in found ==> found[k] == notifications[k]
  {
    map k | k in notifications && notifications[k].receiverId == Some(receiverId) :: notifications[k]
  }

  /** `fetchPartnerBookingNotification`: exactly the caller's notifications; 400
      without a caller id, 404 when there are none. */
  method FetchPartnerBookingNotification(db: Database, caller: Principal)
    returns (r: Response, found: map<Id, Notification>)
    ensures caller.linkedId.None? ==> r == Response(400, "partnerId is required") && found == map[]
    ensures caller.linkedId.Some? ==>
              && (forall k :: k in found <==> k in db.notifications && db.notifications[k].receiverId == caller.linkedId)
              && (forall k :: k in found ==> found[k] == db.notifications[k])
              && (r.code == 404 <==> found == map[])
              && (found == map[] ==> r == Response(404, "No notifications found for the provided partnerId"))
              && (found != map[] ==> r == Response(200, "Notifications fetched successfully"))
  {
    if caller.linkedId.None? {
      return Response(400, "partnerId is required"), map[];
    }
    found := ReceivedBy(db.notifications, caller.linkedId.value);
    if found == map[] {
      r := Response(404, "No notifications found for the provided partnerId");
    } else {
      r := Response(200, "Notifications fetched successfully");
    }
  }

  /** True of a notification addressed to `receiverId`. */
  predicate AddressedTo(receiverId: Id, n: Notification)
  {
    n.receiverId == Some(receiverId)
  }

  /** `deleteAllnotification`: only an existing partner may clear, and what goes
      is exactly the notifications addressed to the caller. */
  method DeleteAllPartnerNotifications(db: Database, caller: Principal) returns (r: Response)
    requires db.Valid()
    modifies db
    ensures db.Valid()
    ensures !Found(old(db.partners), caller.linkedId) ==>
              r == Response(404, "Partner not found.") && db.Snapshot() == old(db.Snapshot())
    ensures Found(old(db.partners), caller.linkedId) ==>
              var s := old(db.Snapshot());
              && r == Response(200, "All notifications for the partner have been deleted successfully.")
              && db.Snapshot() == s.(notifications := DeleteMany(s.notifications, n => AddressedTo(caller.linkedId.value, n)))
  {
    if !Found(db.partners, caller.linkedId) {
      return Response(404, "Partner not found.");
    }
    var receiverId := caller.linkedId.value;
    db.notifications := DeleteMany(db.notifications, n => AddressedTo(receiverId, n));
    r := Response(200, "All notifications for the partner have been deleted successfully.");
  }

  /** After clearing, none of the caller's notifications is left and every other
      notification is still there, unchanged. */
  lemma ClearingIsExact(notifications: map<Id, Notification>, receiverId: Id)
    ensures var rest := DeleteMany(notifications, n => AddressedTo(receiverId, n));
            && ReceivedBy(rest, receiverId) == map[]
            && (forall k :: k in notifications && notifications[k].receiverId != Some(receiverId) ==>
                  k in rest && rest[k] == notifications[k])
  {
    var rest := DeleteMany(notifications, n => AddressedTo(receiverId, n));
    assert forall k :: k !in ReceivedBy(rest, receiverId);
  }
}
