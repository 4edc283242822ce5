/**
 * The notification service's persistence side (NotificationService in
 * NotificationService.Persistence): creating SMS and e-mail notifications
 * together with their outbox rows, looking one up, updating its status, and
 * the query filter.
 *
 * SaveChangesAsync is an oracle: `Ok(n)` is the number of rows it reports
 * written, `Err(message)` the message of the exception it throws.
 */
module NotificationPersistence {
  import opened Wrappers
  import opened Int32s
  import opened OperationResults
  import opened NotificationDomain
  import opened NotificationOutbox
  import Guids

  const SmsCreated: string := "SMS created successfully"
  const SmsCreateError: string := "Error creating SMS: "
  const EmailCreated: string := "EMAIL created successfully"
  const EmailCreateError: string := "Error creating EMAIL: "
  const Retrieved: string := "Notification retrieved successfully"
  const RetrieveError: string := "Error retrieving Notification: "
  const NoChanges: string := "No changes were made to the notification"

  /** The two tables at one moment. */
  datatype NotificationTables = NotificationTables(
    notifications: map<Guids.Guid, NotificationRow>,
    outbox: seq<OutboxNotificationRow>)

  /** The notification database shared by the service, the dispatcher and the senders. */
  class NotificationDatabase {
    var notifications: map<Guids.Guid, NotificationRow>
    var outbox: seq<OutboxNotificationRow>

    constructor ()
      ensures Content() == NotificationTables(map[], [])
    {
      notifications := map[];
      outbox := [];
    }

    function Content(): NotificationTables
      reads this
    {
      NotificationTables(notifications, outbox)
    }
  }

  /** NotificationDto, as MapToDto fills it. */
  datatype NotificationDto = NotificationDto(
    id: Guids.Guid,
    recipient: string,
    subject: Option<string>,
    body: Option<string>,
    text: Option<string>,
    attemptCount: Int32,
    lastError: Option<string>,
    sentAtUtc: Option<int>,
    status: NotificationStatus,
    createdAt: int,
    updatedAt: Option<int>,
    channel: NotificationType)

  function MapToDto(n: NotificationRow): NotificationDto
  {
    NotificationDto(n.id, n.recipient, n.subject, n.body, n.text, n.attemptCount, n.lastError, n.sentAtUtc,
                    n.status, n.createdAt, n.updatedAt, n.channel)
  }

  /** MapToDto copies every column: two notifications with the same DTO are the same row. */
  lemma MapToDtoLosesNothing(a: NotificationRow, b: NotificationRow)
    ensures MapToDto(a) == MapToDto(b) <==> a == b
  {
  }

  datatype NotificationSmsCreateModel = NotificationSmsCreateModel(recipient: string, text: string)

  datatype NotificationEmailCreateModel = NotificationEmailCreateModel(recipient: string, subject: string, body: string)

  /** The two create operations as one shape: the notification, its outbox payload, and the reply texts. */
  datatype Creation = Creation(notification: NotificationRow, eventType: string, data: NotificationEventData,
                               successMessage: string, errorPrefix: string)

  function SmsCreation(request: NotificationSmsCreateModel, notificationId: Guids.Guid, now: int): Creation
  {
    var n := SmsRow(notificationId, request.recipient, request.text, now);
    Creation(n, SmsEventType, SmsNotificationEvent(n.id, n.recipient, "", request.text),
             SmsCreated, SmsCreateError)
  }

  function EmailCreation(request: NotificationEmailCreateModel, notificationId: Guids.Guid, now: int): Creation
  {
    var n := EmailRow(notificationId, request.recipient, request.subject, request.body, now);
    Creation(n, EmailEventType, EmailNotificationEvent(n.id, n.recipient, request.subject, request.body),
             EmailCreated, EmailCreateError)
  }

  /** The tables after the create transaction commits: one notification and one outbox row more. */
  function Committed(t: NotificationTables, c: Creation, eventId: Guids.Guid, now: int): NotificationTables
  {
    NotificationTables(t.notifications[c.notification.id := c.notification],
                       t.outbox + [NewRow(eventId, c.eventType, c.data, NotificationEvents, now)])
  }

  /** The reply of a create operation, given how SaveChanges and Commit went. */
  function CreationReply(c: Creation, saved: Option<string>): OperationResult<NotificationDto>
  {
    match saved
    case None => SuccessWith(MapToDto(c.notification), c.successMessage, 201)
    case Some(message) => Fail(c.errorPrefix + message, statusCode := 500)
  }

  /**
   * A committed CreateSmsAsync stores one SMS notification in status Created and one
   * fresh "notification.sms" row on "notification-events" announcing it, which the
   * next dispatcher cycle can pick; the reply is 201 with the notification.
   */
  lemma CreateSmsAnnouncesNotification(t: NotificationTables, request: NotificationSmsCreateModel, notificationId: Guids.Guid,
                                       eventId: Guids.Guid, now: int)
    requires notificationId !in t.notifications
    ensures var c := SmsCreation(request, notificationId, now);
      var t' := Committed(t, c, eventId, now);
      var row := t'.outbox[|t.outbox|];
      && t'.notifications.Keys == t.notifications.Keys + {notificationId}
      && t'.notifications[notificationId].channel == Sms && t'.notifications[notificationId].status == Created
      && t'.notifications[notificationId].text == Some(request.text) && ChannelShaped(t'.notifications[notificationId])
      && t'.outbox[..|t.outbox|] == t.outbox && |t'.outbox| == |t.outbox| + 1
      && row.eventType == SmsEventType && row.exchangeName == NotificationEvents && !row.processed && CanRetry(row)
      && row.data == SmsNotificationEvent(notificationId, request.recipient, "", request.text)
      && CreationReply(c, None).statusCode == 201 && CreationReply(c, None).data == Some(MapToDto(t'.notifications[notificationId]))
  {
  }

  /** The same for CreateEmailAsync, with "notification.email" and the subject and body. */
  lemma CreateEmailAnnouncesNotification(t: NotificationTables, request: NotificationEmailCreateModel, notificationId: Guids.Guid,
                                         eventId: Guids.Guid, now: int)
    requires notificationId !in t.notifications
    ensures var c := EmailCreation(request, notificationId, now);
      var t' := Committed(t, c, eventId, now);
      var row := t'.outbox[|t.outbox|];
      && t'.notifications.Keys == t.notifications.Keys + {notificationId}
      && t'.notifications[notificationId].channel == Email && t'.notifications[notificationId].status == Created
      && ChannelShaped(t'.notifications[notificationId])
      && t'.outbox[..|t.outbox|] == t.outbox && |t'.outbox| == |t.outbox| + 1
      && row.eventType == EmailEventType && row.exchangeName == NotificationEvents && !row.processed && CanRetry(row)
      && row.data == EmailNotificationEvent(notificationId, request.recipient, request.subject, request.body)
      && CreationReply(c, None).statusCode == 201
  {
  }

  /** "Order with ID … not found" (the notification service reuses the order service's wording), status 404. */
  function NotFound<T>(notificationId: Guids.Guid): (r: OperationResult<T>)
    ensures !r.isSuccessful && r.statusCode == 404
  {
    Fail("Order with ID " + Guids.Format(notificationId) + " not found", statusCode := 404)
  }

  /** GetNotificationByIdAsync's reply. */
  function Lookup(notifications: map<Guids.Guid, NotificationRow>, notificationId: Guids.Guid): (r: OperationResult<NotificationDto>)
    ensures r.isSuccessful <==> notificationId in notifications
    ensures r.isSuccessful ==> r.data == Some(MapToDto(notifications[notificationId])) && r.statusCode == 200
    ensures !r.isSuccessful ==> r.data == None && r.statusCode == 404
  {
    if notificationId !in notifications then NotFound(notificationId)
    else SuccessWith(MapToDto(notifications[notificationId]), Retrieved, 200)
  }

  const FailedNote: string := "Marked as Failed via UpdateNotificationStatusAsync"
  const UndeliverableNote: string := "Marked as Undeliverable via UpdateNotificationStatusAsync"

  /** The switch of UpdateNotificationStatusAsync: the Mark method matching the requested status. */
  function StatusApplied(n: NotificationRow, status: NotificationStatus, now: int): (r: NotificationRow)
    ensures r.status == status
    ensures Content(r) == Content(n)
  {
    match status
    case Created => MarkedCreated(n, now)
    case Delivered => MarkedDelivered(n, now)
    case Failed => MarkedFailed(n, FailedNote, now)
    case Queued => MarkedQueued(n, now)
    case Undeliverable => MarkedUndeliverable(n, UndeliverableNote, now)
  }

  /** The notifications table after UpdateNotificationStatusAsync: written only when SaveChanges reports rows. */
  function StatusUpdated(notifications: map<Guids.Guid, NotificationRow>, notificationId: Guids.Guid, status: NotificationStatus,
                         saved: Result<nat, string>, now: int): map<Guids.Guid, NotificationRow>
  {
    if notificationId in notifications && saved.Ok? && saved.value != 0
    then notifications[notificationId := StatusApplied(notifications[notificationId], status, now)]
    else notifications
  }

  /** UpdateNotificationStatusAsync's reply. */
  function StatusReply(notifications: map<Guids.Guid, NotificationRow>, notificationId: Guids.Guid,
                       saved: Result<nat, string>): OperationResult<()>
  {
    if notificationId !in notifications then NotFound(notificationId)
    else match saved
      case Err(message) => Fail(RetrieveError + message, statusCode := 500)
      case Ok(count) =>
        if count == 0 then Fail(NoChanges, statusCode := 500)
        else Success(Retrieved, 200)
  }

  /**
   * The status update succeeds exactly when the notification exists and the save
   * reports rows; it then holds the requested status with its content unchanged.
   * Otherwise the table is as it was: 404 for an unknown id, 500 for a save that
   * reports nothing or throws.
   */
  lemma StatusUpdateMeaning(notifications: map<Guids.Guid, NotificationRow>, notificationId: Guids.Guid,
                            status: NotificationStatus, saved: Result<nat, string>, now: int)
    ensures var r := StatusReply(notifications, notificationId, saved);
      var after := StatusUpdated(notifications, notificationId, status, saved, now);
      && (r.isSuccessful <==> notificationId in notifications && saved.Ok? && saved.value > 0)
      && (notificationId !in notifications ==> r.statusCode == 404)
      && (notificationId in notifications && !r.isSuccessful ==> r.statusCode == 500)
      && (r.isSuccessful ==> after.Keys == notifications.Keys && after[notificationId].status == status
                             && Content(after[notificationId]) == Content(notifications[notificationId])
                             && forall id | id in notifications && id != notificationId :: after[id] == notifications[id])
      && (!r.isSuccessful ==> after == notifications)
  {
  }

  /** NotificationQueryParameters' filters; Page and PageSize only page the result. */
  datatype NotificationQuery = NotificationQuery(
    recipient: Option<string>,
    status: Option<NotificationStatus>,
    channel: Option<NotificationType>,
    startDate: Option<int>,
    endDate: Option<int>)

  /** Build(parameters) applied to one notification. */
  predicate Matches(n: NotificationRow, p: NotificationQuery)
  {
    && (p.recipient.None? || p.recipient.value == "" || n.recipient == p.recipient.value)
    && (p.status.None? || n.status == p.status.value)
    && (p.channel.None? || n.channel == p.channel.value)
    && (p.startDate.None? || n.createdAt >= p.startDate.value)
    && (p.endDate.None? || n.createdAt <= p.endDate.value)
  }

  /** A query with no filter set, or an empty recipient, admits every notification. */
  lemma EmptyQueryMatchesAll(n: NotificationRow, recipient: Option<string>)
    requires recipient.None? || recipient == Some("")
    ensures Matches(n, NotificationQuery(recipient, None, None, None, None))
  {
  }

  /** Leaving a filter out never excludes more: every filter only narrows the result. */
  lemma DroppingFiltersWidens(n: NotificationRow, p: NotificationQuery)
    requires Matches(n, p)
    ensures Matches(n, p.(recipient := None)) && Matches(n, p.(status := None)) && Matches(n, p.(channel := None))
    ensures Matches(n, p.(startDate := None)) && Matches(n, p.(endDate := None))
  {
  }

  /** Both date bounds are inclusive: a range from and to a notification's own CreatedAt admits it. */
  lemma DateBoundsInclusive(n: NotificationRow, p: NotificationQuery)
    requires p.recipient.None? && p.status.None? && p.channel.None?
    requires p.startDate.Some? && p.endDate.Some?
    ensures Matches(n, p) <==> p.startDate.value <= n.createdAt <= p.endDate.value
  {
  }

  /** The persistence service of the notification process. */
  class NotificationService {
    const db: NotificationDatabase

    constructor (db: NotificationDatabase)
      ensures this.db == db
    {
      this.db := db;
    }

    /** The shared body of CreateSmsAsync and CreateEmailAsync from AddAsync to the reply. */
    method Create(notification: Notification, eventType: string, data: NotificationEventData,
                  successMessage: string, errorPrefix: string, eventId: Guids.Guid, saved: Option<string>, now: int)
      returns (r: OperationResult<NotificationDto>)
      requires notification.id !in db.notifications
      modifies db
      ensures var c := Creation(notification.Row(), eventType, data, successMessage, errorPrefix);
        && db.Content() == (if saved.None? then Committed(old(db.Content()), c, eventId, now) else old(db.Content()))
        && r == CreationReply(c, saved)
    {
      var outboxEvent := new OutboxNotificationEvent(eventId, eventType, data, NotificationEvents, now);
      var c := Creation(notification.Row(), eventType, data, successMessage, errorPrefix);
      if saved.Some? {
        return Fail(errorPrefix + saved.value, statusCode := 500);
      }
      db.notifications := db.notifications[notification.id := notification.Row()];
      db.outbox := db.outbox + [outboxEvent.Row()];
      r := SuccessWith(MapToDto(notification.Row()), successMessage, 201);
    }

    /**
     * CreateSmsAsync with `notificationId` and `eventId` the two Guid.NewGuid() values;
     * `saved` is None when SaveChanges and Commit go through and the exception message
     * when they throw, in which case the transaction rolls back.
     */
    method CreateSms(request: NotificationSmsCreateModel, notificationId: Guids.Guid, eventId: Guids.Guid,
                     saved: Option<string>, now: int) returns (r: OperationResult<NotificationDto>)
      requires notificationId !in db.notifications
      modifies db
      ensures var c := SmsCreation(request, notificationId, now);
        && db.Content() == (if saved.None? then Committed(old(db.Content()), c, eventId, now) else old(db.Content()))
        && r == CreationReply(c, saved)
    {
      var notification := new Notification.Sms(notificationId, request.recipient, request.text, now);
      var data := SmsNotificationEvent(notification.id, notification.recipient, "", notification.text.value);
      r := Create(notification, SmsEventType, data, SmsCreated, SmsCreateError, eventId, saved, now);
    }

    /** CreateEmailAsync, as CreateSms. */
    method CreateEmail(request: NotificationEmailCreateModel, notificationId: Guids.Guid, eventId: Guids.Guid,
                       saved: Option<string>, now: int) returns (r: OperationResult<NotificationDto>)
      requires notificationId !in db.notifications
      modifies db
      ensures var c := EmailCreation(request, notificationId, now);
        && db.Content() == (if saved.None? then Committed(old(db.Content()), c, eventId, now) else old(db.Content()))
        && r == CreationReply(c, saved)
    {
      var notification := new Notification.Email(notificationId, request.recipient, request.subject, request.body, now);
      var data := EmailNotificationEvent(notification.id, notification.recipient, notification.subject.value, notification.body.value);
      r := Create(notification, EmailEventType, data, EmailCreated, EmailCreateError, eventId, saved, now);
    }

    /** GetNotificationByIdAsync. */
    method GetNotificationById(notificationId: Guids.Guid) returns (r: OperationResult<NotificationDto>)
      ensures r == Lookup(db.notifications, notificationId)
    {
      if notificationId !in db.notifications {
        return NotFound(notificationId);
      }
      var notification := new Notification.Load(db.notifications[notificationId]);
      r := SuccessWith(MapToDto(notification.Row()), Retrieved, 200);
    }

    /** UpdateNotificationStatusAsync; it runs outside any explicit transaction. */
    method UpdateNotificationStatus(notificationId: Guids.Guid, status: NotificationStatus, saved: Result<nat, string>, now: int)
      returns (r: OperationResult<()>)
      modifies db
      ensures db.notifications == StatusUpdated(old(db.notifications), notificationId, status, saved, now)
      ensures db.outbox == old(db.outbox)
      ensures r == StatusReply(old(db.notifications), notificationId, saved)
    {
      if notificationId !in db.notifications {
        return NotFound(notificationId);
      }
      var notification := new Notification.Load(db.notifications[notificationId]);
      match status {
        case Created => notification.MarkCreated(now);
        case Delivered => notification.MarkDelivered(now);
        case Failed => notification.MarkFailed(FailedNote, now);
        case Queued => notification.MarkQueued(now);
        case Undeliverable => notification.MarkUndeliverable(UndeliverableNote, now);
      }
      match saved
      case Err(message) =>
        return Fail(RetrieveError + message, statusCode := 500);
      case Ok(count) =>
        if count == 0 {
          return Fail(NoChanges, statusCode := 500);
        }
        db.notifications := db.notifications[notificationId := notification.Row()];
        r := Success(Retrieved, 200);
    }
  }
}
