/**
 * The notification service's Notification entity: a message to one recipient on
 * one channel, with a delivery status and attempt bookkeeping. The status
 * methods have no transition guards: each sets its target status from any status.
 */
module NotificationDomain {
  import opened Wrappers
  import opened Int32s
  import Guids

  datatype NotificationType = Email | Sms

  datatype NotificationStatus = Created | Queued | Delivered | Undeliverable | Failed

  /** One Notifications row; times are DateTime ticks. */
  datatype NotificationRow = NotificationRow(
    id: Guids.Guid,
    channel: NotificationType,
    status: NotificationStatus,
    recipient: string,
    subject: Option<string>,
    body: Option<string>,
    text: Option<string>,
    attemptCount: Int32,
    lastError: Option<string>,
    sentAtUtc: Option<int>,
    createdAt: int,
    updatedAt: Option<int>)

  /** An e-mail carries a subject and a body and no text; an SMS carries a text and neither subject nor body. */
  predicate ChannelShaped(r: NotificationRow)
  {
    match r.channel
    case Email => r.subject.Some? && r.body.Some? && r.text.None?
    case Sms => r.subject.None? && r.body.None? && r.text.Some?
  }

  /** The private constructor behind both factories, at time `now`, with `id` its Guid.NewGuid(). */
  function NewNotification(id: Guids.Guid, channel: NotificationType, recipient: string,
                           subject: Option<string>, body: Option<string>, text: Option<string>, now: int): NotificationRow
  {
    NotificationRow(id, channel, Created, recipient, subject, body, text, 0, None, None, now, None)
  }

  /** Notification.Email(to, subject, body). */
  function EmailRow(id: Guids.Guid, to: string, subject: string, body: string, now: int): (r: NotificationRow)
    ensures ChannelShaped(r) && r.channel == Email && r.status == Created
    ensures r.recipient == to && r.subject == Some(subject) && r.body == Some(body)
    ensures r.attemptCount == 0 && r.lastError == None && r.sentAtUtc == None
  {
    NewNotification(id, Email, to, Some(subject), Some(body), None, now)
  }

  /** Notification.Sms(to, text). */
  function SmsRow(id: Guids.Guid, to: string, text: string, now: int): (r: NotificationRow)
    ensures ChannelShaped(r) && r.channel == Sms && r.status == Created
    ensures r.recipient == to && r.text == Some(text)
    ensures r.attemptCount == 0 && r.lastError == None && r.sentAtUtc == None
  {
    NewNotification(id, Sms, to, None, None, Some(text), now)
  }

  function MarkedCreated(r: NotificationRow, now: int): NotificationRow
  {
    r.(status := Created, updatedAt := Some(now))
  }

  function MarkedQueued(r: NotificationRow, now: int): NotificationRow
  {
    r.(status := Queued, updatedAt := Some(now))
  }

  function MarkedDelivered(r: NotificationRow, now: int): NotificationRow
  {
    r.(sentAtUtc := Some(now), status := Delivered, updatedAt := Some(now))
  }

  function MarkedUndeliverable(r: NotificationRow, e: string, now: int): NotificationRow
  {
    r.(lastError := Some(e), status := Undeliverable, updatedAt := Some(now))
  }

  /** `AttemptCount++` is an unchecked int increment. */
  function MarkedFailed(r: NotificationRow, e: string, now: int): NotificationRow
  {
    r.(lastError := Some(e), attemptCount := Wrap(r.attemptCount + 1), status := Failed, updatedAt := Some(now))
  }

  function AttemptIncremented(r: NotificationRow, now: int): NotificationRow
  {
    r.(attemptCount := Wrap(r.attemptCount + 1), updatedAt := Some(now))
  }

  /** The part of a row no status method touches: identity, channel, recipient and content. */
  function Content(r: NotificationRow): (c: (Guids.Guid, NotificationType, string, Option<string>, Option<string>, Option<string>, int))
  {
    (r.id, r.channel, r.recipient, r.subject, r.body, r.text, r.createdAt)
  }

  /**
   * Every status method reaches its target from any status, keeps the content
   * (so the channel shape too), and stamps UpdatedAt.
   */
  lemma MarksIgnorePriorStatus(r: NotificationRow, e: string, now: int)
    ensures MarkedCreated(r, now).status == Created && Content(MarkedCreated(r, now)) == Content(r)
    ensures MarkedQueued(r, now).status == Queued && Content(MarkedQueued(r, now)) == Content(r)
    ensures MarkedDelivered(r, now).status == Delivered && Content(MarkedDelivered(r, now)) == Content(r)
    ensures MarkedUndeliverable(r, e, now).status == Undeliverable && Content(MarkedUndeliverable(r, e, now)) == Content(r)
    ensures MarkedFailed(r, e, now).status == Failed && Content(MarkedFailed(r, e, now)) == Content(r)
    ensures ChannelShaped(r) ==>
      && ChannelShaped(MarkedCreated(r, now)) && ChannelShaped(MarkedQueued(r, now)) && ChannelShaped(MarkedDelivered(r, now))
      && ChannelShaped(MarkedUndeliverable(r, e, now)) && ChannelShaped(MarkedFailed(r, e, now)) && ChannelShaped(AttemptIncremented(r, now))
    ensures MarkedCreated(r, now).updatedAt == MarkedFailed(r, e, now).updatedAt == AttemptIncremented(r, now).updatedAt == Some(now)
  {
  }

  /**
   * Of the status methods only MarkFailed counts an attempt, by exactly one below
   * int.MaxValue; MarkFailed and MarkUndeliverable record the error, and only
   * MarkDelivered stamps the send time.
   */
  lemma AttemptBookkeeping(r: NotificationRow, e: string, now: int)
    requires r.attemptCount < MaxInt32
    ensures MarkedFailed(r, e, now).attemptCount == r.attemptCount + 1 && MarkedFailed(r, e, now).lastError == Some(e)
    ensures MarkedUndeliverable(r, e, now).attemptCount == r.attemptCount && MarkedUndeliverable(r, e, now).lastError == Some(e)
    ensures MarkedCreated(r, now).attemptCount == MarkedQueued(r, now).attemptCount == MarkedDelivered(r, now).attemptCount == r.attemptCount
    ensures MarkedDelivered(r, now).sentAtUtc == Some(now)
    ensures MarkedFailed(r, e, now).sentAtUtc == MarkedUndeliverable(r, e, now).sentAtUtc == MarkedQueued(r, now).sentAtUtc == r.sentAtUtc
  {
  }

  /** IncrementAttempt raises AttemptCount by one and changes nothing but UpdatedAt. */
  lemma IncrementAttemptOnlyCounts(r: NotificationRow, now: int)
    requires r.attemptCount < MaxInt32
    ensures AttemptIncremented(r, now).attemptCount == r.attemptCount + 1
    ensures AttemptIncremented(r, now).(attemptCount := r.attemptCount, updatedAt := r.updatedAt) == r
  {
  }

  /** The tracked Notification entity. */
  class Notification {
    var id: Guids.Guid
    var channel: NotificationType
    var status: NotificationStatus
    var recipient: string
    var subject: Option<string>
    var body: Option<string>
    var text: Option<string>
    var attemptCount: Int32
    var lastError: Option<string>
    var sentAtUtc: Option<int>
    var createdAt: int
    var updatedAt: Option<int>

    function Row(): NotificationRow
      reads this
    {
      NotificationRow(id, channel, status, recipient, subject, body, text, attemptCount, lastError, sentAtUtc, createdAt, updatedAt)
    }

    /** The entity as EF materialises it from a row. */
    constructor Load(row: NotificationRow)
      ensures Row() == row
    {
      id := row.id;
      channel := row.channel;
      status := row.status;
      recipient := row.recipient;
      subject := row.subject;
      body := row.body;
      text := row.text;
      attemptCount := row.attemptCount;
      lastError := row.lastError;
      sentAtUtc := row.sentAtUtc;
      createdAt := row.createdAt;
      updatedAt := row.updatedAt;
    }

    /** Notification.Email. */
    constructor Email(id: Guids.Guid, to: string, subject: string, body: string, now: int)
      ensures Row() == EmailRow(id, to, subject, body, now)
    {
      this.id := id;
      channel := NotificationType.Email;
      status := Created;
      recipient := to;
      this.subject := Some(subject);
      this.body := Some(body);
      text := None;
      attemptCount := 0;
      lastError := None;
      sentAtUtc := None;
      createdAt := now;
      updatedAt := None;
    }

    /** Notification.Sms. */
    constructor Sms(id: Guids.Guid, to: string, text: string, now: int)
      ensures Row() == SmsRow(id, to, text, now)
    {
      this.id := id;
      channel := NotificationType.Sms;
      status := Created;
      recipient := to;
      subject := None;
      body := None;
      this.text := Some(text);
      attemptCount := 0;
      lastError := None;
      sentAtUtc := None;
      createdAt := now;
      updatedAt := None;
    }

    method MarkCreated(now: int)
      modifies this
      ensures Row() == MarkedCreated(old(Row()), now)
    {
      status := Created;
      updatedAt := Some(now);
    }

    method MarkQueued(now: int)
      modifies this
      ensures Row() == MarkedQueued(old(Row()), now)
    {
      status := Queued;
      updatedAt := Some(now);
    }

    method MarkDelivered(now: int)
      modifies this
      ensures Row() == MarkedDelivered(old(Row()), now)
    {
      sentAtUtc := Some(now);
      status := Delivered;
      updatedAt := Some(now);
    }

    method MarkUndeliverable(e: string, now: int)
      modifies this
      ensures Row() == MarkedUndeliverable(old(Row()), e, now)
    {
      lastError := Some(e);
      status := Undeliverable;
      updatedAt := Some(now);
    }

    method MarkFailed(e: string, now: int)
      modifies this
      ensures Row() == MarkedFailed(old(Row()), e, now)
    {
      lastError := Some(e);
      attemptCount := Wrap(attemptCount + 1);
      status := Failed;
      updatedAt := Some(now);
    }

    method IncrementAttempt(now: int)
      modifies this
      ensures Row() == AttemptIncremented(old(Row()), now)
    {
      attemptCount := Wrap(attemptCount + 1);
      updatedAt := Some(now);
    }
  }
}
