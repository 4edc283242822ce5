/**
 * The e-mail and SMS sender services the notification consumers call: look the
 * notification up, refuse it unless it exists on the sender's channel and is
 * not yet delivered, mark it Delivered, then (in the real service) write it to
 * the console.
 */
module NotificationSenders {
  import opened Wrappers
  import opened OperationResults
  import opened NotificationDomain
  import opened NotificationOutbox
  import opened NotificationPersistence
  import Guids

  const NotFoundOrInvalid: string := "Notification not found or invalid type"
  const UpdateFailed: string := "Failed to update notification status"

  /** CheckCommonConditions of the sender for `channel`. */
  predicate CheckCommonConditions(lookup: OperationResult<NotificationDto>, channel: NotificationType)
  {
    !(!lookup.isSuccessful || lookup.data.None? || lookup.data.value.channel != channel || lookup.data.value.status == Delivered)
  }

  /** The notifications table after SendNotificationAsync. */
  function AfterSend(notifications: map<Guids.Guid, NotificationRow>, notificationId: Guids.Guid, channel: NotificationType,
                     saved: Result<nat, string>, now: int): map<Guids.Guid, NotificationRow>
  {
    if CheckCommonConditions(Lookup(notifications, notificationId), channel)
    then StatusUpdated(notifications, notificationId, Delivered, saved, now)
    else notifications
  }

  /** SendNotificationAsync's reply; `sentMessage` is "EMAIL sent successfully" or "SMS sent successfully". */
  function SendReply(notifications: map<Guids.Guid, NotificationRow>, notificationId: Guids.Guid, channel: NotificationType,
                     saved: Result<nat, string>, sentMessage: string): OperationResult<()>
  {
    if !CheckCommonConditions(Lookup(notifications, notificationId), channel) then Fail(NotFoundOrInvalid)
    else if !StatusReply(notifications, notificationId, saved).isSuccessful then Fail(UpdateFailed)
    else Success(sentMessage)
  }

  /**
   * A send succeeds exactly when the notification exists on the sender's channel,
   * is not yet Delivered, and the status update saves; the notification is then
   * Delivered with its send time stamped and its content unchanged. A send that
   * fails changes nothing.
   */
  lemma SendMeaning(notifications: map<Guids.Guid, NotificationRow>, notificationId: Guids.Guid, channel: NotificationType,
                    saved: Result<nat, string>, sentMessage: string, now: int)
    ensures var r := SendReply(notifications, notificationId, channel, saved, sentMessage);
      var after := AfterSend(notifications, notificationId, channel, saved, now);
      && (r.isSuccessful <==>
            && notificationId in notifications
            && notifications[notificationId].channel == channel
            && notifications[notificationId].status != Delivered
            && saved.Ok? && saved.value > 0)
      && (r.isSuccessful ==>
            && after.Keys == notifications.Keys
            && after[notificationId].status == Delivered && after[notificationId].sentAtUtc == Some(now)
            && Content(after[notificationId]) == Content(notifications[notificationId])
            && forall id | id in notifications && id != notificationId :: after[id] == notifications[id])
      && (!r.isSuccessful ==> after == notifications)
  {
    StatusUpdateMeaning(notifications, notificationId, Delivered, saved, now);
  }

  /** The already-delivered guard: once a send has succeeded, every later send of that notification fails and changes nothing. */
  lemma SecondSendFails(notifications: map<Guids.Guid, NotificationRow>, notificationId: Guids.Guid, channel: NotificationType,
                        saved: Result<nat, string>, sentMessage: string, now: int,
                        saved2: Result<nat, string>, now2: int)
    requires SendReply(notifications, notificationId, channel, saved, sentMessage).isSuccessful
    ensures var after := AfterSend(notifications, notificationId, channel, saved, now);
      && SendReply(after, notificationId, channel, saved2, sentMessage) == Fail(NotFoundOrInvalid)
      && AfterSend(after, notificationId, channel, saved2, now2) == after
  {
    SendMeaning(notifications, notificationId, channel, saved, sentMessage, now);
  }

  /** A sender never touches a notification of the other channel. */
  lemma WrongChannelRefused(notifications: map<Guids.Guid, NotificationRow>, notificationId: Guids.Guid, channel: NotificationType,
                            saved: Result<nat, string>, sentMessage: string, now: int)
    requires notificationId in notifications && notifications[notificationId].channel != channel
    ensures SendReply(notifications, notificationId, channel, saved, sentMessage) == Fail(NotFoundOrInvalid)
    ensures AfterSend(notifications, notificationId, channel, saved, now) == notifications
  {
  }

  /** The shared body of both senders' SendNotificationAsync. */
  method Send(service: NotificationService, notificationEvent: NotificationEventData, channel: NotificationType,
              saved: Result<nat, string>, sentMessage: string, now: int) returns (r: OperationResult<()>)
    modifies service.db
    ensures service.db.notifications == AfterSend(old(service.db.notifications), notificationEvent.notificationId, channel, saved, now)
    ensures service.db.outbox == old(service.db.outbox)
    ensures r == SendReply(old(service.db.notifications), notificationEvent.notificationId, channel, saved, sentMessage)
  {
    var notificationResult := service.GetNotificationById(notificationEvent.notificationId);
    if !CheckCommonConditions(notificationResult, channel) {
      return Fail(NotFoundOrInvalid);
    }
    var resultUpdateNotification := service.UpdateNotificationStatus(notificationEvent.notificationId, Delivered, saved, now);
    if !resultUpdateNotification.isSuccessful {
      return Fail(UpdateFailed);
    }
    r := Success(sentMessage);
  }

  class EmailSenderService {
    const notificationService: NotificationService

    constructor (notificationService: NotificationService)
      ensures this.notificationService == notificationService
    {
      this.notificationService := notificationService;
    }

    /** SendNotificationAsync for the Email channel; `saved` is the status update's SaveChanges outcome. */
    method SendNotification(notificationEvent: NotificationEventData, saved: Result<nat, string>, now: int)
      returns (r: OperationResult<()>)
      modifies notificationService.db
      ensures notificationService.db.notifications ==
        AfterSend(old(notificationService.db.notifications), notificationEvent.notificationId, Email, saved, now)
      ensures notificationService.db.outbox == old(notificationService.db.outbox)
      ensures r == SendReply(old(notificationService.db.notifications), notificationEvent.notificationId, Email, saved, "EMAIL sent successfully")
    {
      r := Send(notificationService, notificationEvent, Email, saved, "EMAIL sent successfully", now);
    }
  }

  class SmsSenderService {
    const notificationService: NotificationService

    constructor (notificationService: NotificationService)
      ensures this.notificationService == notificationService
    {
      this.notificationService := notificationService;
    }

    /** SendNotificationAsync for the Sms channel. */
    method SendNotification(notificationEvent: NotificationEventData, saved: Result<nat, string>, now: int)
      returns (r: OperationResult<()>)
      modifies notificationService.db
      ensures notificationService.db.notifications ==
        AfterSend(old(notificationService.db.notifications), notificationEvent.notificationId, Sms, saved, now)
      ensures notificationService.db.outbox == old(notificationService.db.outbox)
      ensures r == SendReply(old(notificationService.db.notifications), notificationEvent.notificationId, Sms, saved, "SMS sent successfully")
    {
      r := Send(notificationService, notificationEvent, Sms, saved, "SMS sent successfully", now);
    }
  }
}
