/**
 * The EventSub webhook gateway (`api/twitch/twitch.controller.js`): the
 * signature and retry check, the dispatch on the message type, and the
 * process-wide set of notification ids used to spot duplicates.
 */
module TwitchController {
  import opened Wrappers
  import opened JsText
  import opened Express
  import opened Seqs

  const VerificationType := "webhook_callback_verification"
  const NotificationType := "notification"
  const RetryThreshold: real := 1.0

  const RetryError := HttpError(202, "Detected multiple attempts. Ending request loop.")
  const SignatureError := HttpError(400, "Invalid Twitch Signature")
  const DuplicateError := HttpError(400, "Duplicate payload detected!")
  const UnhandledError := HttpError(500, "Sorry, there doesn't seem to be a handler for that EventSub message")

  /** The parsed JSON body: the fields the gateway reads. */
  datatype Body = Body(challenge: Option<string>, event: Option<StreamEvent>)

  /**
   * The parts of an inbound webhook request the gateway reads. A header that
   * is absent is `None`. `retries` is the numeric value JavaScript's `>`
   * gives the retry header (`None` when the header is absent or not a
   * number, which compare false with everything).
   */
  datatype WebhookRequest = WebhookRequest(
    messageType: Option<string>,      // Twitch-Eventsub-Message-Type
    notificationId: Option<string>,   // Twitch-Notification-Id
    messageId: Option<string>,        // Twitch-Eventsub-Message-Id
    timestamp: Option<string>,        // Twitch-Eventsub-Message-Timestamp
    signature: Option<string>,        // Twitch-Eventsub-Message-Signature
    retries: Option<real>,            // Twitch-Notification-Retry
    rawBody: string,
    body: Body)

  /**
   * The message that is signed: `messageID + messageTimestamp + body` in
   * JavaScript. An absent header is undefined; one undefined operand next to
   * a string reads "undefined", but two undefined operands add up to NaN
   * before the body is appended, which then reads "NaN".
   */
  function SignedMessage(req: WebhookRequest): (message: string)
    ensures EndsWith(message, req.rawBody)
    ensures req.messageId.Some? && req.timestamp.Some? ==>
      message == req.messageId.value + req.timestamp.value + req.rawBody
    ensures req.messageId.None? && req.timestamp.None? ==> message == "NaN" + req.rawBody
    ensures req.messageId.None? != req.timestamp.None? ==>
      message == Interpolate(req.messageId) + Interpolate(req.timestamp) + req.rawBody
  {
    if req.messageId.None? && req.timestamp.None? then "NaN" + req.rawBody
    else Interpolate(req.messageId) + Interpolate(req.timestamp) + req.rawBody
  }

  /**
   * Without both headers, the message signed is the one of a request whose
   * id reads "NaN" and whose timestamp is empty.
   */
  lemma MissingHeadersSignAsNaN(req: WebhookRequest)
    requires req.messageId.None? && req.timestamp.None?
    ensures SignedMessage(req) == SignedMessage(req.(messageId := Some("NaN"), timestamp := Some("")))
  {
    assert "NaN" + "" + req.rawBody == "NaN" + req.rawBody;
  }

  /**
   * The signature header Twitch should have sent: "sha256=" followed by the
   * hex digest of HMAC-SHA-256 (RFC 2104) keyed with the signing secret over
   * the signed message. The digest itself is the parameter `hmacHex`,
   * applied to the key and the message.
   */
  function ExpectedSignature(hmacHex: (string, string) -> string, secret: string, req: WebhookRequest): (sig: string)
    ensures StartsWith(sig, "sha256=")
    ensures sig[|"sha256="|..] == hmacHex(secret, SignedMessage(req))
  {
    "sha256=" + hmacHex(secret, SignedMessage(req))
  }

  /**
   * `verifySignature`: flags too many retries and a bad signature with
   * `next(err)`, but returns in neither case, so `next()` always follows.
   */
  function VerifySignature(hmacHex: (string, string) -> string, secret: string, req: WebhookRequest): (actions: seq<Action>)
    ensures |actions| >= 1 && actions[|actions| - 1] == Next
    ensures Count(actions, Next) == 1
    ensures NextError(RetryError) in actions <==> req.retries.Some? && req.retries.value > RetryThreshold
    ensures NextError(SignatureError) in actions <==> req.signature != Some(ExpectedSignature(hmacHex, secret, req))
    ensures forall k :: 0 <= k < |actions| ==> actions[k] in {Next, NextError(RetryError), NextError(SignatureError)}
    ensures !Responds(actions)
  {
    TwoChecks(req.retries.Some? && req.retries.value > RetryThreshold, RetryError,
      req.signature != Some(ExpectedSignature(hmacHex, secret, req)), SignatureError)
  }

  /**
   * What `requestRouter` does once it knows whether the notification id was
   * new (`isUnique`, ignored for the other message types): echo the
   * challenge, or acknowledge and forward the event (after the `next(err)`
   * of a duplicate, which the code does not return from), or report an
   * unknown type. These are the calls the code issues; `Effective` gives
   * what Express carries out of them.
   */
  function RouteActions(req: WebhookRequest, isUnique: bool): (actions: seq<Action>)
    ensures req.messageType == Some(VerificationType) ==>
      actions == [Send(200, Interpolate(req.body.challenge))]
    ensures Count(actions, NotifyDiscord(req.body.event)) == (if req.messageType == Some(NotificationType) then 1 else 0)
    ensures req.messageType == Some(NotificationType) ==> SendStatus(200) in actions
    ensures NextError(DuplicateError) in actions <==> req.messageType == Some(NotificationType) && !isUnique
    ensures req.messageType !in {Some(VerificationType), Some(NotificationType)} ==>
      actions == [NextError(UnhandledError)]
    ensures Rejects(actions) <==> (req.messageType !in {Some(VerificationType), Some(NotificationType)} || (!isUnique && req.messageType == Some(NotificationType)))
    ensures req.messageType == Some(NotificationType) ==>
      actions == (if isUnique then [] else [NextError(DuplicateError)]) + [SendStatus(200), NotifyDiscord(req.body.event)]
  {
    if req.messageType == Some(VerificationType) then
      [Send(200, Interpolate(req.body.challenge))]
    else if req.messageType == Some(NotificationType) then
      var duplicate := if isUnique then [] else [NextError(DuplicateError)];
      var actions := duplicate + [SendStatus(200), NotifyDiscord(req.body.event)];
      assert Count(duplicate, NotifyDiscord(req.body.event)) == 0;
      CountAppend(duplicate, [SendStatus(200), NotifyDiscord(req.body.event)], NotifyDiscord(req.body.event));
      assert !isUnique ==> actions[0].NextError?;
      actions
    else
      [NextError(UnhandledError)]
  }

  /**
   * The `isUnique` answers a run of notification ids gets from a set that
   * held `seen` beforehand.
   */
  function UniqueAnswers(seen: set<Option<string>>, ids: seq<Option<string>>): (answers: seq<bool>)
    ensures |answers| == |ids|
    decreases |ids|
  {
    if ids == [] then []
    else [ids[0] !in seen] + UniqueAnswers(seen + {ids[0]}, ids[1..])
  }

  /**
   * An id is reported unique exactly at its first occurrence in the run, and
   * only if the set did not already hold it: every id is let through at most
   * once over the life of the process.
   */
  lemma {:induction false} UniqueAtFirstOccurrence(seen: set<Option<string>>, ids: seq<Option<string>>, k: nat)
    requires k < |ids|
    ensures UniqueAnswers(seen, ids)[k] <==> ids[k] !in seen && ids[k] !in ids[..k]
    decreases k
  {
    if k > 0 {
      UniqueAtFirstOccurrence(seen + {ids[0]}, ids[1..], k - 1);
      assert ids[..k] == [ids[0]] + ids[1..][..k - 1];
    }
  }

  /** The process-wide `TwitchNotifIDs` set and the handlers that use it. */
  class NotificationLog {
    var seen: set<Option<string>>

    constructor ()
      ensures seen == {}
    {
      seen := {};
    }

    /**
     * `isUniqueNotification`: true exactly when `id` was not yet in the set;
     * afterwards it is (adding an id that is already there changes nothing).
     */
    method IsUniqueNotification(id: Option<string>) returns (isUnique: bool)
      modifies this
      ensures isUnique <==> id !in old(seen)
      ensures seen == old(seen) + {id}
      ensures !isUnique ==> seen == old(seen)
    {
      isUnique := id !in seen;
      if isUnique {
        seen := seen + {id};
      }
    }

    /** `requestRouter`: only a notification consults and updates the set. */
    method RequestRouter(req: WebhookRequest) returns (actions: seq<Action>)
      modifies this
      ensures req.messageType == Some(NotificationType) ==>
        seen == old(seen) + {req.notificationId} &&
        actions == RouteActions(req, req.notificationId !in old(seen))
      ensures req.messageType != Some(NotificationType) ==>
        seen == old(seen) && actions == RouteActions(req, true)
    {
      if req.messageType == Some(NotificationType) {
        var isUnique := IsUniqueNotification(req.notificationId);
        actions := RouteActions(req, isUnique);
      } else {
        actions := RouteActions(req, true);
      }
    }

    /**
     * `subscribe: [verifySignature, requestRouter]`: the router runs, and
     * consults the set, only when the signature check let the request
     * through; the outcome is what Express carries out of both.
     */
    method Subscribe(hmacHex: (string, string) -> string, secret: string, req: WebhookRequest) returns (actions: seq<Action>)
      modifies this
      ensures !SignatureAccepted(hmacHex, secret, req) ==> seen == old(seen)
      ensures req.retries.Some? && req.retries.value > RetryThreshold ==> actions == [NextError(RetryError)]
      ensures !(req.retries.Some? && req.retries.value > RetryThreshold) && !SignatureAccepted(hmacHex, secret, req) ==>
        actions == [NextError(SignatureError)]
      ensures SignatureAccepted(hmacHex, secret, req) && req.messageType == Some(NotificationType) ==>
        seen == old(seen) + {req.notificationId} &&
        actions == (if req.notificationId in old(seen) then [Next, NextError(DuplicateError)]
                    else [Next, SendStatus(200), NotifyDiscord(req.body.event)])
      ensures SignatureAccepted(hmacHex, secret, req) && req.messageType != Some(NotificationType) ==>
        seen == old(seen) && actions == [Next] + RouteActions(req, true)
      ensures NotifyDiscord(req.body.event) in actions <==>
        SignatureAccepted(hmacHex, secret, req) && req.messageType == Some(NotificationType) && req.notificationId !in old(seen)
    {
      var check := VerifySignature(hmacHex, secret, req);
      if Rejects(check) {
        assert check[0].NextError?;
        actions := Effective(check);
      } else {
        assert check == [Next];
        var routed := RequestRouter(req);
        EffectiveAppend(check, routed);
        actions := Effective(check + routed);
        if req.messageType == Some(NotificationType) && req.notificationId in old(seen) {
          assert routed[0] == NextError(DuplicateError);
        }
      }
    }
  }

  /** Neither check of `verifySignature` fails. */
  predicate SignatureAccepted(hmacHex: (string, string) -> string, secret: string, req: WebhookRequest) {
    !(req.retries.Some? && req.retries.value > RetryThreshold) && req.signature == Some(ExpectedSignature(hmacHex, secret, req))
  }

  /**
   * The same notification delivered twice to a fresh process: the first is
   * accepted, the second is flagged as a duplicate. The router's code still
   * issues the 200 and the forward to the notifier for both, since it does
   * not return after flagging; but Express stops at the duplicate's
   * `next(err)`, so the second is answered with the error and not forwarded.
   */
  method DeliveredTwice(req: WebhookRequest) returns (first: seq<Action>, second: seq<Action>)
    requires req.messageType == Some(NotificationType)
    ensures NextError(DuplicateError) !in first && NextError(DuplicateError) in second
    ensures Count(first, NotifyDiscord(req.body.event)) == 1 && Count(second, NotifyDiscord(req.body.event)) == 1
    ensures SendStatus(200) in first && SendStatus(200) in second
    ensures Effective(first) == first && NotifyDiscord(req.body.event) in Effective(first)
    ensures Effective(second) == [NextError(DuplicateError)]
  {
    var log := new NotificationLog();
    first := log.RequestRouter(req);
    second := log.RequestRouter(req);
    assert second[0] == NextError(DuplicateError);
  }
}
