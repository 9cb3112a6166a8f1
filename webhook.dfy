/** controllers/webhookController.js: the payment gateway's push notification
    (`handleYookassaWebhook`: record resolution, placeholder creation, the
    `processed` guard) and the controller's own `chat_member` join/leave handler. */
module Webhook {
  import opened Wrappers
  import opened JsText
  import opened Collection
  import opened UserModel
  import opened BotApi
  import opened Telegram

  const PAYMENT_SUCCEEDED := "payment.succeeded"

  /** The `object` of a notification: its gateway id and `metadata.userId`. */
  datatype PaymentObject = PaymentObject(id: string, metadataUserId: Option<string>)

  /** The request body: not JSON at all, or `{event, payment}` (the payment may be missing). */
  datatype WebhookBody = Unparsable | Notification(event: string, payment: Option<PaymentObject>)

  /** The HTTP status answered, the documents left behind and the effects. */
  datatype Response = Response(status: int, docs: seq<User>, fx: seq<Effect>)

  /** `validateYookassaWebhook`: the signature check is skipped and every request passes. */
  function ValidateYookassaWebhook(body: WebhookBody): (ok: bool)
    ensures ok
  {
    true
  }

  /** The documents after resolution and the record the handler goes on with. */
  datatype Resolution = Resolution(docs: seq<User>, user: User)

  /** The fallback chain: the record whose `paymentId` is the payment's id; else the
      record of the metadata's user id, when that is truthy; else a new placeholder
      document with no chat, appended to the collection. */
  function Resolve(docs: seq<User>, payment: PaymentObject): (r: Resolution)
    ensures FindFirst(docs, ByPaymentId(payment.id)).Some? ==>
              r == Resolution(docs, docs[FindFirst(docs, ByPaymentId(payment.id)).value])
    ensures FindFirst(docs, ByPaymentId(payment.id)).None? && Truthy(payment.metadataUserId)
            && FindFirst(docs, ByUserId(payment.metadataUserId.value)).Some? ==>
              r == Resolution(docs, docs[FindFirst(docs, ByUserId(payment.metadataUserId.value)).value])
    ensures r.docs != docs ==>
              && FindFirst(docs, ByPaymentId(payment.id)).None?
              && (Truthy(payment.metadataUserId) ==> FindFirst(docs, ByUserId(payment.metadataUserId.value)).None?)
              && r.docs == docs + [r.user]
              && Unentitled(r.user) && r.user.chatId.None? && r.user.paymentId == Some(payment.id)
              && r.user.userId == (if Truthy(payment.metadataUserId) then payment.metadataUserId.value
                                   else "unknown_" + payment.id)
    ensures r.docs == docs || r.docs == docs + [r.user]
  {
    match Lookup(docs, ByPaymentId(payment.id))
    case Some(user) => Resolution(docs, user)
    case None =>
      var byMetadata := if Truthy(payment.metadataUserId) then Lookup(docs, ByUserId(payment.metadataUserId.value)) else None;
      match byMetadata
      case Some(user) => Resolution(docs, user)
      case None =>
        var placeholder := NewDocument(if Truthy(payment.metadataUserId) then payment.metadataUserId.value
                                       else "unknown_" + payment.id, None, Some(payment.id));
        Resolution(docs + [placeholder], placeholder)
  }

  /** Issuance runs only for a record that neither joined nor was processed. */
  predicate MayIssue(user: User) {
    !user.joinedChannel && !user.processed
  }

  /** `handleYookassaWebhook`, given the outcome of the validation and the answers of
      the gateway and Telegram for the one issuance it may run. */
  function WebhookSpec(docs: seq<User>, env: Env, valid: bool, body: WebhookBody, gateway: Gateway,
                       nowMs: nat, invite: InviteReply, doc: DocReply): Response
  {
    if !valid then Response(400, docs, [])
    else match body
      case Unparsable => Response(200, docs, [])
      case Notification(event, payment) =>
        if event != PAYMENT_SUCCEEDED || payment.None? then Response(200, docs, [])
        else
          var r := Resolve(docs, payment.value);
          if !MayIssue(r.user) then Response(200, r.docs, [])
          else
            var o := SendInviteLinkSpec(r.docs, env, r.user, payment.value.id, gateway, nowMs, invite, doc);
            if o.threw then Response(200, o.docs, o.fx)
            else Response(200, UpdateFirst(o.docs, ByPaymentId(payment.value.id), MarkProcessed()), o.fx)
  }

  /** The handler, step by step. */
  method HandleYookassaWebhook(db: Collection<User>, env: Env, body: WebhookBody, gateway: Gateway,
                               nowMs: nat, invite: InviteReply, doc: DocReply) returns (status: int, fx: seq<Effect>)
    modifies db
    ensures Response(status, db.docs, fx) ==
              WebhookSpec(old(db.docs), env, ValidateYookassaWebhook(body), body, gateway, nowMs, invite, doc)
  {
    fx := [];
    if !ValidateYookassaWebhook(body) {
      return 400, fx;
    }
    if body.Unparsable? || body.event != PAYMENT_SUCCEEDED || body.payment.None? {
      return 200, fx;
    }
    var payment := body.payment.value;
    var user := db.FindOne(ByPaymentId(payment.id));
    if user.None? && Truthy(payment.metadataUserId) {
      user := db.FindOne(ByUserId(payment.metadataUserId.value));
    }
    if user.None? {
      var placeholder := NewDocument(if Truthy(payment.metadataUserId) then payment.metadataUserId.value
                                     else "unknown_" + payment.id, None, Some(payment.id));
      db.Create(placeholder);
      user := Some(placeholder);
    }
    assert Resolve(old(db.docs), payment) == Resolution(db.docs, user.value);
    if MayIssue(user.value) {
      var threw;
      fx, threw := SendInviteLink(db, env, user.value, payment.id, gateway, nowMs, invite, doc);
      if !threw {
        db.UpdateOne(ByPaymentId(payment.id), MarkProcessed());
      }
    }
    status := 200;
  }

  /** Were the check to fail, the handler would answer 400 and touch nothing. */
  lemma RejectedRequestTouchesNothing(docs: seq<User>, env: Env, body: WebhookBody, gateway: Gateway,
                                      nowMs: nat, invite: InviteReply, doc: DocReply)
    ensures WebhookSpec(docs, env, false, body, gateway, nowMs, invite, doc) == Response(400, docs, [])
    ensures WebhookSpec(docs, env, ValidateYookassaWebhook(body), body, gateway, nowMs, invite, doc).status == 200
  {
  }

  /** Any other event, an unparsable body or a notification without its payment is
      answered 200 and changes nothing. */
  lemma OtherEventsIgnored(docs: seq<User>, env: Env, body: WebhookBody, gateway: Gateway,
                           nowMs: nat, invite: InviteReply, doc: DocReply)
    requires body.Unparsable? || body.event != PAYMENT_SUCCEEDED || body.payment.None?
    ensures WebhookSpec(docs, env, true, body, gateway, nowMs, invite, doc) == Response(200, docs, [])
  {
  }

  /** A record that joined or was processed is left as resolved and nothing is sent. */
  lemma NoIssueOnceJoinedOrProcessed(docs: seq<User>, env: Env, payment: PaymentObject, gateway: Gateway,
                                     nowMs: nat, invite: InviteReply, doc: DocReply)
    requires !MayIssue(Resolve(docs, payment).user)
    ensures WebhookSpec(docs, env, true, Notification(PAYMENT_SUCCEEDED, Some(payment)), gateway, nowMs, invite, doc)
              == Response(200, Resolve(docs, payment).docs, [])
  {
  }

  /** Whenever issuance runs and does not throw, the first record carrying the
      payment's id ends up `processed`, whether or not an invite was made. */
  lemma ProcessedAfterIssuanceAttempt(docs: seq<User>, env: Env, payment: PaymentObject, gateway: Gateway,
                                      nowMs: nat, invite: InviteReply, doc: DocReply)
    requires MayIssue(Resolve(docs, payment).user) && Resolve(docs, payment).user.chatId.Some?
    ensures var w := WebhookSpec(docs, env, true, Notification(PAYMENT_SUCCEEDED, Some(payment)), gateway, nowMs, invite, doc);
            FindFirst(w.docs, ByPaymentId(payment.id)).Some? ==> w.docs[FindFirst(w.docs, ByPaymentId(payment.id)).value].processed
  {
    var r := Resolve(docs, payment);
    var o := SendInviteLinkSpec(r.docs, env, r.user, payment.id, gateway, nowMs, invite, doc);
    ThrowsIffNoChat(r.docs, env, r.user, payment.id, gateway, nowMs, invite, doc);
    var w := UpdateFirst(o.docs, ByPaymentId(payment.id), MarkProcessed());
    FindFirstAfterUpdate(o.docs, ByPaymentId(payment.id), MarkProcessed(), ByPaymentId(payment.id));
  }

  /** Redelivery: once a notification for a payment whose record was found by its id
      and has a chat has been handled, the same notification again issues nothing and
      changes nothing. */
  lemma RedeliveryIssuesNothing(docs: seq<User>, env: Env, payment: PaymentObject, gateway: Gateway,
                                nowMs: nat, invite: InviteReply, doc: DocReply,
                                gateway2: Gateway, invite2: InviteReply, doc2: DocReply)
    requires FindFirst(docs, ByPaymentId(payment.id)).Some?
    requires docs[FindFirst(docs, ByPaymentId(payment.id)).value].chatId.Some?
    ensures var body := Notification(PAYMENT_SUCCEEDED, Some(payment));
            var w := WebhookSpec(docs, env, true, body, gateway, nowMs, invite, doc);
            WebhookSpec(w.docs, env, true, body, gateway2, nowMs, invite2, doc2) == Response(200, w.docs, [])
  {
    var body := Notification(PAYMENT_SUCCEEDED, Some(payment));
    var i := FindFirst(docs, ByPaymentId(payment.id)).value;
    var user := docs[i];
    var w := WebhookSpec(docs, env, true, body, gateway, nowMs, invite, doc);
    if MayIssue(user) {
      var o := SendInviteLinkSpec(docs, env, user, payment.id, gateway, nowMs, invite, doc);
      ThrowsIffNoChat(docs, env, user, payment.id, gateway, nowMs, invite, doc);
      IssuanceKeepsPaymentMatch(docs, env, user, payment.id, gateway, nowMs, invite, doc, payment.id);
      var claimed := o.docs[i].(processed := true);
      assert w.docs == o.docs[i := claimed];
      FindFirstAfterSet(o.docs, i, claimed, ByPaymentId(payment.id));
      assert Resolve(w.docs, payment).user == claimed;
    }
  }

  /** The invite write keeps every record's payment id, so the first record for any
      payment id stays where it was. */
  lemma IssuanceKeepsPaymentMatch(docs: seq<User>, env: Env, user: User, paymentId: string, gateway: Gateway,
                                  nowMs: nat, invite: InviteReply, doc: DocReply, id: string)
    ensures var o := SendInviteLinkSpec(docs, env, user, paymentId, gateway, nowMs, invite, doc);
            FindFirst(o.docs, ByPaymentId(id)) == FindFirst(docs, ByPaymentId(id))
  {
    SendInviteLinkWrites(docs, env, user, paymentId, gateway, nowMs, invite, doc);
    if invite.Minted? && doc.Posted? {
      var expires, document := StoredExpiry(nowMs), AuditUrl(env.paymentGroupId, doc.messageId);
      var f := Issue(invite.link, expires, document);
      forall x: User ensures ByPaymentId(id)(f(x)) == ByPaymentId(id)(x) {
        UpdatesKeepKeys(x, invite.link, expires, document);
      }
      FindFirstAfterUpdate(docs, ByUserAndPayment(user.userId, paymentId), f, ByPaymentId(id));
    }
  }

  /** A `chat_member` update as the controller reads it. */
  datatype ChatMemberUpdate = ChatMemberUpdate(chatId: string, userId: string, status: string)

  /** `['member', 'administrator', 'creator'].includes(status)` */
  predicate IsMemberStatus(status: string) {
    status == "member" || status == "administrator" || status == "creator"
  }

  /** The controller's `chat_member` handler: in the channel, for a paid user, a
      member status on a user not yet joined marks them joined and the link used; a
      non-member status on a joined user clears `joinedChannel` only. */
  function MembershipSpec(docs: seq<User>, env: Env, update: ChatMemberUpdate): seq<User>
  {
    if update.chatId != env.channelId then docs
    else
      match Lookup(docs, PaidUser(update.userId))
      case None => docs
      case Some(user) =>
        if IsMemberStatus(update.status) && !user.joinedChannel then
          UpdateFirst(docs, ByUserId(update.userId), MarkJoined())
        else if !IsMemberStatus(update.status) && user.joinedChannel then
          UpdateFirst(docs, ByUserId(update.userId), MarkLeft())
        else docs
  }

  method TrackMembership(db: Collection<User>, env: Env, update: ChatMemberUpdate)
    modifies db
    ensures db.docs == MembershipSpec(old(db.docs), env, update)
  {
    if update.chatId != env.channelId {
      return;
    }
    var user := db.FindOne(PaidUser(update.userId));
    if user.None? {
      return;
    }
    var isMember := IsMemberStatus(update.status);
    if isMember && !user.value.joinedChannel {
      db.UpdateOne(ByUserId(update.userId), MarkJoined());
    } else if !isMember && user.value.joinedChannel {
      db.UpdateOne(ByUserId(update.userId), MarkLeft());
    }
  }

  /** Updates for other chats or for users with no paid record change nothing. */
  lemma MembershipIgnoresStrangers(docs: seq<User>, env: Env, update: ChatMemberUpdate)
    requires update.chatId != env.channelId || forall k :: 0 <= k < |docs| ==> !PaidUser(update.userId)(docs[k])
    ensures MembershipSpec(docs, env, update) == docs
  {
  }

  /** The transitions, on a collection where the user has one record: joining sets
      `joinedChannel` and `inviteLinkUsed`; leaving clears `joinedChannel` only, so a
      consumed link stays consumed; every other document is untouched. */
  lemma MembershipTransitions(docs: seq<User>, env: Env, update: ChatMemberUpdate, i: nat)
    requires update.chatId == env.channelId
    requires i < |docs| && docs[i].userId == update.userId && docs[i].paymentStatus == SUCCEEDED
    requires UniqueUserIds(docs)
    ensures var d := MembershipSpec(docs, env, update);
            && |d| == |docs|
            && (forall k :: 0 <= k < |docs| && k != i ==> d[k] == docs[k])
            && d[i].inviteLinkUsed == (docs[i].inviteLinkUsed || (IsMemberStatus(update.status) && !docs[i].joinedChannel))
            && d[i].joinedChannel == IsMemberStatus(update.status)
            && d[i] == docs[i].(joinedChannel := d[i].joinedChannel, inviteLinkUsed := d[i].inviteLinkUsed)
  {
    forall k | 0 <= k < i ensures !ByUserId(update.userId)(docs[k]) && !PaidUser(update.userId)(docs[k]) {
      assert docs[k].userId != docs[i].userId;
    }
    assert FindFirst(docs, PaidUser(update.userId)) == Some(i);
    assert FindFirst(docs, ByUserId(update.userId)) == Some(i);
  }

  /** `inviteLinkUsed` is never cleared by a membership update. */
  lemma MembershipKeepsConsumption(docs: seq<User>, env: Env, update: ChatMemberUpdate)
    ensures var d := MembershipSpec(docs, env, update);
            |d| == |docs| && forall k :: 0 <= k < |docs| && docs[k].inviteLinkUsed ==> d[k].inviteLinkUsed
  {
  }
}
