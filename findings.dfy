/** Discrepancies between what the handlers do and what they evidently mean to do,
    each shown on the handlers as written and paired with a corrected definition and
    the property proved about it. */
module Findings {
  import opened Wrappers
  import opened JsText
  import opened Collection
  import opened UserModel
  import opened BotApi
  import opened Telegram
  import opened Webhook
  import opened BotController
  import Legacy

  /** A payment gateway that reports every payment settled. */
  function AllSettled(): Gateway {
    (id: string) => Status(SUCCEEDED)
  }

  /** The notification the gateway pushes for payment `id`. */
  function Succeeded(id: string, metadataUserId: Option<string>): WebhookBody {
    Notification(PAYMENT_SUCCEEDED, Some(PaymentObject(id, metadataUserId)))
  }

  /** A subscriber who started payment `paymentId` from chat `chatId` and has not been served yet. */
  function Waiting(userId: string, chatId: string, paymentId: string): User {
    NewDocument(userId, Some(chatId), Some(paymentId))
  }

  // ---------------------------------------------------------------------------
  // F1: the user polls with /checkpayment, the link is issued and stored; the
  // gateway's push then arrives, passes the webhook's guard (it looks only at
  // `joinedChannel` and `processed`) and a second invite is made for one payment.

  lemma PollThenPushIssuesTwice(env: Env, nowMs: nat)
    ensures var docs := [Waiting("7", "7", "p1")];
            var poll := CheckPaymentSpec(docs, env, "7", AllSettled(), nowMs, Minted("L1"), Posted(1));
            var push := WebhookSpec(poll.docs, env, true, Succeeded("p1", None), AllSettled(), nowMs, Minted("L2"), Posted(2));
            && CountInvites(poll.fx) == 1
            && CountInvites(push.fx) == 1
            && |push.docs| == 1 && push.docs[0].inviteLink == Some("L2")
  {
    var issued := PollIssues(env, nowMs);
    PushIssuesAgain(env, nowMs, issued);
  }

  /** The poll issues one invite and writes it to the only record, which stays unclaimed. */
  lemma PollIssues(env: Env, nowMs: nat) returns (issued: User)
    ensures var poll := CheckPaymentSpec([Waiting("7", "7", "p1")], env, "7", AllSettled(), nowMs, Minted("L1"), Posted(1));
            && poll.docs == [issued] && CountInvites(poll.fx) == 1
            && issued.userId == "7" && issued.paymentId == Some("p1") && MayIssue(issued)
  {
    var u := Waiting("7", "7", "p1");
    var docs := [u];
    assert FindFirst(docs, ByUserId("7")) == Some(0);
    OneInvitePerSettledCall(docs, env, u, "p1", AllSettled(), nowMs, "L1", Posted(1));
    assert FindFirst(docs, ByUserAndPayment("7", "p1")) == Some(0);
    issued := Issue("L1", StoredExpiry(nowMs), AuditUrl(env.paymentGroupId, 1))(u);
  }

  /** The push for the same payment finds that record and issues a second invite. */
  lemma PushIssuesAgain(env: Env, nowMs: nat, issued: User)
    requires issued.userId == "7" && issued.paymentId == Some("p1") && MayIssue(issued)
    ensures var push := WebhookSpec([issued], env, true, Succeeded("p1", None), AllSettled(), nowMs, Minted("L2"), Posted(2));
            CountInvites(push.fx) == 1 && |push.docs| == 1 && push.docs[0].inviteLink == Some("L2")
  {
    var docs := [issued];
    assert FindFirst(docs, ByPaymentId("p1")) == Some(0);
    assert Resolve(docs, PaymentObject("p1", None)) == Resolution(docs, issued);
    OneInvitePerSettledCall(docs, env, issued, "p1", AllSettled(), nowMs, "L2", Posted(2));
    assert FindFirst(docs, ByUserAndPayment("7", "p1")) == Some(0);
  }

  // ---------------------------------------------------------------------------
  // F2: a payment nobody can be matched to gets a placeholder with no chat;
  // `sendInviteLink` makes the invite, then throws on the first message, so
  // `processed` is never set and every redelivery makes another invite.

  lemma PlaceholderRedeliveryIssuesAgain(env: Env, nowMs: nat)
    ensures var first := WebhookSpec([], env, true, Succeeded("p9", None), AllSettled(), nowMs, Minted("L1"), Posted(1));
            var again := WebhookSpec(first.docs, env, true, Succeeded("p9", None), AllSettled(), nowMs, Minted("L2"), Posted(2));
            && CountInvites(first.fx) == 1
            && CountInvites(again.fx) == 1
            && |first.docs| == 1 && !first.docs[0].processed
  {
    var p := PaymentObject("p9", None);
    var ph := NewDocument("unknown_" + "p9", None, Some("p9"));
    assert Resolve([], p) == Resolution([ph], ph);
    OneInvitePerSettledCall([ph], env, ph, "p9", AllSettled(), nowMs, "L1", Posted(1));
    assert FindFirst([ph], ByUserAndPayment(ph.userId, "p9")) == Some(0);
    var issued := Issue("L1", StoredExpiry(nowMs), AuditUrl(env.paymentGroupId, 1))(ph);
    var first := WebhookSpec([], env, true, Succeeded("p9", None), AllSettled(), nowMs, Minted("L1"), Posted(1));
    assert first.docs == [issued];
    assert FindFirst([issued], ByPaymentId("p9")) == Some(0);
    assert Resolve([issued], p) == Resolution([issued], issued);
    OneInvitePerSettledCall([issued], env, issued, "p9", AllSettled(), nowMs, "L2", Posted(2));
  }

  // ---------------------------------------------------------------------------
  // F3: a record found through `metadata.userId` carries another payment id (the
  // user pressed "buy" twice and paid the first payment). Both the invite write
  // (`{userId, paymentId}`) and the `processed` write (`{paymentId}`) miss it, so
  // the store is untouched and every redelivery makes another invite.

  lemma MetadataMatchRedeliveryIssuesAgain(env: Env, nowMs: nat)
    ensures var docs := [Waiting("7", "7", "p2")];
            var body := Succeeded("p1", Some("7"));
            var first := WebhookSpec(docs, env, true, body, AllSettled(), nowMs, Minted("L1"), Posted(1));
            var again := WebhookSpec(first.docs, env, true, body, AllSettled(), nowMs, Minted("L2"), Posted(2));
            && first.docs == docs
            && CountInvites(first.fx) == 1
            && CountInvites(again.fx) == 1
  {
    var u := Waiting("7", "7", "p2");
    var docs := [u];
    var p := PaymentObject("p1", Some("7"));
    assert FindFirst(docs, ByPaymentId("p1")).None?;
    assert FindFirst(docs, ByUserId("7")) == Some(0);
    assert Resolve(docs, p) == Resolution(docs, u);
    assert FindFirst(docs, ByUserAndPayment("7", "p1")).None?;
    OneInvitePerSettledCall(docs, env, u, "p1", AllSettled(), nowMs, "L1", Posted(1));
    OneInvitePerSettledCall(docs, env, u, "p1", AllSettled(), nowMs, "L2", Posted(2));
  }

  // ---------------------------------------------------------------------------
  // Corrected webhook for F1-F3: skip a record that is already paid with a link
  // (as `processPayment` and `/checkpayment` do), and claim the resolved record
  // (`processed: true`, by its user id) before the invite is attempted, so neither
  // a throw nor a payment id mismatch can leave it unclaimed.

  function WebhookClaimFirstSpec(docs: seq<User>, env: Env, body: WebhookBody, gateway: Gateway,
                                 nowMs: nat, invite: InviteReply, doc: DocReply): Response
  {
    match body
    case Unparsable => Response(200, docs, [])
    case Notification(event, payment) =>
      if event != PAYMENT_SUCCEEDED || payment.None? then Response(200, docs, [])
      else
        var r := Resolve(docs, payment.value);
        if !MayIssue(r.user) || (r.user.paymentStatus == SUCCEEDED && HasLink(r.user)) then Response(200, r.docs, [])
        else
          var claimed := UpdateFirst(r.docs, ByUserId(r.user.userId), MarkProcessed());
          var o := SendInviteLinkSpec(claimed, env, r.user, payment.value.id, gateway, nowMs, invite, doc);
          Response(200, o.docs, o.fx)
  }

  /** Where resolution finds (or puts) the record. */
  function ResolvedIndex(docs: seq<User>, payment: PaymentObject): (i: nat)
    ensures i < |Resolve(docs, payment).docs| && Resolve(docs, payment).docs[i] == Resolve(docs, payment).user
  {
    match FindFirst(docs, ByPaymentId(payment.id))
    case Some(i) => i
    case None =>
      var byMetadata := if Truthy(payment.metadataUserId) then FindFirst(docs, ByUserId(payment.metadataUserId.value)) else None;
      match byMetadata
      case Some(i) => i
      case None => |docs|
  }

  /** Two collections whose documents agree, position by position, on the fields
      the webhook resolves by. */
  predicate SameKeys(a: seq<User>, b: seq<User>) {
    |a| == |b| && forall k :: 0 <= k < |a| ==> a[k].userId == b[k].userId && a[k].paymentId == b[k].paymentId
  }

  lemma {:induction false} FindFirstSameKeys(a: seq<User>, b: seq<User>, id: string)
    requires SameKeys(a, b)
    ensures FindFirst(a, ByPaymentId(id)) == FindFirst(b, ByPaymentId(id))
    ensures FindFirst(a, ByUserId(id)) == FindFirst(b, ByUserId(id))
  {
    if a != [] {
      FindFirstSameKeys(a[1..], b[1..], id);
    }
  }

  /** Resolving again, in a collection that kept the keys of the resolved one, finds
      the same position and creates nothing. */
  lemma ResolveAgain(docs: seq<User>, payment: PaymentObject, later: seq<User>)
    requires SameKeys(later, Resolve(docs, payment).docs)
    ensures Resolve(later, payment) == Resolution(later, later[ResolvedIndex(docs, payment)])
  {
    var r := Resolve(docs, payment);
    FindFirstSameKeys(later, r.docs, payment.id);
    if Truthy(payment.metadataUserId) {
      FindFirstSameKeys(later, r.docs, payment.metadataUserId.value);
    }
    if r.docs != docs {
      FindFirstAfterAppend(docs, r.user, ByPaymentId(payment.id));
    }
  }

  /** With one record per user after resolution, the corrected webhook handles a
      redelivered notification as a no-op, whatever happened the first time
      (including a throw and a payment id mismatch). */
  lemma ClaimFirstRedeliveryIssuesNothing(docs: seq<User>, env: Env, payment: PaymentObject, gateway: Gateway,
                                          nowMs: nat, invite: InviteReply, doc: DocReply,
                                          gateway2: Gateway, invite2: InviteReply, doc2: DocReply)
    requires UniqueUserIds(Resolve(docs, payment).docs)
    ensures var body := Notification(PAYMENT_SUCCEEDED, Some(payment));
            var w := WebhookClaimFirstSpec(docs, env, body, gateway, nowMs, invite, doc);
            WebhookClaimFirstSpec(w.docs, env, body, gateway2, nowMs, invite2, doc2) == Response(200, w.docs, [])
  {
    var body := Notification(PAYMENT_SUCCEEDED, Some(payment));
    var w := WebhookClaimFirstSpec(docs, env, body, gateway, nowMs, invite, doc);
    var r := Resolve(docs, payment);
    if MayIssue(r.user) && !(r.user.paymentStatus == SUCCEEDED && HasLink(r.user)) {
      var i := ResolvedIndex(docs, payment);
      var claimed := ClaimByUserId(r.docs, i);
      ClaimSurvivesInvite(r.docs, claimed, i, env, r.user, payment.id, gateway, nowMs, invite, doc);
      assert w.docs == SendInviteLinkSpec(claimed, env, r.user, payment.id, gateway, nowMs, invite, doc).docs;
      ResolveAgain(docs, payment, w.docs);
    } else {
      ResolveAgain(docs, payment, r.docs);
    }
    ClaimFirstSkips(w.docs, env, payment, gateway2, nowMs, invite2, doc2);
  }

  /** A notification whose record resolves in place and is claimed, or already paid
      with a link, is answered with 200 and nothing else. */
  lemma ClaimFirstSkips(docs: seq<User>, env: Env, payment: PaymentObject, gateway: Gateway,
                        nowMs: nat, invite: InviteReply, doc: DocReply)
    requires Resolve(docs, payment).docs == docs
    requires var u := Resolve(docs, payment).user; !MayIssue(u) || (u.paymentStatus == SUCCEEDED && HasLink(u))
    ensures WebhookClaimFirstSpec(docs, env, Notification(PAYMENT_SUCCEEDED, Some(payment)), gateway, nowMs, invite, doc)
              == Response(200, docs, [])
  {
  }

  /** With one record per user, claiming by user id marks exactly that record. */
  lemma ClaimByUserId(docs: seq<User>, i: nat) returns (claimed: seq<User>)
    requires UniqueUserIds(docs) && i < |docs|
    ensures claimed == UpdateFirst(docs, ByUserId(docs[i].userId), MarkProcessed())
    ensures claimed == docs[i := docs[i].(processed := true)]
  {
    forall k | 0 <= k < i ensures !ByUserId(docs[i].userId)(docs[k]) {
      assert docs[k].userId != docs[i].userId;
    }
    assert FindFirst(docs, ByUserId(docs[i].userId)) == Some(i);
    claimed := UpdateFirst(docs, ByUserId(docs[i].userId), MarkProcessed());
  }

  /** The invite write after a claim keeps the claim and every key. */
  lemma ClaimSurvivesInvite(docs: seq<User>, claimed: seq<User>, i: nat, env: Env, user: User, paymentId: string,
                            gateway: Gateway, nowMs: nat, invite: InviteReply, doc: DocReply)
    requires i < |docs| && claimed == docs[i := docs[i].(processed := true)]
    ensures var o := SendInviteLinkSpec(claimed, env, user, paymentId, gateway, nowMs, invite, doc);
            SameKeys(o.docs, docs) && o.docs[i].processed
  {
    SendInviteLinkWrites(claimed, env, user, paymentId, gateway, nowMs, invite, doc);
    if invite.Minted? && doc.Posted? {
      IssueKeepsClaims(claimed, ByUserAndPayment(user.userId, paymentId), invite.link, StoredExpiry(nowMs),
                       AuditUrl(env.paymentGroupId, doc.messageId));
    }
  }

  /** The invite write changes neither the keys nor the claim of any record. */
  lemma IssueKeepsClaims(docs: seq<User>, p: User -> bool, link: string, expires: int, document: string)
    ensures var w := UpdateFirst(docs, p, Issue(link, expires, document));
            && |w| == |docs|
            && forall k :: 0 <= k < |w| ==>
                 w[k].userId == docs[k].userId && w[k].paymentId == docs[k].paymentId && w[k].processed == docs[k].processed
  {
    match FindFirst(docs, p)
    case None =>
    case Some(j) =>
      UpdatesKeepKeys(docs[j], link, expires, document);
      assert Issue(link, expires, document)(docs[j]).processed == docs[j].processed;
  }

  /** The corrected webhook never makes a second invite for a record that already
      holds a paid link, such as one the user's poll just issued. */
  lemma ClaimFirstSkipsIssuedRecord(docs: seq<User>, env: Env, payment: PaymentObject, gateway: Gateway,
                                    nowMs: nat, invite: InviteReply, doc: DocReply)
    requires Resolve(docs, payment).user.paymentStatus == SUCCEEDED && HasLink(Resolve(docs, payment).user)
    ensures WebhookClaimFirstSpec(docs, env, Notification(PAYMENT_SUCCEEDED, Some(payment)), gateway, nowMs, invite, doc)
              == Response(200, Resolve(docs, payment).docs, [])
  {
  }

  // ---------------------------------------------------------------------------
  // F4: every accepted edit in the `text` handler calls `Settings`, which
  // botController.js never imports: the save throws, the admin gets the error
  // reply and stays in editing mode (shown by `BotController.EditorsKeepState`).

  lemma AcceptedEditIsNeverSaved(docs: seq<User>, env: Env, amount: int, userId: string, chatId: string,
                                 localPaymentId: string, create: CreateReply)
    requires IsAdmin(env, userId)
    ensures var s := SessionState(false, Some(PaymentAmount), []);
            TextSpec(docs, s, env, amount, userId, chatId, "500", true, localPaymentId, create)
              == Turn(docs, [Replied(SaveFailed)], s)
  {
  }

  /** What an accepted edit stores. */
  datatype SettingsPatch = SettingsPatch(field: Field, value: string)

  /** The editors as evidently intended: an accepted text is stored (the support
      link normalised), editing mode ends and the admin is told; a rejected one keeps
      the mode. */
  function EditFixed(editing: Field, text: string, amountAccepted: bool): (r: (Msg, Option<SettingsPatch>))
    ensures r.1.Some? <==> r.0 == SettingSaved(editing)
    ensures r.1.None? ==> r.0 == EditorVerdict(editing, text, amountAccepted)
    ensures r.1.Some? ==> r.1.value.field == editing && EditorVerdict(editing, text, amountAccepted) == SaveFailed
    ensures r.1.Some? && editing == SupportLink ==> HasHttpScheme(r.1.value.value)
    ensures r.1.Some? && editing != SupportLink ==> r.1.value.value == text
  {
    var verdict := EditorVerdict(editing, text, amountAccepted);
    if verdict != SaveFailed then (verdict, None)
    else if editing == SupportLink then (SettingSaved(editing), Some(SettingsPatch(editing, NormalizeSupportLink(text).value)))
    else (SettingSaved(editing), Some(SettingsPatch(editing, text)))
  }

  /** The corrected `text` handler for an admin in editing mode: the turn and the
      settings patch, if any. */
  function TextFixedSpec(docs: seq<User>, session: SessionState, env: Env, amount: int, userId: string, chatId: string,
                         raw: string, amountAccepted: bool, localPaymentId: string, create: CreateReply): (Turn, Option<SettingsPatch>)
  {
    if session.waitingForEmail || !IsAdmin(env, userId) || session.editing.None? then
      (TextSpec(docs, session, env, amount, userId, chatId, raw, amountAccepted, localPaymentId, create), None)
    else
      var e := EditFixed(session.editing.value, Trim(raw), amountAccepted);
      (Turn(docs, [Replied(e.0)], if e.1.Some? then session.(editing := None) else session), e.1)
  }

  /** In the corrected handler editing mode ends exactly when a setting is saved,
      and it is saved exactly when the as-written handler would have tried to save. */
  lemma FixedEditingEndsOnSave(docs: seq<User>, session: SessionState, env: Env, amount: int, userId: string,
                               chatId: string, raw: string, amountAccepted: bool, localPaymentId: string, create: CreateReply)
    requires !session.waitingForEmail && IsAdmin(env, userId) && session.editing.Some?
    ensures var r := TextFixedSpec(docs, session, env, amount, userId, chatId, raw, amountAccepted, localPaymentId, create);
            var asWritten := TextSpec(docs, session, env, amount, userId, chatId, raw, amountAccepted, localPaymentId, create);
            && r.0.docs == docs
            && (r.1.Some? <==> r.0.session.editing.None?)
            && (r.1.Some? <==> asWritten.fx == [Replied(SaveFailed)])
            && (r.1.None? ==> r.0 == asWritten)
  {
  }

  // ---------------------------------------------------------------------------
  // F5: the legacy `buy` stores its own uuid as `paymentId`, while the legacy
  // webhook looks the record up by the gateway's `object.id`; the paid record is
  // never found and no invite is ever made.

  lemma LegacyPaidRecordNeverFound(docs: seq<Legacy.LegacyUser>, env: Env, userId: string, chatId: string, nowMs: nat,
                                   uuid: string, gatewayId: string, url: string, invite: InviteReply, doc: DocReply)
    requires Legacy.BuyStarts(docs, userId)
    requires gatewayId != uuid
    requires FindFirst(docs, Legacy.ByPaymentId(gatewayId)).None?
    ensures var b := Legacy.BuySpec(docs, env, userId, chatId, nowMs, uuid, Created(gatewayId, url));
            Legacy.WebhookSpec(b.docs, env, "payment.succeeded", gatewayId, nowMs, invite, doc) == Step(b.docs, [])
  {
    Legacy.BuyStoresLocalId(docs, env, userId, chatId, nowMs, uuid, gatewayId, url);
  }

  /** The legacy `buy` as evidently intended: the record keeps the gateway's id. */
  function LegacyBuyFixedSpec(docs: seq<Legacy.LegacyUser>, env: Env, userId: string, chatId: string, nowMs: nat,
                              uuid: string, create: CreateReply): Step<Legacy.LegacyUser>
  {
    if !Legacy.BuyStarts(docs, userId) || create.CreateFailed? then Legacy.BuySpec(docs, env, userId, chatId, nowMs, uuid, create)
    else
      Step(Upsert(docs, Legacy.ByUserId(userId), Legacy.StartPayment(create.gatewayId, chatId),
                  Legacy.LegacyUser(userId, chatId, Legacy.PENDING, Some(create.gatewayId), false, None, None, None)),
           [PaymentRequested(Legacy.LEGACY_AMOUNT, uuid, env.returnUrl), Replied(LegacyPayHere(create.confirmationUrl))])
  }

  /** With the corrected `buy`, the gateway's notification finds the user's record
      and issues the invite, marking the subscriber paid. */
  lemma LegacyFixedPaymentIsServed(docs: seq<Legacy.LegacyUser>, env: Env, userId: string, chatId: string, nowMs: nat,
                                   uuid: string, gatewayId: string, url: string, link: string, messageId: nat)
    requires Legacy.BuyStarts(docs, userId)
    requires Legacy.UniqueLegacyUserIds(docs)
    requires FindFirst(docs, Legacy.ByPaymentId(gatewayId)).None?
    requires forall k :: 0 <= k < |docs| && docs[k].userId == userId ==> !docs[k].joinedChannel
    ensures var b := LegacyBuyFixedSpec(docs, env, userId, chatId, nowMs, uuid, Created(gatewayId, url));
            var w := Legacy.WebhookSpec(b.docs, env, "payment.succeeded", gatewayId, nowMs, Minted(link), Posted(messageId));
            && CountInvites(w.fx) == 1
            && Lookup(w.docs, Legacy.ByUserId(userId)).Some?
            && Lookup(w.docs, Legacy.ByUserId(userId)).value.paymentStatus == Legacy.SUCCEEDED
            && Lookup(w.docs, Legacy.ByUserId(userId)).value.inviteLink == Some(link)
  {
    var b := LegacyBuyFixedSpec(docs, env, userId, chatId, nowMs, uuid, Created(gatewayId, url));
    var i := LegacyFixedBuyFindable(docs, env, userId, chatId, nowMs, uuid, gatewayId, url);
    LegacyWebhookServes(b.docs, i, env, userId, gatewayId, nowMs, link, messageId);
  }

  /** A record that is first both for its user and for the gateway's id, and has not
      joined, is issued the invite by the legacy webhook. */
  lemma LegacyWebhookServes(docs: seq<Legacy.LegacyUser>, i: nat, env: Env, userId: string, gatewayId: string,
                            nowMs: nat, link: string, messageId: nat)
    requires i < |docs| && docs[i].userId == userId && !docs[i].joinedChannel
    requires FindFirst(docs, Legacy.ByPaymentId(gatewayId)) == Some(i)
    requires FindFirst(docs, Legacy.ByUserId(userId)) == Some(i)
    ensures var w := Legacy.WebhookSpec(docs, env, "payment.succeeded", gatewayId, nowMs, Minted(link), Posted(messageId));
            && CountInvites(w.fx) == 1
            && Lookup(w.docs, Legacy.ByUserId(userId)).Some?
            && Lookup(w.docs, Legacy.ByUserId(userId)).value.paymentStatus == Legacy.SUCCEEDED
            && Lookup(w.docs, Legacy.ByUserId(userId)).value.inviteLink == Some(link)
  {
    var w := Legacy.WebhookSpec(docs, env, "payment.succeeded", gatewayId, nowMs, Minted(link), Posted(messageId));
    Legacy.WebhookRedeliverySkipped(docs, env, gatewayId, nowMs, link, messageId, Minted(link), Posted(messageId));
    LegacyIssueKeepsUser(docs, i, env, gatewayId, nowMs, link, messageId);
    assert Lookup(w.docs, Legacy.ByUserId(userId)) == Some(w.docs[i]);
  }

  /** After the corrected `buy` the same record is the first one for the user and
      for the gateway id, and it has not joined. */
  lemma LegacyFixedBuyFindable(docs: seq<Legacy.LegacyUser>, env: Env, userId: string, chatId: string, nowMs: nat,
                               uuid: string, gatewayId: string, url: string) returns (i: nat)
    requires Legacy.BuyStarts(docs, userId)
    requires FindFirst(docs, Legacy.ByPaymentId(gatewayId)).None?
    requires forall k :: 0 <= k < |docs| && docs[k].userId == userId ==> !docs[k].joinedChannel
    ensures var b := LegacyBuyFixedSpec(docs, env, userId, chatId, nowMs, uuid, Created(gatewayId, url)).docs;
            && i < |b| && b[i].userId == userId && !b[i].joinedChannel
            && FindFirst(b, Legacy.ByPaymentId(gatewayId)) == Some(i)
            && FindFirst(b, Legacy.ByUserId(userId)) == Some(i)
  {
    var b := LegacyBuyFixedSpec(docs, env, userId, chatId, nowMs, uuid, Created(gatewayId, url)).docs;
    match FindFirst(docs, Legacy.ByUserId(userId))
    case None =>
      i := |docs|;
      assert b == docs + [Legacy.LegacyUser(userId, chatId, Legacy.PENDING, Some(gatewayId), false, None, None, None)];
      FindFirstAfterAppend(docs, b[i], Legacy.ByPaymentId(gatewayId));
      FindFirstAfterAppend(docs, b[i], Legacy.ByUserId(userId));
    case Some(j) =>
      i := j;
      assert b == docs[j := Legacy.StartPayment(gatewayId, chatId)(docs[j])];
      forall k | 0 <= k < j ensures !Legacy.ByPaymentId(gatewayId)(b[k]) {}
      FindFirstAfterSet(docs, j, b[j], Legacy.ByUserId(userId));
  }

  /** The legacy webhook's write keeps the record first for its user. */
  lemma LegacyIssueKeepsUser(docs: seq<Legacy.LegacyUser>, i: nat, env: Env, gatewayId: string, nowMs: nat,
                             link: string, messageId: nat)
    requires i < |docs| && !docs[i].joinedChannel
    requires FindFirst(docs, Legacy.ByPaymentId(gatewayId)) == Some(i)
    ensures var w := Legacy.WebhookSpec(docs, env, "payment.succeeded", gatewayId, nowMs, Minted(link), Posted(messageId));
            FindFirst(w.docs, Legacy.ByUserId(docs[i].userId)) == FindFirst(docs, Legacy.ByUserId(docs[i].userId))
  {
    var w := Legacy.WebhookSpec(docs, env, "payment.succeeded", gatewayId, nowMs, Minted(link), Posted(messageId));
    var issued := Legacy.Issue(link, Telegram.ExpireDate(nowMs), Legacy.AuditUrl(env.paymentGroupId, messageId))(docs[i]);
    Legacy.WebhookIssues(docs, env, gatewayId, nowMs, link, messageId);
    assert w.docs == docs[i := issued];
    FindFirstAfterSet(docs, i, issued, Legacy.ByUserId(docs[i].userId));
  }
}
