/** src/index.js: the older, standalone variant of the bot with its own, smaller
    subscriber schema. Its webhook trusts the notification without asking the
    gateway, marks the subscriber joined as soon as the invite is made, and keeps the
    invite's expiry in seconds. */
module Legacy {
  import opened Wrappers
  import opened JsText
  import opened Collection
  import opened BotApi
  import Telegram

  const PENDING := "pending"
  const SUCCEEDED := "succeeded"

  /** The legacy price, fixed in the code. */
  const LEGACY_AMOUNT := 399

  /** A legacy subscriber record (names, username, phone number and payment date are
      not modelled). `chatId` is always written together with the record. */
  datatype LegacyUser = LegacyUser(
    userId: string,
    chatId: string,
    paymentStatus: string,
    paymentId: Option<string>,
    joinedChannel: bool,
    inviteLink: Option<string>,
    inviteLinkExpires: Option<int>,   // seconds since the epoch
    paymentDocument: Option<string>)

  function ByUserId(id: string): LegacyUser -> bool {
    (u: LegacyUser) => u.userId == id
  }

  function ByPaymentId(id: string): LegacyUser -> bool {
    (u: LegacyUser) => u.paymentId == Some(id)
  }

  function ByUserAndPayment(userId: string, paymentId: string): LegacyUser -> bool {
    (u: LegacyUser) => u.userId == userId && u.paymentId == Some(paymentId)
  }

  function PaidUser(id: string): LegacyUser -> bool {
    (u: LegacyUser) => u.userId == id && u.paymentStatus == SUCCEEDED
  }

  /** The webhook's write: paid, joined, the link and its expiry, the audit link. */
  function Issue(link: string, expires: int, document: string): LegacyUser -> LegacyUser {
    (u: LegacyUser) => u.(paymentStatus := SUCCEEDED, joinedChannel := true, inviteLink := Some(link),
                          inviteLinkExpires := Some(expires), paymentDocument := Some(document))
  }

  /** `buy`'s upsert: `{paymentId, paymentStatus: 'pending', chatId}`. */
  function StartPayment(paymentId: string, chatId: string): LegacyUser -> LegacyUser {
    (u: LegacyUser) => u.(paymentId := Some(paymentId), paymentStatus := PENDING, chatId := chatId)
  }

  /** `renew_link`'s write: the new link and its expiry only. */
  function Renew(link: string, expires: int): LegacyUser -> LegacyUser {
    (u: LegacyUser) => u.(inviteLink := Some(link), inviteLinkExpires := Some(expires))
  }

  /** `Math.floor(Date.now() / 1000)` */
  function NowSeconds(nowMs: nat): int {
    nowMs / 1000
  }

  /** The link is still valid: `user.inviteLinkExpires > now` (an absent expiry
      compares false). */
  predicate Unexpired(u: LegacyUser, nowMs: nat) {
    u.inviteLinkExpires.Some? && u.inviteLinkExpires.value > NowSeconds(nowMs)
  }

  /** `adminIds.includes(userId)` over the split, trimmed `ADMIN_CHAT_IDS`. */
  predicate IsAdmin(env: Env, userId: string) {
    userId in AdminList(env)
  }

  const MAIN_COMMANDS: seq<Command> := [BuyCommand, CheckPaymentCommand, RenewLinkCommand]
  const SUPPORT_COMMANDS: seq<Command> := [SupportCommand, RenewLinkCommand]

  /** `setMainMenu(userId)`: the three commands, and `admin` pushed for an admin. */
  method SetMainMenu(env: Env, userId: string) returns (fx: seq<Effect>)
    ensures fx == [CommandsSet(userId, MainMenu(IsAdmin(env, userId)))]
  {
    var commands := MAIN_COMMANDS;
    if IsAdmin(env, userId) {
      commands := commands + [AdminCommand];
    } else {
      assert commands == MAIN_COMMANDS + [];
    }
    fx := [CommandsSet(userId, commands)];
  }

  /** `setSupportMenu(userId)`: the two commands, and `admin` pushed for an admin. */
  method SetSupportMenu(env: Env, userId: string) returns (fx: seq<Effect>)
    ensures fx == [CommandsSet(userId, SupportMenu(IsAdmin(env, userId)))]
  {
    var commands := SUPPORT_COMMANDS;
    if IsAdmin(env, userId) {
      commands := commands + [AdminCommand];
    } else {
      assert commands == SUPPORT_COMMANDS + [];
    }
    fx := [CommandsSet(userId, commands)];
  }

  /** The main menu: buy, check payment and renew link, then `admin` exactly for an admin. */
  function MainMenu(isAdmin: bool): (commands: seq<Command>)
    ensures |commands| == 3 + (if isAdmin then 1 else 0)
    ensures commands[..3] == MAIN_COMMANDS
    ensures AdminCommand in commands <==> isAdmin
  {
    MAIN_COMMANDS + (if isAdmin then [AdminCommand] else [])
  }

  /** The support menu of paid subscribers: support and renew link, then `admin`
      exactly for an admin. */
  function SupportMenu(isAdmin: bool): (commands: seq<Command>)
    ensures |commands| == 2 + (if isAdmin then 1 else 0)
    ensures commands[..2] == SUPPORT_COMMANDS
    ensures AdminCommand in commands <==> isAdmin
  {
    SUPPORT_COMMANDS + (if isAdmin then [AdminCommand] else [])
  }

  /** The legacy audit link: `https://t.me/c/${PAYMENT_GROUP_ID.split('-100')[1]}/${message_id}`. */
  function AuditUrl(group: string, messageId: nat): string {
    "https://t.me/c/" + Render(SecondPiece(group, "-100")) + "/" + NatToString(messageId)
  }

  /** For a supergroup id `-100<digits>` both variants build the same audit link;
      for a group id without `-100` the legacy one reads `undefined` where the current
      one keeps the id. */
  lemma AuditUrlsAgreeOnSupergroups(digits: string, group: string, messageId: nat)
    requires forall k :: 0 <= k < |digits| ==> '0' <= digits[k] <= '9'
    requires IndexOf(group, "-100").None?
    ensures AuditUrl("-100" + digits, messageId) == Telegram.AuditUrl("-100" + digits, messageId)
    ensures AuditUrl(group, messageId) == "https://t.me/c/undefined/" + NatToString(messageId)
    ensures Telegram.AuditUrl(group, messageId) == "https://t.me/c/" + group + "/" + NatToString(messageId)
  {
    SupergroupPiece(digits);
    Telegram.AuditUrlOfSupergroup(digits, messageId);
  }

  /** `('-100' + digits).split('-100')[1]` is the digits. */
  lemma SupergroupPiece(digits: string)
    requires forall k :: 0 <= k < |digits| ==> '0' <= digits[k] <= '9'
    ensures SecondPiece("-100" + digits, "-100") == Some(digits)
  {
    var g := "-100" + digits;
    assert g[..4] == "-100";
    assert IndexOf(g, "-100") == Some(0);
    assert g[4..] == digits;
    forall k: nat ensures !OccursAt(digits, "-100", k) {
      if k + 4 <= |digits| {
        assert digits[k..k + 4][0] == digits[k];
      }
    }
    assert IndexOf(digits, "-100").None?;
  }

  /** `POST /webhook/yookassa` of the legacy variant, for an event and the payment
      object's id; it always answers 200. */
  function WebhookSpec(docs: seq<LegacyUser>, env: Env, event: string, paymentId: string, nowMs: nat,
                       invite: InviteReply, doc: DocReply): Step<LegacyUser>
  {
    if event != "payment.succeeded" then Step(docs, [])
    else
      match Lookup(docs, ByPaymentId(paymentId))
      case None => Step(docs, [])
      case Some(user) =>
        if user.joinedChannel then Step(docs, [])
        else
          var expireDate := Telegram.ExpireDate(nowMs);
          match invite
          case MintFailed => Step(docs, [Sent(user.chatId, LegacyInviteFailed)])
          case Minted(link) =>
            var created := [InviteCreated(env.channelId, 1, expireDate, link)];
            match doc
            case PostFailed => Step(docs, created + [Sent(user.chatId, LegacyInviteFailed)])
            case Posted(messageId) =>
              Step(UpdateFirst(docs, ByUserAndPayment(user.userId, paymentId),
                               Issue(link, expireDate, AuditUrl(env.paymentGroupId, messageId))),
                   IssueEffects(env, user, paymentId, nowMs, link, messageId))
  }

  /** What a successful legacy issuance sends, in order: the invite, the audit
      document, the user's message, the admins' notices and the support menu. */
  function IssueEffects(env: Env, user: LegacyUser, paymentId: string, nowMs: nat, link: string,
                        messageId: nat): seq<Effect>
  {
    [InviteCreated(env.channelId, 1, Telegram.ExpireDate(nowMs), link)]
    + [DocumentSent(env.paymentGroupId, paymentId, messageId), Sent(user.chatId, LegacyPaid(link))]
    + Notices(AdminList(env), LegacyAdminPaid(user.userId, paymentId))
    + [CommandsSet(user.userId, SupportMenu(IsAdmin(env, user.userId)))]
  }

  method HandleWebhook(db: Collection<LegacyUser>, env: Env, event: string, paymentId: string, nowMs: nat,
                       invite: InviteReply, doc: DocReply) returns (status: int, fx: seq<Effect>)
    modifies db
    ensures status == 200
    ensures Step(db.docs, fx) == WebhookSpec(old(db.docs), env, event, paymentId, nowMs, invite, doc)
  {
    status, fx := 200, [];
    if event != "payment.succeeded" {
      return;
    }
    var user := db.FindOne(ByPaymentId(paymentId));
    if user.None? || user.value.joinedChannel {
      return;
    }
    var u := user.value;
    var expireDate := Telegram.ExpireDate(nowMs);
    if invite.MintFailed? {
      fx := [Sent(u.chatId, LegacyInviteFailed)];
      return;
    }
    fx := [InviteCreated(env.channelId, 1, expireDate, invite.link)];
    if doc.PostFailed? {
      fx := fx + [Sent(u.chatId, LegacyInviteFailed)];
      return;
    }
    db.UpdateOne(ByUserAndPayment(u.userId, paymentId), Issue(invite.link, expireDate, AuditUrl(env.paymentGroupId, doc.messageId)));
    fx := fx + [DocumentSent(env.paymentGroupId, paymentId, doc.messageId), Sent(u.chatId, LegacyPaid(invite.link))];
    var notices := NotifyAdmins(AdminList(env), LegacyAdminPaid(u.userId, paymentId));
    fx := fx + notices;
    var menu := SetSupportMenu(env, u.userId);
    fx := fx + menu;
  }

  /** Events for unknown payment ids, other events and subscribers already joined
      change nothing. */
  lemma WebhookIgnoresUnknown(docs: seq<LegacyUser>, env: Env, event: string, paymentId: string, nowMs: nat,
                              invite: InviteReply, doc: DocReply)
    requires event != "payment.succeeded" || FindFirst(docs, ByPaymentId(paymentId)).None?
             || docs[FindFirst(docs, ByPaymentId(paymentId)).value].joinedChannel
    ensures WebhookSpec(docs, env, event, paymentId, nowMs, invite, doc) == Step(docs, [])
  {
  }

  /** A successful legacy issuance makes one invite and marks the record paid and
      joined at once, with the expiry 24 hours ahead in seconds; so the same
      notification again does nothing. */
  lemma WebhookRedeliverySkipped(docs: seq<LegacyUser>, env: Env, paymentId: string, nowMs: nat, link: string,
                                 messageId: nat, invite2: InviteReply, doc2: DocReply)
    requires FindFirst(docs, ByPaymentId(paymentId)).Some?
    requires !docs[FindFirst(docs, ByPaymentId(paymentId)).value].joinedChannel
    ensures var s := WebhookSpec(docs, env, "payment.succeeded", paymentId, nowMs, Minted(link), Posted(messageId));
            var i := FindFirst(docs, ByPaymentId(paymentId)).value;
            && s.docs[i].paymentStatus == SUCCEEDED && s.docs[i].joinedChannel
            && s.docs[i].inviteLink == Some(link)
            && s.docs[i].inviteLinkExpires == Some(NowSeconds(nowMs) + 86400)
            && CountInvites(s.fx) == 1
            && WebhookSpec(s.docs, env, "payment.succeeded", paymentId, nowMs, invite2, doc2) == Step(s.docs, [])
  {
    var i := FindFirst(docs, ByPaymentId(paymentId)).value;
    var user := docs[i];
    var f := Issue(link, Telegram.ExpireDate(nowMs), AuditUrl(env.paymentGroupId, messageId));
    var issued := f(user);
    assert Telegram.ExpireDate(nowMs) == NowSeconds(nowMs) + 86400;
    var written := docs[i := issued];
    WebhookIssues(docs, env, paymentId, nowMs, link, messageId);
    IssueEffectsCountOne(env, user, paymentId, nowMs, link, messageId);
    FindFirstAfterSet(docs, i, issued, ByPaymentId(paymentId));
    WebhookIgnoresUnknown(written, env, "payment.succeeded", paymentId, nowMs, invite2, doc2);
    assert WebhookSpec(docs, env, "payment.succeeded", paymentId, nowMs, Minted(link), Posted(messageId))
             == Step(written, IssueEffects(env, user, paymentId, nowMs, link, messageId));
  }

  /** The successful legacy issuance: the record found by payment id is written and
      the invite, the audit document, the user's message, the admins' notices and the
      support menu follow in that order. */
  lemma WebhookIssues(docs: seq<LegacyUser>, env: Env, paymentId: string, nowMs: nat, link: string, messageId: nat)
    requires FindFirst(docs, ByPaymentId(paymentId)).Some?
    requires !docs[FindFirst(docs, ByPaymentId(paymentId)).value].joinedChannel
    ensures var i := FindFirst(docs, ByPaymentId(paymentId)).value;
            var user := docs[i];
            WebhookSpec(docs, env, "payment.succeeded", paymentId, nowMs, Minted(link), Posted(messageId))
              == Step(docs[i := Issue(link, Telegram.ExpireDate(nowMs), AuditUrl(env.paymentGroupId, messageId))(user)],
                      IssueEffects(env, user, paymentId, nowMs, link, messageId))
  {
    var i := FindFirst(docs, ByPaymentId(paymentId)).value;
    var user := docs[i];
    WebhookPosted(docs, env, paymentId, nowMs, link, messageId, user);
    FindFirstNarrowed(docs, ByPaymentId(paymentId), ByUserAndPayment(user.userId, paymentId), i);
  }

  lemma WebhookPosted(docs: seq<LegacyUser>, env: Env, paymentId: string, nowMs: nat, link: string, messageId: nat,
                      user: LegacyUser)
    requires Lookup(docs, ByPaymentId(paymentId)) == Some(user) && !user.joinedChannel
    ensures WebhookSpec(docs, env, "payment.succeeded", paymentId, nowMs, Minted(link), Posted(messageId))
              == Step(UpdateFirst(docs, ByUserAndPayment(user.userId, paymentId),
                                  Issue(link, Telegram.ExpireDate(nowMs), AuditUrl(env.paymentGroupId, messageId))),
                      IssueEffects(env, user, paymentId, nowMs, link, messageId))
  {
  }

  lemma IssueEffectsCountOne(env: Env, user: LegacyUser, paymentId: string, nowMs: nat, link: string, messageId: nat)
    ensures CountInvites(IssueEffects(env, user, paymentId, nowMs, link, messageId)) == 1
  {
    var created := [InviteCreated(env.channelId, 1, Telegram.ExpireDate(nowMs), link)];
    var sends := [DocumentSent(env.paymentGroupId, paymentId, messageId), Sent(user.chatId, LegacyPaid(link))];
    var notices := Notices(AdminList(env), LegacyAdminPaid(user.userId, paymentId));
    var menu := [CommandsSet(user.userId, SupportMenu(IsAdmin(env, user.userId)))];
    Telegram.CountInvitesPrefix(created[0], []);
    assert created + [] == created;
    CountInvitesPair(sends[0], sends[1]);
    MessagesCreateNoInvite(AdminList(env), user.chatId, [], LegacyAdminPaid(user.userId, paymentId));
    CountInvitesNone(menu);
    CountInvitesAppend(created, sends);
    CountInvitesAppend(created + sends, notices);
    CountInvitesAppend(created + sends + notices, menu);
  }

  /** The legacy `buy` action, with the generated uuid and the gateway's answer. */
  function BuySpec(docs: seq<LegacyUser>, env: Env, userId: string, chatId: string, nowMs: nat,
                   uuid: string, create: CreateReply): Step<LegacyUser>
  {
    var found := Lookup(docs, ByUserId(userId));
    if found.Some? && found.value.paymentStatus == SUCCEEDED && Truthy(found.value.inviteLink) then
      var user := found.value;
      Step(docs, [CommandsSet(userId, SupportMenu(IsAdmin(env, userId))),
                  Replied(if Unexpired(user, nowMs) then LegacyAlreadyPaid(user.inviteLink.value) else LinkExpired)])
    else
      var request := PaymentRequested(LEGACY_AMOUNT, uuid, env.returnUrl);
      match create
      case CreateFailed => Step(docs, [request, Replied(LegacyPaymentFailed)])
      case Created(_, url) =>
        Step(Upsert(docs, ByUserId(userId), StartPayment(uuid, chatId),
                    LegacyUser(userId, chatId, PENDING, Some(uuid), false, None, None, None)),
             [request, Replied(LegacyPayHere(url))])
  }

  method Buy(db: Collection<LegacyUser>, env: Env, userId: string, chatId: string, nowMs: nat,
             uuid: string, create: CreateReply) returns (fx: seq<Effect>)
    modifies db
    ensures Step(db.docs, fx) == BuySpec(old(db.docs), env, userId, chatId, nowMs, uuid, create)
  {
    var user := db.FindOne(ByUserId(userId));
    if user.Some? && user.value.paymentStatus == SUCCEEDED && Truthy(user.value.inviteLink) {
      fx := SetSupportMenu(env, userId);
      if Unexpired(user.value, nowMs) {
        fx := fx + [Replied(LegacyAlreadyPaid(user.value.inviteLink.value))];
      } else {
        fx := fx + [Replied(LinkExpired)];
      }
      return;
    }
    fx := [PaymentRequested(LEGACY_AMOUNT, uuid, env.returnUrl)];
    if create.CreateFailed? {
      fx := fx + [Replied(LegacyPaymentFailed)];
      return;
    }
    db.UpsertOne(ByUserId(userId), StartPayment(uuid, chatId), LegacyUser(userId, chatId, PENDING, Some(uuid), false, None, None, None));
    fx := fx + [Replied(LegacyPayHere(create.confirmationUrl))];
  }

  /** The legacy `/check_payment` command: it reads the record only. */
  method CheckPayment(db: Collection<LegacyUser>, userId: string, nowMs: nat) returns (reply: Msg)
    ensures reply == CheckPaymentReply(db.docs, userId, nowMs)
  {
    var user := db.FindOne(ByUserId(userId));
    if user.None? {
      return NotStarted;
    }
    if user.value.paymentStatus == SUCCEEDED && Truthy(user.value.inviteLink) {
      if Unexpired(user.value, nowMs) {
        return LegacyLink(user.value.inviteLink.value);
      }
      return LinkExpired;
    }
    return NotCompleted;
  }

  /** What `/check_payment` answers for the documents and the clock. */
  function CheckPaymentReply(docs: seq<LegacyUser>, userId: string, nowMs: nat): Msg
  {
    match Lookup(docs, ByUserId(userId))
    case None => NotStarted
    case Some(user) =>
      if user.paymentStatus == SUCCEEDED && Truthy(user.inviteLink) then
        if Unexpired(user, nowMs) then LegacyLink(user.inviteLink.value) else LinkExpired
      else NotCompleted
  }

  /** For a paid subscriber with a link, `buy` and `/check_payment` agree: both hand out
      the stored link exactly while it is unexpired (in seconds), and otherwise point
      to `/renew_link`; `buy` then requests no payment and writes nothing. */
  lemma PaidUserSeesLinkUntilExpiry(docs: seq<LegacyUser>, env: Env, userId: string, chatId: string, nowMs: nat,
                                    uuid: string, create: CreateReply, i: nat)
    requires FindFirst(docs, ByUserId(userId)) == Some(i)
    requires docs[i].paymentStatus == SUCCEEDED && Truthy(docs[i].inviteLink)
    ensures var b := BuySpec(docs, env, userId, chatId, nowMs, uuid, create);
            var c := CheckPaymentReply(docs, userId, nowMs);
            && b.docs == docs && |b.fx| == 2 && !b.fx[1].PaymentRequested?
            && (docs[i].inviteLinkExpires.Some? && docs[i].inviteLinkExpires.value > nowMs / 1000 <==> c.LegacyLink?)
            && (c.LegacyLink? ==> c.link == docs[i].inviteLink.value && b.fx[1] == Replied(LegacyAlreadyPaid(c.link)))
            && (!c.LegacyLink? ==> c == LinkExpired && b.fx[1] == Replied(LinkExpired))
  {
  }

  /** `buy` goes on to create a payment: the user has no paid record with a link. */
  predicate BuyStarts(docs: seq<LegacyUser>, userId: string) {
    var found := Lookup(docs, ByUserId(userId));
    !(found.Some? && found.value.paymentStatus == SUCCEEDED && Truthy(found.value.inviteLink))
  }

  /** A created legacy payment stores the generated uuid as `paymentId`, not the
      gateway's id: the record of the user carries `uuid`, and no record carries the
      gateway id unless one already did. */
  lemma BuyStoresLocalId(docs: seq<LegacyUser>, env: Env, userId: string, chatId: string, nowMs: nat,
                         uuid: string, gatewayId: string, url: string)
    requires BuyStarts(docs, userId)
    requires gatewayId != uuid
    ensures var b := BuySpec(docs, env, userId, chatId, nowMs, uuid, Created(gatewayId, url));
            && Lookup(b.docs, ByUserId(userId)).Some?
            && Lookup(b.docs, ByUserId(userId)).value.paymentId == Some(uuid)
            && Lookup(b.docs, ByUserId(userId)).value.paymentStatus == PENDING
            && b.fx[0] == PaymentRequested(LEGACY_AMOUNT, uuid, env.returnUrl)
            && (FindFirst(docs, ByPaymentId(gatewayId)).None? ==> FindFirst(b.docs, ByPaymentId(gatewayId)).None?)
  {
    var created := LegacyUser(userId, chatId, PENDING, Some(uuid), false, None, None, None);
    match FindFirst(docs, ByUserId(userId))
    case None =>
      FindFirstAfterAppend(docs, created, ByUserId(userId));
      FindFirstAfterAppend(docs, created, ByPaymentId(gatewayId));
    case Some(i) =>
      var b := BuySpec(docs, env, userId, chatId, nowMs, uuid, Created(gatewayId, url));
      assert b.docs == docs[i := StartPayment(uuid, chatId)(docs[i])];
      FindFirstAfterSet(docs, i, b.docs[i], ByUserId(userId));
  }

  /** The legacy `/renew_link` command, with the clock and Telegram's answer. */
  function RenewLinkSpec(docs: seq<LegacyUser>, env: Env, userId: string, nowMs: nat, invite: InviteReply): Step<LegacyUser>
  {
    match Lookup(docs, PaidUser(userId))
    case None => Step(docs, [Replied(NotPaid)])
    case Some(user) =>
      if Truthy(user.inviteLink) && Unexpired(user, nowMs) then Step(docs, [Replied(StillValid(user.inviteLink.value))])
      else
        match invite
        case MintFailed => Step(docs, [Replied(RenewFailed)])
        case Minted(link) =>
          var expireDate := Telegram.ExpireDate(nowMs);
          Step(UpdateFirst(docs, ByUserId(userId), Renew(link, expireDate)),
               [InviteCreated(env.channelId, 1, expireDate, link), Replied(NewLink(link))])
  }

  method RenewLink(db: Collection<LegacyUser>, env: Env, userId: string, nowMs: nat, invite: InviteReply)
    returns (fx: seq<Effect>)
    modifies db
    ensures Step(db.docs, fx) == RenewLinkSpec(old(db.docs), env, userId, nowMs, invite)
  {
    var user := db.FindOne(PaidUser(userId));
    if user.None? {
      return [Replied(NotPaid)];
    }
    if Truthy(user.value.inviteLink) && Unexpired(user.value, nowMs) {
      return [Replied(StillValid(user.value.inviteLink.value))];
    }
    if invite.MintFailed? {
      return [Replied(RenewFailed)];
    }
    var expireDate := Telegram.ExpireDate(nowMs);
    db.UpdateOne(ByUserId(userId), Renew(invite.link, expireDate));
    fx := [InviteCreated(env.channelId, 1, expireDate, invite.link), Replied(NewLink(invite.link))];
  }

  /** `/renew_link` serves paid subscribers only; it returns an unexpired link as it
      is; otherwise it makes one new 24-hour invite and rewrites only the link and its
      expiry of the subscriber's (single) record. */
  lemma RenewLinkReissuesOnlyWhenExpired(docs: seq<LegacyUser>, env: Env, userId: string, nowMs: nat,
                                         invite: InviteReply, i: nat)
    requires UniqueLegacyUserIds(docs)
    requires i < |docs| && docs[i].userId == userId
    ensures var r := RenewLinkSpec(docs, env, userId, nowMs, invite);
            && (docs[i].paymentStatus != SUCCEEDED ==> r == Step(docs, [Replied(NotPaid)]))
            && (docs[i].paymentStatus == SUCCEEDED && Truthy(docs[i].inviteLink) && Unexpired(docs[i], nowMs) ==>
                  r == Step(docs, [Replied(StillValid(docs[i].inviteLink.value))]))
            && (docs[i].paymentStatus == SUCCEEDED && !(Truthy(docs[i].inviteLink) && Unexpired(docs[i], nowMs)) ==>
                  && (invite.Minted? ==>
                        && r.docs == docs[i := docs[i].(inviteLink := Some(invite.link),
                                                        inviteLinkExpires := Some(NowSeconds(nowMs) + 86400))]
                        && r.fx == [InviteCreated(env.channelId, 1, NowSeconds(nowMs) + 86400, invite.link),
                                    Replied(NewLink(invite.link))]
                        && CountInvites(r.fx) == 1)
                  && (invite.MintFailed? ==> r == Step(docs, [Replied(RenewFailed)])))
            && (r.docs != docs ==>
                  && invite.Minted?
                  && r.docs == docs[i := docs[i].(inviteLink := Some(invite.link),
                                                  inviteLinkExpires := Some(NowSeconds(nowMs) + 86400))]
                  && CountInvites(r.fx) == 1)
  {
    forall k | 0 <= k < i ensures !ByUserId(userId)(docs[k]) && !PaidUser(userId)(docs[k]) {
      assert docs[k].userId != docs[i].userId;
    }
    forall k | i < k < |docs| ensures !PaidUser(userId)(docs[k]) {
      assert docs[k].userId != docs[i].userId;
    }
    assert FindFirst(docs, ByUserId(userId)) == Some(i);
    assert Telegram.ExpireDate(nowMs) == NowSeconds(nowMs) + 86400;
    if docs[i].paymentStatus == SUCCEEDED {
      assert FindFirst(docs, PaidUser(userId)) == Some(i);
    }
    if invite.Minted? {
      CountInvitesPair(InviteCreated(env.channelId, 1, Telegram.ExpireDate(nowMs), invite.link), Replied(NewLink(invite.link)));
    }
  }

  /** No two legacy records belong to the same user. */
  predicate UniqueLegacyUserIds(docs: seq<LegacyUser>) {
    forall i, j :: 0 <= i < j < |docs| ==> docs[i].userId != docs[j].userId
  }
}
