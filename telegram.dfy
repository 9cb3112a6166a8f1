/** services/telegram.js: `sendInviteLink`, the issuance workflow (settlement check,
    one single-use invite, the audit document in the payment group, the write on
    the subscriber record, the messages to the user and to every admin), and the
    `chat_member` handler that marks an invite consumed and revokes it. */
module Telegram {
  import opened Wrappers
  import opened JsText
  import opened Collection
  import opened UserModel
  import opened BotApi

  const DAY_SECONDS := 24 * 60 * 60

  /** `Math.floor(Date.now() / 1000) + 24 * 60 * 60`: the invite's `expires_date`, in seconds. */
  function ExpireDate(nowMs: nat): int
  {
    nowMs / 1000 + DAY_SECONDS
  }

  /** `expiresDate * 1000`, the value stored in `inviteLinkExpires`: milliseconds. */
  function StoredExpiry(nowMs: nat): int
  {
    ExpireDate(nowMs) * 1000
  }

  /** The stored expiry is a whole second, 24 hours after the current second began:
      at most 999 ms short of exactly 24 hours after now. */
  lemma StoredExpiryWithinDay(nowMs: nat)
    ensures nowMs + 86_400_000 - 999 <= StoredExpiry(nowMs) <= nowMs + 86_400_000
    ensures StoredExpiry(nowMs) % 1000 == 0
  {
    var q := nowMs / 1000;
    assert nowMs == q * 1000 + nowMs % 1000;
    assert StoredExpiry(nowMs) == q * 1000 + 86_400_000;
  }

  /** The link to the audit document:
      `https://t.me/c/${PAYMENT_GROUP_ID.replace('-100', '')}/${message_id}`. */
  function AuditUrl(group: string, messageId: nat): string
  {
    "https://t.me/c/" + ReplaceFirst(group, "-100", "") + "/" + NatToString(messageId)
  }

  /** For a supergroup id `-100<digits>` the link carries the bare digits. */
  lemma AuditUrlOfSupergroup(digits: string, messageId: nat)
    ensures AuditUrl("-100" + digits, messageId) == "https://t.me/c/" + digits + "/" + NatToString(messageId)
  {
    var g := "-100" + digits;
    assert g[..4] == "-100";
    assert IndexOf(g, "-100") == Some(0);
    assert g[4..] == digits;
  }

  /** The state `sendInviteLink` leaves: the documents, the effects, and whether it
      let an exception escape (its catch block sends to `user.chatId` too, so a
      missing chat id throws out of it). */
  datatype Outcome = Outcome(docs: seq<User>, fx: seq<Effect>, threw: bool)

  /** The rest of the try block from the first message to the user: the user's
      messages, then the admins'. A missing chat id makes the first send throw, and
      the catch block's first send throws again. */
  function Deliver(docs: seq<User>, before: seq<Effect>, chat: Option<string>, ms: seq<Msg>, admins: seq<Effect>): Outcome
  {
    if chat.None? then Outcome(docs, before, true)
    else Outcome(docs, before + ToChat(chat.value, ms) + admins, false)
  }

  /** The catch block: the user is told to contact support and every admin gets the error. */
  function Failure(docs: seq<User>, before: seq<Effect>, env: Env, user: User, paymentId: string): Outcome
  {
    Deliver(docs, before, user.chatId, [InviteFailed], Notices(AdminSet(env), AdminInviteFailed(user.userId, paymentId)))
  }

  /** The invite link has already been consumed by this user: `sendInviteLink`'s first branch. */
  predicate AlreadyConsumed(user: User) {
    HasLink(user) && user.joinedChannel && user.inviteLinkUsed
  }

  /** `sendInviteLink(user, ctx, paymentId)`, where `user` is the document the caller
      read earlier and `now` is `Date.now()`. */
  function SendInviteLinkSpec(docs: seq<User>, env: Env, user: User, paymentId: string, gateway: Gateway,
                              nowMs: nat, invite: InviteReply, doc: DocReply): Outcome
  {
    if AlreadyConsumed(user) then
      Deliver(docs, [], user.chatId, [PaidWelcome, AlreadyJoined], [])
    else if gateway(paymentId) != Status(SUCCEEDED) then
      Failure(docs, [], env, user, paymentId)
    else
      match invite
      case MintFailed => Failure(docs, [], env, user, paymentId)
      case Minted(link) =>
        var created := [InviteCreated(env.channelId, 1, ExpireDate(nowMs), link)];
        match doc
        case PostFailed => Failure(docs, created, env, user, paymentId)
        case Posted(messageId) =>
          var written := UpdateFirst(docs, ByUserAndPayment(user.userId, paymentId),
                                     Issue(link, StoredExpiry(nowMs), AuditUrl(env.paymentGroupId, messageId)));
          Deliver(written, created + [DocumentSent(env.paymentGroupId, paymentId, messageId)], user.chatId,
                  [PaidWelcome, YourInviteLink(link)], Notices(AdminSet(env), AdminPaid(user.userId, paymentId, link)))
  }

  /** The issuance workflow, step by step. */
  method SendInviteLink(db: Collection<User>, env: Env, user: User, paymentId: string, gateway: Gateway,
                        nowMs: nat, invite: InviteReply, doc: DocReply) returns (fx: seq<Effect>, threw: bool)
    modifies db
    ensures Outcome(db.docs, fx, threw) == SendInviteLinkSpec(old(db.docs), env, user, paymentId, gateway, nowMs, invite, doc)
  {
    if AlreadyConsumed(user) {
      if user.chatId.None? {
        fx, threw := CatchFailure(db.docs, [], env, user, paymentId);
        assert Outcome(db.docs, fx, threw) == Deliver(db.docs, [], user.chatId, [PaidWelcome, AlreadyJoined], []);
      } else {
        fx, threw := ToChat(user.chatId.value, [PaidWelcome, AlreadyJoined]), false;
        assert fx == [] + fx + [];
      }
      return;
    }
    var payment := gateway(paymentId);
    if payment != Status(SUCCEEDED) || invite.MintFailed? {
      fx, threw := CatchFailure(db.docs, [], env, user, paymentId);
      return;
    }
    var link := invite.link;
    var created := [InviteCreated(env.channelId, 1, ExpireDate(nowMs), link)];
    if doc.PostFailed? {
      fx, threw := CatchFailure(db.docs, created, env, user, paymentId);
      return;
    }
    fx := created + [DocumentSent(env.paymentGroupId, paymentId, doc.messageId)];
    var paymentDocument := AuditUrl(env.paymentGroupId, doc.messageId);
    db.UpdateOne(ByUserAndPayment(user.userId, paymentId), Issue(link, StoredExpiry(nowMs), paymentDocument));
    if user.chatId.None? {
      fx, threw := CatchFailure(db.docs, fx, env, user, paymentId);
    } else {
      fx := fx + ToChat(user.chatId.value, [PaidWelcome, YourInviteLink(link)]);
      var notices := NotifyAdmins(AdminSet(env), AdminPaid(user.userId, paymentId, link));
      fx, threw := fx + notices, false;
    }
  }

  /** The catch block of `sendInviteLink`, run after the effects `before`. */
  method CatchFailure(ghost docs: seq<User>, before: seq<Effect>, env: Env, user: User, paymentId: string)
    returns (fx: seq<Effect>, threw: bool)
    ensures Outcome(docs, fx, threw) == Failure(docs, before, env, user, paymentId)
  {
    if user.chatId.None? {
      fx, threw := before, true;
    } else {
      var notices := NotifyAdmins(AdminSet(env), AdminInviteFailed(user.userId, paymentId));
      fx, threw := before + ToChat(user.chatId.value, [InviteFailed]) + notices, false;
    }
  }

  /** The documents `sendInviteLink` leaves: the `{userId, paymentId}` update runs only
      when the payment is settled and both the invite and the audit document were made. */
  lemma SendInviteLinkWrites(docs: seq<User>, env: Env, user: User, paymentId: string, gateway: Gateway,
                             nowMs: nat, invite: InviteReply, doc: DocReply)
    ensures SendInviteLinkSpec(docs, env, user, paymentId, gateway, nowMs, invite, doc).docs ==
              if !AlreadyConsumed(user) && gateway(paymentId) == Status(SUCCEEDED) && invite.Minted? && doc.Posted?
              then UpdateFirst(docs, ByUserAndPayment(user.userId, paymentId),
                               Issue(invite.link, StoredExpiry(nowMs), AuditUrl(env.paymentGroupId, doc.messageId)))
              else docs
  {
  }

  /** With a chat id on the document `sendInviteLink` never lets an exception escape;
      without one it always does. */
  lemma ThrowsIffNoChat(docs: seq<User>, env: Env, user: User, paymentId: string, gateway: Gateway,
                        nowMs: nat, invite: InviteReply, doc: DocReply)
    ensures SendInviteLinkSpec(docs, env, user, paymentId, gateway, nowMs, invite, doc).threw <==> user.chatId.None?
  {
  }

  /** An invite that was consumed is not reissued: the gateway is not consulted (the
      outcome is the same whatever it answers), no invite is created, no document is
      written, and the user is told to contact support. */
  lemma ConsumedInviteNotReissued(docs: seq<User>, env: Env, user: User, paymentId: string, gateway: Gateway,
                                  nowMs: nat, invite: InviteReply, doc: DocReply,
                                  gateway2: Gateway, invite2: InviteReply, doc2: DocReply)
    requires AlreadyConsumed(user)
    ensures var o := SendInviteLinkSpec(docs, env, user, paymentId, gateway, nowMs, invite, doc);
            && o == SendInviteLinkSpec(docs, env, user, paymentId, gateway2, nowMs, invite2, doc2)
            && o.docs == docs
            && CountInvites(o.fx) == 0
            && (user.chatId.Some? ==> o.fx == [Sent(user.chatId.value, PaidWelcome), Sent(user.chatId.value, AlreadyJoined)])
  {
    var o := SendInviteLinkSpec(docs, env, user, paymentId, gateway, nowMs, invite, doc);
    if user.chatId.Some? {
      assert o.fx == ToChat(user.chatId.value, [PaidWelcome, AlreadyJoined]);
      MessagesCreateNoInvite([], user.chatId.value, [PaidWelcome, AlreadyJoined], PaidWelcome);
    }
  }

  /** Settlement gating: unless the gateway reports the payment `succeeded`, no invite
      is created and no document written, and the user and every admin are told of
      the failure. */
  lemma NoIssueUnlessSettled(docs: seq<User>, env: Env, user: User, paymentId: string, gateway: Gateway,
                             nowMs: nat, invite: InviteReply, doc: DocReply)
    requires !AlreadyConsumed(user)
    requires gateway(paymentId) != Status(SUCCEEDED)
    ensures var o := SendInviteLinkSpec(docs, env, user, paymentId, gateway, nowMs, invite, doc);
            && o.docs == docs
            && CountInvites(o.fx) == 0
            && (user.chatId.Some? ==>
                  o.fx == [Sent(user.chatId.value, InviteFailed)] + Notices(AdminSet(env), AdminInviteFailed(user.userId, paymentId)))
  {
    var o := SendInviteLinkSpec(docs, env, user, paymentId, gateway, nowMs, invite, doc);
    if user.chatId.Some? {
      var notes := Notices(AdminSet(env), AdminInviteFailed(user.userId, paymentId));
      assert o.fx == [] + ToChat(user.chatId.value, [InviteFailed]) + notes;
      MessagesCreateNoInvite(AdminSet(env), user.chatId.value, [InviteFailed], AdminInviteFailed(user.userId, paymentId));
      CountInvitesAppend(ToChat(user.chatId.value, [InviteFailed]), notes);
      assert [] + ToChat(user.chatId.value, [InviteFailed]) + notes == ToChat(user.chatId.value, [InviteFailed]) + notes;
    }
  }

  /** Once settled, one call creates exactly one invite, with member limit 1 and the
      24 h expire date, and it is the first effect. The record is written only when
      the audit document was sent too; if that send fails the invite exists but the
      record is untouched. */
  lemma OneInvitePerSettledCall(docs: seq<User>, env: Env, user: User, paymentId: string, gateway: Gateway,
                                nowMs: nat, link: string, doc: DocReply)
    requires !AlreadyConsumed(user)
    requires gateway(paymentId) == Status(SUCCEEDED)
    ensures var o := SendInviteLinkSpec(docs, env, user, paymentId, gateway, nowMs, Minted(link), doc);
            && CountInvites(o.fx) == 1
            && o.fx[0] == InviteCreated(env.channelId, 1, ExpireDate(nowMs), link)
            && (doc.PostFailed? ==> o.docs == docs)
  {
    var invite := InviteCreated(env.channelId, 1, ExpireDate(nowMs), link);
    var o := SendInviteLinkSpec(docs, env, user, paymentId, gateway, nowMs, Minted(link), doc);
    var rest := if doc.PostFailed? then [] else [DocumentSent(env.paymentGroupId, paymentId, doc.messageId)];
    SettledSpec(docs, env, user, paymentId, gateway, nowMs, link, doc);
    CountInvitesPrefix(invite, rest);
    assert o.fx[..|[invite] + rest|] == [invite] + rest;
  }

  /** A settled payment with a minted link: the outcome is the delivery after the
      invite (and, when it was posted, the audit document). */
  lemma SettledSpec(docs: seq<User>, env: Env, user: User, paymentId: string, gateway: Gateway,
                    nowMs: nat, link: string, doc: DocReply)
    requires !AlreadyConsumed(user)
    requires gateway(paymentId) == Status(SUCCEEDED)
    ensures var o := SendInviteLinkSpec(docs, env, user, paymentId, gateway, nowMs, Minted(link), doc);
            var before := [InviteCreated(env.channelId, 1, ExpireDate(nowMs), link)]
                          + (if doc.PostFailed? then [] else [DocumentSent(env.paymentGroupId, paymentId, doc.messageId)]);
            && |before| <= |o.fx| && o.fx[..|before|] == before
            && CountInvites(o.fx) == CountInvites(before)
            && (doc.PostFailed? ==> o.docs == docs)
  {
    var created := [InviteCreated(env.channelId, 1, ExpireDate(nowMs), link)];
    match doc
    case PostFailed =>
      assert created + [] == created;
      DeliverAppendsMessages(docs, created, user.chatId, [InviteFailed], AdminSet(env), AdminInviteFailed(user.userId, paymentId));
    case Posted(messageId) =>
      var written := UpdateFirst(docs, ByUserAndPayment(user.userId, paymentId),
                                 Issue(link, StoredExpiry(nowMs), AuditUrl(env.paymentGroupId, messageId)));
      DeliverAppendsMessages(written, created + [DocumentSent(env.paymentGroupId, paymentId, messageId)], user.chatId,
                             [PaidWelcome, YourInviteLink(link)], AdminSet(env), AdminPaid(user.userId, paymentId, link));
  }

  /** What `Deliver` adds after `before` are messages: the log starts with `before`,
      counts the same invites, and the documents are left alone. */
  lemma DeliverAppendsMessages(docs: seq<User>, before: seq<Effect>, chat: Option<string>, ms: seq<Msg>,
                               admins: seq<string>, m: Msg)
    ensures var o := Deliver(docs, before, chat, ms, Notices(admins, m));
            && o.docs == docs
            && |before| <= |o.fx| && o.fx[..|before|] == before
            && CountInvites(o.fx) == CountInvites(before)
  {
    if chat.Some? {
      var toUser := ToChat(chat.value, ms);
      var notes := Notices(admins, m);
      MessagesCreateNoInvite(admins, chat.value, ms, m);
      CountInvitesAppend(before, toUser);
      CountInvitesAppend(before + toUser, notes);
      assert (before + toUser + notes)[..|before|] == before;
    }
  }

  /** A log made of one invite and then effects that are no invite creations counts one. */
  lemma CountInvitesPrefix(invite: Effect, rest: seq<Effect>)
    requires invite.InviteCreated?
    requires forall k :: 0 <= k < |rest| ==> !rest[k].InviteCreated?
    ensures CountInvites([invite] + rest) == 1
  {
    CountInvitesNone(rest);
    assert ([invite] + rest)[1..] == rest;
  }

  /** The only write: on the first document matching `{userId, paymentId}` it sets
      `paymentStatus` 'succeeded', the new link, the expiry in milliseconds,
      `inviteLinkUsed` false and the audit link; no other document changes, and
      without a matching document nothing is written at all. */
  lemma IssueWritesOnlyTheMatchingRecord(docs: seq<User>, env: Env, user: User, paymentId: string, gateway: Gateway,
                                         nowMs: nat, invite: InviteReply, doc: DocReply)
    ensures var o := SendInviteLinkSpec(docs, env, user, paymentId, gateway, nowMs, invite, doc);
            && |o.docs| == |docs|
            && (o.docs != docs ==> invite.Minted? && doc.Posted? && gateway(paymentId) == Status(SUCCEEDED))
            && (FindFirst(docs, ByUserAndPayment(user.userId, paymentId)).None? ==> o.docs == docs)
            && forall k :: 0 <= k < |docs| && o.docs[k] != docs[k] ==>
                 && FindFirst(docs, ByUserAndPayment(user.userId, paymentId)) == Some(k)
                 && IssuedWith(o.docs[k], invite.link, StoredExpiry(nowMs), AuditUrl(env.paymentGroupId, doc.messageId))
                 && o.docs[k] == Issue(invite.link, StoredExpiry(nowMs), AuditUrl(env.paymentGroupId, doc.messageId))(docs[k])
  {
    SendInviteLinkWrites(docs, env, user, paymentId, gateway, nowMs, invite, doc);
    if !AlreadyConsumed(user) && gateway(paymentId) == Status(SUCCEEDED) && invite.Minted? && doc.Posted? {
      var f := Issue(invite.link, StoredExpiry(nowMs), AuditUrl(env.paymentGroupId, doc.messageId));
      match FindFirst(docs, ByUserAndPayment(user.userId, paymentId))
      case None =>
      case Some(i) =>
        UpdatesKeepKeys(docs[i], invite.link, StoredExpiry(nowMs), AuditUrl(env.paymentGroupId, doc.messageId));
    }
  }

  /** A `chat_member` update: the chat, the user it is about and their new status. */
  datatype MemberUpdate = MemberUpdate(chatId: string, userId: string, status: string)

  /** The `chat_member` handler of services/telegram.js: a `member` update in the
      channel for a paid user whose link is unused marks the link used and the user
      joined, then tries to revoke the link (`revoked` says whether that call succeeded). */
  function ConsumeInviteSpec(docs: seq<User>, env: Env, update: MemberUpdate, revoked: bool): Step<User>
  {
    if update.chatId != env.channelId || update.status != "member" then Step(docs, [])
    else
      match Lookup(docs, UnusedPaidUser(update.userId))
      case None => Step(docs, [])
      case Some(user) =>
        if !HasLink(user) then Step(docs, [])
        else Step(UpdateFirst(docs, ByUserId(update.userId), MarkJoined()),
                  if revoked then [InviteRevoked(env.channelId, user.inviteLink.value)] else [])
  }

  method ConsumeInvite(db: Collection<User>, env: Env, update: MemberUpdate, revoked: bool) returns (fx: seq<Effect>)
    modifies db
    ensures Step(db.docs, fx) == ConsumeInviteSpec(old(db.docs), env, update, revoked)
  {
    fx := [];
    if update.chatId == env.channelId && update.status == "member" {
      var user := db.FindOne(UnusedPaidUser(update.userId));
      if user.Some? && HasLink(user.value) {
        db.UpdateOne(ByUserId(update.userId), MarkJoined());
        if revoked {
          fx := fx + [InviteRevoked(env.channelId, user.value.inviteLink.value)];
        }
      }
    }
  }

  /** A member update on a paid user with an unused link marks exactly that
      document joined and its link used; a failed revoke changes nothing else. */
  lemma JoinConsumesInvite(docs: seq<User>, env: Env, update: MemberUpdate, revoked: bool, i: nat)
    requires update.chatId == env.channelId && update.status == "member"
    requires FindFirst(docs, ByUserId(update.userId)) == Some(i)
    requires UnusedPaidUser(update.userId)(docs[i]) && HasLink(docs[i])
    ensures var s := ConsumeInviteSpec(docs, env, update, revoked);
            && s.docs == docs[i := docs[i].(joinedChannel := true, inviteLinkUsed := true)]
            && s.docs == ConsumeInviteSpec(docs, env, update, !revoked).docs
            && s.fx == (if revoked then [InviteRevoked(env.channelId, docs[i].inviteLink.value)] else [])
  {
    assert FindFirst(docs, UnusedPaidUser(update.userId)) == Some(i);
  }

  /** Consumption is one-way and a repeated join is a no-op: after one member update
      for a user, the same update changes nothing and revokes nothing. */
  lemma RepeatJoinIsNoop(docs: seq<User>, env: Env, update: MemberUpdate, revoked: bool, revoked2: bool)
    requires UniqueUserIds(docs)
    ensures var s := ConsumeInviteSpec(docs, env, update, revoked);
            && (forall k :: 0 <= k < |docs| && docs[k].inviteLinkUsed ==> s.docs[k].inviteLinkUsed)
            && ConsumeInviteSpec(s.docs, env, update, revoked2) == Step(s.docs, [])
  {
    var s := ConsumeInviteSpec(docs, env, update, revoked);
    if update.chatId == env.channelId && update.status == "member" {
      match FindFirst(docs, UnusedPaidUser(update.userId))
      case None =>
      case Some(i) =>
        if HasLink(docs[i]) {
          assert FindFirst(docs, ByUserId(update.userId)) == Some(i);
          assert s.docs == docs[i := docs[i].(joinedChannel := true, inviteLinkUsed := true)];
          forall k | 0 <= k < |s.docs| ensures !UnusedPaidUser(update.userId)(s.docs[k]) {
            if k != i {
              assert docs[k].userId != docs[i].userId;
            }
          }
          assert FindFirst(s.docs, UnusedPaidUser(update.userId)).None?;
        }
    }
  }
}
