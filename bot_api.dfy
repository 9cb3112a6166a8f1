/** The outside world as the bot's handlers see it: the environment variables, the
    payment gateway as a status oracle, the replies of the Telegram calls that can
    fail, and the log of Telegram side effects each handler produces. Message texts
    and keyboards are abstracted to the constructors of `Msg`. */
module BotApi {
  import opened Wrappers
  import opened JsText

  /** The environment variables the handlers read. */
  datatype Env = Env(channelId: string, paymentGroupId: string, adminChatIds: string, returnUrl: string)

  /** A `getPayment(id)` lookup: the payment's status, or a thrown error (network, timeout, unknown id). */
  datatype GatewayReply = Status(status: string) | Unreachable

  /** The gateway as an oracle from payment id to its current status. */
  type Gateway = string -> GatewayReply

  /** The result of `createChatInviteLink`. */
  datatype InviteReply = Minted(link: string) | MintFailed

  /** The result of `sendDocument` to the payment group. */
  datatype DocReply = Posted(messageId: nat) | PostFailed

  /** The result of `createPayment`, or its failure (an error or the 15 s timeout). */
  datatype CreateReply = Created(gatewayId: string, confirmationUrl: string) | CreateFailed

  /** The settings an admin can edit. */
  datatype Field = ChannelDescription | SupportLink | WelcomeMessage | PaymentAmount | PaidWelcomeMessage

  /** Bot commands of the legacy menus. */
  datatype Command = BuyCommand | CheckPaymentCommand | RenewLinkCommand | SupportCommand | AdminCommand

  /** What a message says, without its wording. */
  datatype Msg =
    // services/telegram.js
    | PaidWelcome | AlreadyJoined | YourInviteLink(link: string) | InviteFailed
    | AdminPaid(userId: string, paymentId: string, link: string)
    | AdminInviteFailed(userId: string, paymentId: string)
    // controllers/botController.js
    | AlreadyPaid(link: string) | PayHere(url: string) | PaymentFailed
    | NoActivePayments | PaymentStatus(status: string) | CheckFailed
    | AskEmail | InvalidEmail | EmailSaved | GenericError
    | TooShort(field: Field) | InvalidSupportLink | InvalidAmount | SaveFailed | AccessDenied
    | EditPrompt(field: Field) | SettingSaved(field: Field)
    // app.js
    | PaymentConfirmed | NotYetConfirmed(status: string)
    // src/index.js
    | LegacyPaid(link: string) | LegacyAdminPaid(userId: string, paymentId: string) | LegacyInviteFailed
    | LegacyAlreadyPaid(link: string) | LinkExpired | LegacyPaymentFailed | LegacyPayHere(url: string)
    | NotStarted | LegacyLink(link: string) | NotCompleted | NotPaid | StillValid(link: string)
    | NewLink(link: string) | RenewFailed

  /** One observable side effect of a handler. */
  datatype Effect =
    | InviteCreated(channel: string, memberLimit: nat, expireDate: int, link: string)
    | DocumentSent(group: string, paymentId: string, messageId: nat)
    | Sent(chatId: string, msg: Msg)        // bot.telegram.sendMessage(chatId, ...)
    | Replied(msg: Msg)                     // ctx.reply(...) in the handler's own chat
    | InviteRevoked(channel: string, link: string)
    | PaymentRequested(amount: int, localId: string, returnUrl: string)
    | CommandsSet(userId: string, commands: seq<Command>)

  /** The state a handler leaves behind: the collection's documents and the side effects it produced. */
  datatype Step<D> = Step(docs: seq<D>, fx: seq<Effect>)

  /** The messages `ms`, in order, to chat `chatId`. */
  function ToChat(chatId: string, ms: seq<Msg>): (fx: seq<Effect>)
    ensures |fx| == |ms|
    ensures forall k :: 0 <= k < |fx| ==> fx[k] == Sent(chatId, ms[k])
  {
    if ms == [] then [] else [Sent(chatId, ms[0])] + ToChat(chatId, ms[1..])
  }

  /** `new Set((ADMIN_CHAT_IDS || '').split(',').map(id => id.trim()))`, in iteration order. */
  function AdminSet(env: Env): (admins: seq<string>)
    ensures NoDuplicates(admins)
    ensures forall a :: a in admins <==> a in TrimAll(Split(env.adminChatIds, ','))
  {
    Dedupe(TrimAll(Split(env.adminChatIds, ',')))
  }

  /** `(ADMIN_CHAT_IDS || '').split(',').map(id => id.trim())` as an array (duplicates kept). */
  function AdminList(env: Env): (admins: seq<string>)
    ensures |admins| == |Split(env.adminChatIds, ',')|
    ensures forall k :: 0 <= k < |admins| ==> admins[k] == Trim(Split(env.adminChatIds, ',')[k])
  {
    TrimAll(Split(env.adminChatIds, ','))
  }

  /** One message `m` to each admin, in order. */
  function Notices(admins: seq<string>, m: Msg): (fx: seq<Effect>)
    ensures |fx| == |admins|
    ensures forall k :: 0 <= k < |fx| ==> fx[k] == Sent(admins[k], m)
  {
    if admins == [] then [] else [Sent(admins[0], m)] + Notices(admins[1..], m)
  }

  /** The `for (const adminId of adminIds)` loop that messages every admin. */
  method NotifyAdmins(admins: seq<string>, m: Msg) returns (fx: seq<Effect>)
    ensures |fx| == |admins|
    ensures forall k :: 0 <= k < |fx| ==> fx[k] == Sent(admins[k], m)
    ensures fx == Notices(admins, m)
  {
    fx := [];
    var i := 0;
    while i < |admins|
      invariant 0 <= i <= |admins|
      invariant |fx| == i
      invariant forall k :: 0 <= k < i ==> fx[k] == Sent(admins[k], m)
    {
      fx := fx + [Sent(admins[i], m)];
      i := i + 1;
    }
  }

  /** Number of invite links a log records as created. */
  function CountInvites(fx: seq<Effect>): nat
  {
    if fx == [] then 0 else (if fx[0].InviteCreated? then 1 else 0) + CountInvites(fx[1..])
  }

  lemma {:induction false} CountInvitesAppend(a: seq<Effect>, b: seq<Effect>)
    ensures CountInvites(a + b) == CountInvites(a) + CountInvites(b)
  {
    if a == [] {
      assert a + b == b;
    } else {
      assert (a + b)[1..] == a[1..] + b;
      CountInvitesAppend(a[1..], b);
    }
  }

  lemma CountInvitesPair(a: Effect, b: Effect)
    ensures CountInvites([a, b]) == (if a.InviteCreated? then 1 else 0) + (if b.InviteCreated? then 1 else 0)
  {
    assert [b][1..] == [];
    assert CountInvites([b]) == (if b.InviteCreated? then 1 else 0);
    assert [a, b][1..] == [b];
  }

  /** A log without `InviteCreated` entries counts no invites. */
  lemma {:induction false} CountInvitesNone(fx: seq<Effect>)
    requires forall k :: 0 <= k < |fx| ==> !fx[k].InviteCreated?
    ensures CountInvites(fx) == 0
  {
    if fx != [] {
      CountInvitesNone(fx[1..]);
    }
  }

  /** Messages create no invites. */
  lemma MessagesCreateNoInvite(admins: seq<string>, chatId: string, ms: seq<Msg>, m: Msg)
    ensures CountInvites(Notices(admins, m)) == 0
    ensures CountInvites(ToChat(chatId, ms)) == 0
  {
    CountInvitesNone(Notices(admins, m));
    CountInvitesNone(ToChat(chatId, ms));
  }
}
