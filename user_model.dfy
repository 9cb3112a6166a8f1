/** The subscriber document of models/User.js: one per Telegram user, holding the
    payment and entitlement state every handler reads or writes, together with the
    filters (`findOne` / `updateOne` queries) and the updates the handlers apply to it. */
module UserModel {
  import opened Wrappers
  import opened JsText

  const PENDING := "pending"
  const SUCCEEDED := "succeeded"

  /** A subscriber document. `paymentId` is the gateway's payment id and
      `localPaymentId` the correlation id put into the return URL; they are
      independent optional fields. `inviteLinkExpires` is a bare number whose unit
      is chosen by the writer. Display fields (`firstName`, `username`,
      `phoneNumber`) and the timestamps `paymentDate` and `lastActivity` are not
      modelled. */
  datatype User = User(
    userId: string,
    chatId: Option<string>,
    paymentStatus: string,
    paymentId: Option<string>,
    localPaymentId: Option<string>,
    joinedChannel: bool,
    inviteLink: Option<string>,
    inviteLinkExpires: Option<int>,
    inviteLinkUsed: bool,
    email: Option<string>,
    paymentDocument: Option<string>,
    processed: bool)

  /** Nothing has been paid, issued or consumed on this document. */
  predicate Unentitled(u: User) {
    && u.paymentStatus == PENDING
    && !u.joinedChannel && !u.inviteLinkUsed && !u.processed
    && u.inviteLink.None? && u.inviteLinkExpires.None? && u.paymentDocument.None?
  }

  /** `User.create({userId, chatId, paymentId})`: the schema's defaults fill every
      field that is not given. */
  function NewDocument(userId: string, chatId: Option<string>, paymentId: Option<string>): (u: User)
    ensures Unentitled(u)
    ensures u.userId == userId && u.chatId == chatId && u.paymentId == paymentId
    ensures u.localPaymentId.None? && u.email.None?
  {
    User(userId, chatId, PENDING, paymentId, None, false, None, None, false, None, None, false)
  }

  /** No two documents belong to the same Telegram user. */
  predicate UniqueUserIds(docs: seq<User>) {
    forall i, j :: 0 <= i < j < |docs| ==> docs[i].userId != docs[j].userId
  }

  /** The document has an invite link that a chat_member event can consume. */
  predicate HasLink(u: User) {
    Truthy(u.inviteLink)
  }

  // Filters.

  /** `{userId}` */
  function ByUserId(id: string): User -> bool {
    (u: User) => u.userId == id
  }

  /** `{paymentId}` */
  function ByPaymentId(id: string): User -> bool {
    (u: User) => u.paymentId == Some(id)
  }

  /** `{localPaymentId}` */
  function ByLocalPaymentId(id: string): User -> bool {
    (u: User) => u.localPaymentId == Some(id)
  }

  /** `{userId, paymentId}` */
  function ByUserAndPayment(userId: string, paymentId: string): User -> bool {
    (u: User) => u.userId == userId && u.paymentId == Some(paymentId)
  }

  /** `{userId, paymentStatus: 'succeeded'}` */
  function PaidUser(id: string): User -> bool {
    (u: User) => u.userId == id && u.paymentStatus == SUCCEEDED
  }

  /** `{userId, paymentStatus: 'succeeded', inviteLinkUsed: false}` */
  function UnusedPaidUser(id: string): User -> bool {
    (u: User) => u.userId == id && u.paymentStatus == SUCCEEDED && !u.inviteLinkUsed
  }

  // Updates.

  /** The write that records an issued invite link. */
  function Issue(link: string, expires: int, document: string): User -> User {
    (u: User) => u.(paymentStatus := SUCCEEDED, inviteLink := Some(link), inviteLinkExpires := Some(expires),
            inviteLinkUsed := false, paymentDocument := Some(document))
  }

  /** `{processed: true}` */
  function MarkProcessed(): User -> User {
    (u: User) => u.(processed := true)
  }

  /** `{joinedChannel: true, inviteLinkUsed: true}` */
  function MarkJoined(): User -> User {
    (u: User) => u.(joinedChannel := true, inviteLinkUsed := true)
  }

  /** `{joinedChannel: false}` */
  function MarkLeft(): User -> User {
    (u: User) => u.(joinedChannel := false)
  }

  /** `{paymentId, localPaymentId, paymentStatus: 'pending', chatId}` */
  function StartPayment(paymentId: string, localPaymentId: string, chatId: string): User -> User {
    (u: User) => u.(paymentId := Some(paymentId), localPaymentId := Some(localPaymentId),
            paymentStatus := PENDING, chatId := Some(chatId))
  }

  /** `{email}` */
  function SetEmail(email: string): User -> User {
    (u: User) => u.(email := Some(email))
  }

  /** Whether the document was written by `Issue(link, expires, document)`. */
  predicate IssuedWith(u: User, link: string, expires: int, document: string) {
    u.paymentStatus == SUCCEEDED && u.inviteLink == Some(link) && u.inviteLinkExpires == Some(expires)
    && !u.inviteLinkUsed && u.paymentDocument == Some(document)
  }

  /** No update but `StartPayment` touches the keys that filters look at, and none of
      them touches `userId`. */
  lemma UpdatesKeepKeys(x: User, link: string, expires: int, document: string)
    ensures Issue(link, expires, document)(x).userId == x.userId
    ensures Issue(link, expires, document)(x).paymentId == x.paymentId
    ensures Issue(link, expires, document)(x).localPaymentId == x.localPaymentId
    ensures IssuedWith(Issue(link, expires, document)(x), link, expires, document)
    ensures MarkProcessed()(x) == x.(processed := true)
    ensures MarkJoined()(x).userId == x.userId && MarkLeft()(x).userId == x.userId
  {
  }
}
