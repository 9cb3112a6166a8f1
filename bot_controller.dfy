/** controllers/botController.js: payment creation (`processPayment`, the `buy`
    action), the user's poll (`/checkpayment`), the `text` handler (email capture and
    the admin editors with their validators) and the `navHistory` stack of the admin
    menus. The Telegraf session of a chat is a `Session` object whose fields the
    handlers update in place. */
module BotController {
  import opened Wrappers
  import opened JsText
  import opened Collection
  import opened UserModel
  import opened BotApi
  import opened Telegram

  /** A screen recorded in `navHistory`: `'start'` or `'admin_panel'`. */
  datatype Screen = StartScreen | AdminPanelScreen

  /** The session fields the handlers read and write. */
  datatype SessionState = SessionState(waitingForEmail: bool, editing: Option<Field>, navHistory: seq<Screen>)

  /** The per-chat Telegraf session. */
  class Session {
    var waitingForEmail: bool
    var editing: Option<Field>
    var navHistory: seq<Screen>

    /** `ctx.session = ctx.session || {}`: every field starts out absent. */
    constructor ()
      ensures State() == SessionState(false, None, [])
    {
      waitingForEmail, editing, navHistory := false, None, [];
    }

    function State(): SessionState
      reads this
    {
      SessionState(waitingForEmail, editing, navHistory)
    }

    /** `navHistory.push(screen)` */
    method Push(screen: Screen)
      modifies this
      ensures navHistory == old(navHistory) + [screen]
      ensures waitingForEmail == old(waitingForEmail) && editing == old(editing)
    {
      navHistory := navHistory + [screen];
    }

    /** `navHistory.pop() || 'start'`: the screen to go back to. */
    method Pop() returns (screen: Screen)
      modifies this
      ensures (screen, navHistory) == Back(old(navHistory))
      ensures waitingForEmail == old(waitingForEmail) && editing == old(editing)
    {
      if navHistory == [] {
        screen := StartScreen;
      } else {
        screen := navHistory[|navHistory| - 1];
        navHistory := navHistory[..|navHistory| - 1];
      }
    }
  }

  /** The `back` action on a history: the screen it returns to and the history left.
      One entry is removed, and an empty history yields the start screen. */
  function Back(history: seq<Screen>): (r: (Screen, seq<Screen>))
    ensures history == [] ==> r == (StartScreen, [])
    ensures history != [] ==> r.1 + [r.0] == history
    ensures |r.1| == if history == [] then 0 else |history| - 1
  {
    if history == [] then (StartScreen, []) else (history[|history| - 1], history[..|history| - 1])
  }

  /** `back` undoes the push of any forward step. */
  lemma BackUndoesPush(history: seq<Screen>, screen: Screen)
    ensures Back(history + [screen]) == (screen, history)
  {
    assert (history + [screen])[..|history|] == history;
  }

  /** `adminIds.has(userId)` */
  predicate IsAdmin(env: Env, userId: string) {
    userId in AdminSet(env)
  }

  /** The `admin_panel` action: admins push `'start'`, others are refused. */
  method OpenAdminPanel(session: Session, env: Env, userId: string) returns (fx: seq<Effect>)
    modifies session
    ensures IsAdmin(env, userId) ==> fx == [] && session.State() == old(session.State()).(navHistory := old(session.navHistory) + [StartScreen])
    ensures !IsAdmin(env, userId) ==> fx == [Replied(AccessDenied)] && session.State() == old(session.State())
  {
    if !IsAdmin(env, userId) {
      return [Replied(AccessDenied)];
    }
    session.Push(StartScreen);
    fx := [];
  }

  /** The `stats` and `edit` actions: admins push `'admin_panel'`, others are refused. */
  method OpenAdminSubmenu(session: Session, env: Env, userId: string) returns (fx: seq<Effect>)
    modifies session
    ensures IsAdmin(env, userId) ==> fx == [] && session.State() == old(session.State()).(navHistory := old(session.navHistory) + [AdminPanelScreen])
    ensures !IsAdmin(env, userId) ==> fx == [Replied(AccessDenied)] && session.State() == old(session.State())
  {
    if !IsAdmin(env, userId) {
      return [Replied(AccessDenied)];
    }
    session.Push(AdminPanelScreen);
    fx := [];
  }

  /** The `edit_*` actions: admins enter the editing mode of one setting. */
  method BeginEdit(session: Session, env: Env, userId: string, field: Field) returns (fx: seq<Effect>)
    modifies session
    ensures IsAdmin(env, userId) ==> fx == [Replied(EditPrompt(field))] && session.State() == old(session.State()).(editing := Some(field))
    ensures !IsAdmin(env, userId) ==> fx == [Replied(AccessDenied)] && session.State() == old(session.State())
  {
    if !IsAdmin(env, userId) {
      return [Replied(AccessDenied)];
    }
    session.editing := Some(field);
    fx := [Replied(EditPrompt(field))];
  }

  /** The `back` action: pops one screen, for anyone. */
  method GoBack(session: Session) returns (screen: Screen)
    modifies session
    ensures (screen, session.navHistory) == Back(old(session.navHistory))
    ensures session.waitingForEmail == old(session.waitingForEmail) && session.editing == old(session.editing)
  {
    screen := session.Pop();
  }

  /** The tail of `/^[^\s@]+@[^\s@]+\.[^\s@]+$/`'s pieces: non-empty, with no
      whitespace and no `@`. */
  predicate EmailPart(s: string) {
    |s| > 0 && forall k :: 0 <= k < |s| ==> !IsJsSpace(s[k]) && s[k] != '@'
  }

  /** `s` splits as the regex reads it, with the `@` at `at` and the `.` at `dot`. */
  predicate EmailSplit(s: string, at: nat, dot: nat) {
    at < dot < |s| && s[at] == '@' && s[dot] == '.'
    && EmailPart(s[..at]) && EmailPart(s[at + 1..dot]) && EmailPart(s[dot + 1..])
  }

  /** `/^[^\s@]+@[^\s@]+\.[^\s@]+$/.test(s)`, read as the regular expression. */
  ghost predicate MatchesEmailPattern(s: string) {
    exists at: nat, dot: nat :: EmailSplit(s, at, dot)
  }

  /** The email check, computed: one `@` with a non-empty local part before it, and
      after it a part free of whitespace and `@` with a `.` that is neither its first
      nor its last character. */
  predicate ValidEmail(s: string) {
    '@' in s && (
      var at := IndexOfChar(s, '@');
      var rest := s[at + 1..];
      EmailPart(s[..at]) && EmailPart(rest) && |rest| >= 3 && '.' in rest[1..|rest| - 1])
  }

  /** The computed check accepts exactly the strings the regular expression matches. */
  lemma ValidEmailIsPattern(s: string)
    ensures ValidEmail(s) <==> MatchesEmailPattern(s)
  {
    if ValidEmail(s) {
      ValidEmailSound(s);
    }
    if MatchesEmailPattern(s) {
      var at: nat, dot: nat :| EmailSplit(s, at, dot);
      ValidEmailComplete(s, at, dot);
    }
  }

  lemma ValidEmailSound(s: string)
    requires ValidEmail(s)
    ensures MatchesEmailPattern(s)
  {
    var at := IndexOfChar(s, '@');
    var rest := s[at + 1..];
    var j := IndexOfChar(rest[1..|rest| - 1], '.');
    var dot := at + 2 + j;
    assert s[at + 1..dot] == rest[..j + 1];
    assert s[dot + 1..] == rest[j + 2..];
    assert EmailSplit(s, at, dot);
  }

  lemma ValidEmailComplete(s: string, at: nat, dot: nat)
    requires EmailSplit(s, at, dot)
    ensures ValidEmail(s)
  {
    assert s[at] == '@';
    var rest := s[at + 1..];
    assert rest == s[at + 1..dot] + ['.'] + s[dot + 1..];
    assert rest[1..|rest| - 1][dot - at - 2] == '.';
  }

  /** `/^https?:\/\//` */
  predicate HasHttpScheme(s: string) {
    (|s| >= 7 && s[..7] == "http://") || (|s| >= 8 && s[..8] == "https://")
  }

  /** The support-link editor's normalisation: `@name` becomes `https://t.me/name`,
      a link with an http(s) scheme is kept, anything else is rejected. */
  function NormalizeSupportLink(text: string): (r: Option<string>)
    ensures r.Some? ==> HasHttpScheme(r.value)
    ensures r.None? <==> !(|text| > 0 && text[0] == '@') && !HasHttpScheme(text)
    ensures |text| > 0 && text[0] == '@' ==> r == Some("https://t.me/" + text[1..])
    ensures HasHttpScheme(text) ==> r == Some(text)
  {
    if |text| > 0 && text[0] == '@' then Some("https://t.me/" + text[1..])
    else if HasHttpScheme(text) then Some(text)
    else None
  }

  /** A normalised link normalises to itself. */
  lemma NormalizeSupportLinkIdempotent(text: string)
    requires NormalizeSupportLink(text).Some?
    ensures NormalizeSupportLink(NormalizeSupportLink(text).value) == NormalizeSupportLink(text)
  {
  }

  /** `text.length < 10`, counted in UTF-16 code units. */
  predicate TooShortText(text: string) {
    Utf16Length(text) < 10
  }

  /** `${RETURN_URL}?paymentId=${localPaymentId}` */
  function ReturnUrl(env: Env, localPaymentId: string): string {
    env.returnUrl + "?paymentId=" + localPaymentId
  }

  /** `processPayment(ctx, userId, chatId)` with the generated `localPaymentId`, the
      configured amount and the gateway's answer to `createPayment`. */
  function ProcessPaymentSpec(docs: seq<User>, env: Env, amount: int, userId: string, chatId: string,
                              localPaymentId: string, create: CreateReply): Step<User>
  {
    match Lookup(docs, ByUserId(userId))
    case None => Step(docs, [Replied(PaymentFailed)])
    case Some(user) =>
      if user.paymentStatus == SUCCEEDED && HasLink(user) then Step(docs, [Replied(AlreadyPaid(user.inviteLink.value))])
      else
        var request := PaymentRequested(amount, localPaymentId, ReturnUrl(env, localPaymentId));
        match create
        case CreateFailed => Step(docs, [request, Replied(PaymentFailed)])
        case Created(gatewayId, url) =>
          Step(UpdateFirst(docs, ByUserId(userId), StartPayment(gatewayId, localPaymentId, chatId)),
               [request, Replied(PayHere(url))])
  }

  method ProcessPayment(db: Collection<User>, env: Env, amount: int, userId: string, chatId: string,
                        localPaymentId: string, create: CreateReply) returns (fx: seq<Effect>)
    modifies db
    ensures Step(db.docs, fx) == ProcessPaymentSpec(old(db.docs), env, amount, userId, chatId, localPaymentId, create)
  {
    var user := db.FindOne(ByUserId(userId));
    if user.None? {
      // `user.email` throws a TypeError before the gateway is called
      return [Replied(PaymentFailed)];
    }
    if user.value.paymentStatus == SUCCEEDED && HasLink(user.value) {
      return [Replied(AlreadyPaid(user.value.inviteLink.value))];
    }
    fx := [PaymentRequested(amount, localPaymentId, ReturnUrl(env, localPaymentId))];
    if create.CreateFailed? {
      return fx + [Replied(PaymentFailed)];
    }
    db.UpdateOne(ByUserId(userId), StartPayment(create.gatewayId, localPaymentId, chatId));
    fx := fx + [Replied(PayHere(create.confirmationUrl))];
  }

  /** A paid user with a link gets that link again: no payment is requested and
      nothing is written. */
  lemma PaidUserGetsExistingLink(docs: seq<User>, env: Env, amount: int, userId: string, chatId: string,
                                 localPaymentId: string, create: CreateReply, i: nat)
    requires FindFirst(docs, ByUserId(userId)) == Some(i)
    requires docs[i].paymentStatus == SUCCEEDED && HasLink(docs[i])
    ensures ProcessPaymentSpec(docs, env, amount, userId, chatId, localPaymentId, create)
              == Step(docs, [Replied(AlreadyPaid(docs[i].inviteLink.value))])
  {
  }

  /** A failed or timed-out `createPayment` writes nothing and tells the user; with
      no record at all the gateway is not even called. */
  lemma PaymentFailureWritesNothing(docs: seq<User>, env: Env, amount: int, userId: string, chatId: string,
                                    localPaymentId: string, create: CreateReply)
    requires create.CreateFailed? || FindFirst(docs, ByUserId(userId)).None?
    ensures var r := ProcessPaymentSpec(docs, env, amount, userId, chatId, localPaymentId, create);
            && r.docs == docs
            && r.fx[|r.fx| - 1] in {Replied(PaymentFailed)} + (set l | l in UserLinks(docs, userId) :: Replied(AlreadyPaid(l)))
            && (FindFirst(docs, ByUserId(userId)).None? ==> r.fx == [Replied(PaymentFailed)])
  {
  }

  /** The links on a user's records (for stating which reply ended a call). */
  function UserLinks(docs: seq<User>, userId: string): set<string>
  {
    set k | 0 <= k < |docs| && docs[k].userId == userId && docs[k].inviteLink.Some? :: docs[k].inviteLink.value
  }

  /** A created payment starts over on the user's record: the gateway id, the
      correlation id, `'pending'` and the chat are written, even over a `'succeeded'`
      record that has no link, and nothing else changes. */
  lemma CreatedPaymentRestartsRecord(docs: seq<User>, env: Env, amount: int, userId: string, chatId: string,
                                     localPaymentId: string, gatewayId: string, url: string, i: nat)
    requires FindFirst(docs, ByUserId(userId)) == Some(i)
    requires !(docs[i].paymentStatus == SUCCEEDED && HasLink(docs[i]))
    ensures var r := ProcessPaymentSpec(docs, env, amount, userId, chatId, localPaymentId, Created(gatewayId, url));
            && r.fx == [PaymentRequested(amount, localPaymentId, ReturnUrl(env, localPaymentId)), Replied(PayHere(url))]
            && r.docs == docs[i := docs[i].(paymentId := Some(gatewayId), localPaymentId := Some(localPaymentId),
                                            paymentStatus := PENDING, chatId := Some(chatId))]
            && FindFirst(r.docs, ByPaymentId(gatewayId)).Some?
            && FindFirst(r.docs, ByLocalPaymentId(localPaymentId)).Some?
  {
    var r := ProcessPaymentSpec(docs, env, amount, userId, chatId, localPaymentId, Created(gatewayId, url));
    assert ByPaymentId(gatewayId)(r.docs[i]);
    assert ByLocalPaymentId(localPaymentId)(r.docs[i]);
  }

  /** The `/checkpayment` command. */
  function CheckPaymentSpec(docs: seq<User>, env: Env, userId: string, gateway: Gateway,
                            nowMs: nat, invite: InviteReply, doc: DocReply): Step<User>
  {
    match Lookup(docs, ByUserId(userId))
    case None => Step(docs, [Replied(NoActivePayments)])
    case Some(user) =>
      if !Truthy(user.paymentId) then Step(docs, [Replied(NoActivePayments)])
      else if user.paymentStatus == SUCCEEDED && HasLink(user) then
        Step(docs, [Replied(PaidWelcome), Replied(YourInviteLink(user.inviteLink.value))])
      else
        match gateway(user.paymentId.value)
        case Unreachable => Step(docs, [Replied(CheckFailed)])
        case Status(status) =>
          if status != SUCCEEDED then Step(docs, [Replied(PaymentStatus(status))])
          else
            var o := SendInviteLinkSpec(docs, env, user, user.paymentId.value, gateway, nowMs, invite, doc);
            Step(o.docs, if o.threw then o.fx + [Replied(CheckFailed)] else o.fx)
  }

  method CheckPayment(db: Collection<User>, env: Env, userId: string, gateway: Gateway,
                      nowMs: nat, invite: InviteReply, doc: DocReply) returns (fx: seq<Effect>)
    modifies db
    ensures Step(db.docs, fx) == CheckPaymentSpec(old(db.docs), env, userId, gateway, nowMs, invite, doc)
  {
    var user := db.FindOne(ByUserId(userId));
    if user.None? || !Truthy(user.value.paymentId) {
      return [Replied(NoActivePayments)];
    }
    var u := user.value;
    if u.paymentStatus == SUCCEEDED && HasLink(u) {
      return [Replied(PaidWelcome), Replied(YourInviteLink(u.inviteLink.value))];
    }
    var payment := gateway(u.paymentId.value);
    if payment.Unreachable? {
      return [Replied(CheckFailed)];
    }
    if payment.status != SUCCEEDED {
      return [Replied(PaymentStatus(payment.status))];
    }
    var threw;
    fx, threw := SendInviteLink(db, env, u, u.paymentId.value, gateway, nowMs, invite, doc);
    if threw {
      fx := fx + [Replied(CheckFailed)];
    }
  }

  /** Without a record or a payment id, and for a paid user with a link, the poll
      asks no gateway (its answer cannot matter), writes nothing and makes no invite;
      the paid user is sent the existing link. */
  lemma CheckPaymentWithoutGateway(docs: seq<User>, env: Env, userId: string, gateway: Gateway, gateway2: Gateway,
                                   nowMs: nat, invite: InviteReply, doc: DocReply, invite2: InviteReply, doc2: DocReply)
    requires match Lookup(docs, ByUserId(userId))
             case None => true
             case Some(user) => !Truthy(user.paymentId) || (user.paymentStatus == SUCCEEDED && HasLink(user))
    ensures var r := CheckPaymentSpec(docs, env, userId, gateway, nowMs, invite, doc);
            && r == CheckPaymentSpec(docs, env, userId, gateway2, nowMs, invite2, doc2)
            && r.docs == docs
            && CountInvites(r.fx) == 0
            && (Lookup(docs, ByUserId(userId)).Some? && Truthy(Lookup(docs, ByUserId(userId)).value.paymentId) ==>
                  r.fx[|r.fx| - 1] == Replied(YourInviteLink(Lookup(docs, ByUserId(userId)).value.inviteLink.value)))
  {
    var r := CheckPaymentSpec(docs, env, userId, gateway, nowMs, invite, doc);
    CountInvitesNone(r.fx);
  }

  /** The poll issues an invite or writes the store only when the gateway reports the
      payment `'succeeded'`. */
  lemma CheckPaymentIssuesOnlyIfSettled(docs: seq<User>, env: Env, userId: string, gateway: Gateway,
                                        nowMs: nat, invite: InviteReply, doc: DocReply)
    ensures var r := CheckPaymentSpec(docs, env, userId, gateway, nowMs, invite, doc);
            (r.docs != docs || CountInvites(r.fx) > 0) ==>
              && Lookup(docs, ByUserId(userId)).Some?
              && Lookup(docs, ByUserId(userId)).value.paymentId.Some?
              && gateway(Lookup(docs, ByUserId(userId)).value.paymentId.value) == Status(SUCCEEDED)
  {
    var r := CheckPaymentSpec(docs, env, userId, gateway, nowMs, invite, doc);
    match Lookup(docs, ByUserId(userId))
    case None =>
    case Some(user) =>
      if Truthy(user.paymentId) && !(user.paymentStatus == SUCCEEDED && HasLink(user))
         && gateway(user.paymentId.value).Status? && gateway(user.paymentId.value).status == SUCCEEDED {
      } else {
        CountInvitesNone(r.fx);
      }
  }

  /** A user's turn: the documents, the effects and the session fields afterwards. */
  datatype Turn = Turn(docs: seq<User>, fx: seq<Effect>, session: SessionState)

  /** The `buy` action. */
  function BuySpec(docs: seq<User>, session: SessionState, env: Env, amount: int, userId: string, chatId: string,
                   localPaymentId: string, create: CreateReply): Turn
  {
    match Lookup(docs, ByUserId(userId))
    case None => Turn(docs, [Replied(GenericError)], session)
    case Some(user) =>
      if !Truthy(user.email) then Turn(docs, [Replied(AskEmail)], session.(waitingForEmail := true))
      else
        var p := ProcessPaymentSpec(docs, env, amount, userId, chatId, localPaymentId, create);
        Turn(p.docs, p.fx, session)
  }

  method Buy(db: Collection<User>, session: Session, env: Env, amount: int, userId: string, chatId: string,
             localPaymentId: string, create: CreateReply) returns (fx: seq<Effect>)
    modifies db, session
    ensures Turn(db.docs, fx, session.State()) ==
              BuySpec(old(db.docs), old(session.State()), env, amount, userId, chatId, localPaymentId, create)
  {
    var user := db.FindOne(ByUserId(userId));
    if user.None? {
      // `user.email` on a missing record throws
      return [Replied(GenericError)];
    }
    if !Truthy(user.value.email) {
      session.waitingForEmail := true;
      return [Replied(AskEmail)];
    }
    fx := ProcessPayment(db, env, amount, userId, chatId, localPaymentId, create);
  }

  /** Without an email on the record, `buy` only asks for one: no payment, no write. */
  lemma BuyWithoutEmailAsks(docs: seq<User>, session: SessionState, env: Env, amount: int, userId: string,
                            chatId: string, localPaymentId: string, create: CreateReply, i: nat)
    requires FindFirst(docs, ByUserId(userId)) == Some(i) && !Truthy(docs[i].email)
    ensures BuySpec(docs, session, env, amount, userId, chatId, localPaymentId, create)
              == Turn(docs, [Replied(AskEmail)], session.(waitingForEmail := true))
  {
  }

  /** The `text` handler, given the raw message text and whether `parseFloat` of the
      trimmed text is a number above 0. An accepted edit reaches `Settings`, which
      the controller never imports, so it throws and the error reply is sent. */
  function TextSpec(docs: seq<User>, session: SessionState, env: Env, amount: int, userId: string, chatId: string,
                    raw: string, amountAccepted: bool, localPaymentId: string, create: CreateReply): Turn
  {
    var text := Trim(raw);
    if session.waitingForEmail then
      if !ValidEmail(text) then Turn(docs, [Replied(InvalidEmail)], session)
      else
        var saved := UpdateFirst(docs, ByUserId(userId), SetEmail(text));
        var p := ProcessPaymentSpec(saved, env, amount, userId, chatId, localPaymentId, create);
        Turn(p.docs, [Replied(EmailSaved)] + p.fx, session.(waitingForEmail := false))
    else if !IsAdmin(env, userId) || session.editing.None? then Turn(docs, [], session)
    else Turn(docs, [Replied(EditorVerdict(session.editing.value, text, amountAccepted))], session)
  }

  /** The reply of an editor: the rejection, or the error that the save attempt ends in. */
  function EditorVerdict(field: Field, text: string, amountAccepted: bool): (m: Msg)
    ensures m != SaveFailed <==>
              match field
              case SupportLink => NormalizeSupportLink(text).None?
              case PaymentAmount => !amountAccepted
              case _ => TooShortText(text)
  {
    match field
    case ChannelDescription => if TooShortText(text) then TooShort(field) else SaveFailed
    case SupportLink => if NormalizeSupportLink(text).None? then InvalidSupportLink else SaveFailed
    case WelcomeMessage => if TooShortText(text) then TooShort(field) else SaveFailed
    case PaymentAmount => if !amountAccepted then InvalidAmount else SaveFailed
    case PaidWelcomeMessage => if TooShortText(text) then TooShort(field) else SaveFailed
  }

  method OnText(db: Collection<User>, session: Session, env: Env, amount: int, userId: string, chatId: string,
                raw: string, amountAccepted: bool, localPaymentId: string, create: CreateReply) returns (fx: seq<Effect>)
    modifies db, session
    ensures Turn(db.docs, fx, session.State()) ==
              TextSpec(old(db.docs), old(session.State()), env, amount, userId, chatId, raw, amountAccepted, localPaymentId, create)
  {
    var text := Trim(raw);
    if session.waitingForEmail {
      if !ValidEmail(text) {
        return [Replied(InvalidEmail)];
      }
      db.UpdateOne(ByUserId(userId), SetEmail(text));
      session.waitingForEmail := false;
      fx := ProcessPayment(db, env, amount, userId, chatId, localPaymentId, create);
      fx := [Replied(EmailSaved)] + fx;
      return;
    }
    if !IsAdmin(env, userId) || session.editing.None? {
      return [];
    }
    fx := [Replied(EditorVerdict(session.editing.value, text, amountAccepted))];
  }

  /** Email capture: the trimmed text is stored, the flag cleared and a payment
      started exactly when it matches the email pattern; otherwise nothing changes
      and the user is asked again. */
  lemma EmailCapture(docs: seq<User>, session: SessionState, env: Env, amount: int, userId: string, chatId: string,
                     raw: string, amountAccepted: bool, localPaymentId: string, create: CreateReply, i: nat)
    requires session.waitingForEmail
    requires FindFirst(docs, ByUserId(userId)) == Some(i)
    ensures var r := TextSpec(docs, session, env, amount, userId, chatId, raw, amountAccepted, localPaymentId, create);
            && (MatchesEmailPattern(Trim(raw)) ==>
                  && !r.session.waitingForEmail
                  && |r.docs| == |docs| && r.docs[i].email == Some(Trim(raw))
                  && |r.fx| >= 1 && r.fx[0] == Replied(EmailSaved)
                  && r.fx[1..] == ProcessPaymentSpec(docs[i := docs[i].(email := Some(Trim(raw)))], env, amount,
                                                     userId, chatId, localPaymentId, create).fx)
            && (!MatchesEmailPattern(Trim(raw)) ==> r == Turn(docs, [Replied(InvalidEmail)], session))
  {
    var text := Trim(raw);
    ValidEmailIsPattern(text);
    if ValidEmail(text) {
      var saved := docs[i := docs[i].(email := Some(text))];
      assert UpdateFirst(docs, ByUserId(userId), SetEmail(text)) == saved;
      FindFirstAfterSet(docs, i, saved[i], ByUserId(userId));
      PaymentKeepsEmail(saved, env, amount, userId, chatId, localPaymentId, create, i);
    }
  }

  /** `processPayment` leaves every record's email as it was. */
  lemma PaymentKeepsEmail(docs: seq<User>, env: Env, amount: int, userId: string, chatId: string,
                          localPaymentId: string, create: CreateReply, i: nat)
    requires FindFirst(docs, ByUserId(userId)) == Some(i)
    ensures var p := ProcessPaymentSpec(docs, env, amount, userId, chatId, localPaymentId, create);
            |p.docs| == |docs| && p.docs[i].email == docs[i].email
  {
    if create.Created? {
      var u := StartPayment(create.gatewayId, localPaymentId, chatId)(docs[i]);
      assert u.email == docs[i].email;
    }
  }

  /** Outside email capture, only an admin in an editing mode gets any answer; the
      editors never change the store or the session, so a rejected text keeps the
      editing mode, and so does an accepted one. */
  lemma EditorsKeepState(docs: seq<User>, session: SessionState, env: Env, amount: int, userId: string, chatId: string,
                         raw: string, amountAccepted: bool, localPaymentId: string, create: CreateReply)
    requires !session.waitingForEmail
    ensures var r := TextSpec(docs, session, env, amount, userId, chatId, raw, amountAccepted, localPaymentId, create);
            && r.docs == docs && r.session == session
            && (r.fx != [] <==> IsAdmin(env, userId) && session.editing.Some?)
  {
  }

  /** The three text editors reject texts shorter than 10 UTF-16 code units. */
  lemma ShortTextsRejected(field: Field, text: string, amountAccepted: bool)
    requires field in {ChannelDescription, WelcomeMessage, PaidWelcomeMessage}
    requires Utf16Length(text) < 10
    ensures EditorVerdict(field, text, amountAccepted) == TooShort(field)
  {
  }
}
