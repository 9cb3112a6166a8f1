/** app.js: the start-up check of the required environment variables and the
    `/return` page the gateway redirects the payer's browser to. */
module App {
  import opened Wrappers
  import opened JsText
  import opened Collection
  import opened UserModel
  import opened BotApi

  /** The variables the server refuses to start without. */
  const REQUIRED_ENV_VARS: seq<string> := ["BOT_TOKEN", "MONGODB_URI", "YOOKASSA_SHOP_ID", "YOOKASSA_SECRET_KEY",
                                           "CHANNEL_ID", "PAYMENT_GROUP_ID", "ADMIN_CHAT_IDS", "RETURN_URL"]

  /** `process.env[name]` is set and not empty. */
  predicate IsSet(env: map<string, string>, name: string) {
    name in env && env[name] != ""
  }

  /** The start-up loop: the first required variable that is missing or empty (the
      process exits naming it), or none when all eight are set. */
  method FirstMissingEnvVar(env: map<string, string>) returns (missing: Option<string>)
    ensures missing.None? <==> forall k :: 0 <= k < |REQUIRED_ENV_VARS| ==> IsSet(env, REQUIRED_ENV_VARS[k])
    ensures missing.Some? ==> exists k :: 0 <= k < |REQUIRED_ENV_VARS| && missing.value == REQUIRED_ENV_VARS[k]
                                && !IsSet(env, REQUIRED_ENV_VARS[k])
                                && forall j :: 0 <= j < k ==> IsSet(env, REQUIRED_ENV_VARS[j])
  {
    var i := 0;
    while i < |REQUIRED_ENV_VARS|
      invariant 0 <= i <= |REQUIRED_ENV_VARS|
      invariant forall j :: 0 <= j < i ==> IsSet(env, REQUIRED_ENV_VARS[j])
    {
      if !IsSet(env, REQUIRED_ENV_VARS[i]) {
        return Some(REQUIRED_ENV_VARS[i]);
      }
      i := i + 1;
    }
    return None;
  }

  /** The page every `/return` request is answered with. */
  const RETURN_PAGE := "payment processed, redirecting to Telegram"

  /** What `/return?paymentId=<localPaymentId>` does: the message sent and the page. */
  datatype ReturnResult = ReturnResult(fx: seq<Effect>, page: string)

  /** `/return`: the record whose `localPaymentId` is the query's `paymentId` gets its
      payment looked up (`getPayment(user.paymentId)`, with `undefined` when the record
      has no gateway id) and the chat is told whether it is confirmed. A failed lookup
      or a record without a chat only ends in the catch block. */
  function ReturnSpec(docs: seq<User>, gateway: Gateway, query: Option<string>): ReturnResult
  {
    if !Truthy(query) then ReturnResult([], RETURN_PAGE)
    else
      match Lookup(docs, ByLocalPaymentId(query.value))
      case None => ReturnResult([], RETURN_PAGE)
      case Some(user) =>
        match gateway(Render(user.paymentId))
        case Unreachable => ReturnResult([], RETURN_PAGE)
        case Status(status) =>
          if user.chatId.None? then ReturnResult([], RETURN_PAGE)
          else if status == SUCCEEDED then ReturnResult([Sent(user.chatId.value, PaymentConfirmed)], RETURN_PAGE)
          else ReturnResult([Sent(user.chatId.value, NotYetConfirmed(status))], RETURN_PAGE)
  }

  /** The handler reads the store and writes nothing. */
  method HandleReturn(db: Collection<User>, gateway: Gateway, query: Option<string>) returns (fx: seq<Effect>, page: string)
    ensures ReturnResult(fx, page) == ReturnSpec(db.docs, gateway, query)
  {
    fx := [];
    if Truthy(query) {
      var user := db.FindOne(ByLocalPaymentId(query.value));
      if user.Some? {
        var payment := gateway(Render(user.value.paymentId));
        if payment.Status? && user.value.chatId.Some? {
          if payment.status == SUCCEEDED {
            fx := [Sent(user.value.chatId.value, PaymentConfirmed)];
          } else {
            fx := [Sent(user.value.chatId.value, NotYetConfirmed(payment.status))];
          }
        }
      }
    }
    page := RETURN_PAGE;
  }

  /** `/return` always answers the same page, never issues an invite, and sends at most
      one message: to the chat of the record found by the correlation id, saying
      "confirmed" exactly when the gateway reports the payment `'succeeded'`. */
  lemma ReturnOnlyInforms(docs: seq<User>, gateway: Gateway, query: Option<string>)
    ensures var r := ReturnSpec(docs, gateway, query);
            && r.page == RETURN_PAGE
            && CountInvites(r.fx) == 0
            && |r.fx| <= 1
            && (r.fx != [] ==>
                  && Truthy(query)
                  && var user := Lookup(docs, ByLocalPaymentId(query.value));
                  && user.Some? && user.value.chatId.Some?
                  && r.fx[0].Sent? && r.fx[0].chatId == user.value.chatId.value
                  && (r.fx[0].msg == PaymentConfirmed <==> gateway(Render(user.value.paymentId)) == Status(SUCCEEDED)))
            && (!Truthy(query) || Lookup(docs, ByLocalPaymentId(query.value)).None? ==> r.fx == [])
  {
    CountInvitesNone(ReturnSpec(docs, gateway, query).fx);
  }
}
