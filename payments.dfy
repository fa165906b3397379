/**
  The Paystack checkout: validating a purchase request, building the
  transaction payload and reading the gateway's replies. The gateway itself
  is a parameter: a function from what is sent to what comes back.
*/
module Payments {
  import opened Wrappers
  import opened Catalogue

  /** The JSON body posted to the gateway's initialize endpoint. */
  datatype Payload = Payload(email: string, amount: nat, callbackUrl: string)

  /** The fields of the initialize reply the route reads: `status` (as truthiness) and `data`. */
  datatype InitReply = InitReply(status: bool, authorizationUrl: string, reference: string)

  /** What POST /paystack/init answers. */
  datatype InitResponse =
    | InvalidVideo                              // 400 {"error": "Invalid video"}
    | EmailRequired                             // 400 {"error": "Email required"}
    | GatewayError(reply: InitReply)            // 400 {"error": <the reply>}
    | Redirect(authUrl: string, ref: string)    // 200 {"auth_url": ..., "ref": ...}
  {
    function Status(): nat
    {
      if Redirect? then 200 else 400
    }
  }

  /** The path the gateway sends the buyer back to, appended to the host URL. */
  const CALLBACK_PATH := "paystack/callback"

  /**
    The checks of `paystack_init` in their order, then the payload: an unknown
    video is refused before the email is looked at, and the amount charged is
    the catalogue price.
  */
  function Checkout(videoId: Option<string>, email: Option<string>, hostUrl: string): (r: Result<Payload, InitResponse>)
    ensures (videoId.None? || Find(VIDEOS, videoId.value).None?) ==> r == Failure(InvalidVideo)
    ensures (videoId.Some? && Find(VIDEOS, videoId.value).Some? && (email.None? || email.value == ""))
              ==> r == Failure(EmailRequired)
    ensures r.Success? <==> videoId.Some? && Find(VIDEOS, videoId.value).Some? && email.Some? && email.value != ""
    ensures r.Success? ==>
              && r.value.email == email.value
              && r.value.amount == Find(VIDEOS, videoId.value).value.priceKobo
              && r.value.callbackUrl == hostUrl + CALLBACK_PATH
  {
    var video := if videoId.None? then None else Find(VIDEOS, videoId.value);
    if video.None? then Failure(InvalidVideo)
    else if email.None? || email.value == "" then Failure(EmailRequired)
    else Success(Payload(email.value, video.value.priceKobo, hostUrl + CALLBACK_PATH))
  }

  /**
    `paystack_init`: the payload goes to `gateway`, whose reply decides the
    answer; the gateway is only called once the request passed the checks.
  */
  function PaystackInit(videoId: Option<string>, email: Option<string>, hostUrl: string,
                        gateway: Payload -> InitReply): (r: InitResponse)
    ensures Checkout(videoId, email, hostUrl).Failure? ==> r == Checkout(videoId, email, hostUrl).error
    ensures r.Redirect? <==> Checkout(videoId, email, hostUrl).Success?
                             && gateway(Checkout(videoId, email, hostUrl).value).status
    ensures r.Redirect? ==>
              var reply := gateway(Checkout(videoId, email, hostUrl).value);
              r.authUrl == reply.authorizationUrl && r.ref == reply.reference
    ensures r.GatewayError? <==> Checkout(videoId, email, hostUrl).Success?
                                 && !gateway(Checkout(videoId, email, hostUrl).value).status
    ensures r.GatewayError? ==> r.reply == gateway(Checkout(videoId, email, hostUrl).value)
  {
    match Checkout(videoId, email, hostUrl)
    case Failure(e) => e
    case Success(payload) =>
      var reply := gateway(payload);
      if !reply.status then GatewayError(reply)
      else Redirect(reply.authorizationUrl, reply.reference)
  }

  /** Whatever the gateway answers, vid1 is charged 50000 kobo and vid2 80000. */
  lemma CataloguePriceCharged(email: string, hostUrl: string)
    requires email != ""
    ensures Checkout(Some("vid1"), Some(email), hostUrl).Success?
    ensures Checkout(Some("vid1"), Some(email), hostUrl).value.amount == 50000
    ensures Checkout(Some("vid2"), Some(email), hostUrl).value.amount == 80000
  {
    CatalogueLookups();
  }

  /** The fields of `data` in the verify reply that the callback reads. */
  datatype VerifyData = VerifyData(status: string, customerEmail: string, amount: int, currency: string)

  /** The verify reply: `status` (as truthiness) and `data`. */
  datatype VerifyReply = VerifyReply(status: bool, data: VerifyData)

  /** The callback's test: the request succeeded and the transaction's own status is "success". */
  predicate Verified(reply: VerifyReply)
  {
    reply.status && reply.data.status == "success"
  }
}
