/** The purchase ledger and the gate in front of the protected videos. */
module Ledger {
  import opened Wrappers
  import opened Catalogue

  /** A `Purchase` row; `paidAt` is the clock reading when it was stored. */
  datatype Purchase = Purchase(videoId: string, customerEmail: string, reference: string,
                               amount: int, currency: string, paidAt: nat)

  /** The unique constraint on `Purchase.reference`. */
  ghost predicate UniqueReferences(ledger: seq<Purchase>)
  {
    forall i, j :: 0 <= i < j < |ledger| ==> ledger[i].reference != ledger[j].reference
  }

  /** Some row of the ledger already carries this reference. */
  predicate ReferenceTaken(ledger: seq<Purchase>, reference: string)
  {
    exists i :: 0 <= i < |ledger| && ledger[i].reference == reference
  }

  /** Appending a row with a fresh reference keeps the references unique. */
  lemma AppendKeepsUnique(ledger: seq<Purchase>, p: Purchase)
    requires UniqueReferences(ledger) && !ReferenceTaken(ledger, p.reference)
    ensures UniqueReferences(ledger + [p])
  {
  }

  /** Access to a video is granted by some row for that video and that email. */
  predicate Purchased(ledger: seq<Purchase>, videoId: string, email: string)
  {
    exists i :: 0 <= i < |ledger| && ledger[i].videoId == videoId && ledger[i].customerEmail == email
  }

  /** `Purchase.query.filter_by(video_id=..., customer_email=...).first()`. */
  function FirstPurchase(ledger: seq<Purchase>, videoId: string, email: string): (r: Option<Purchase>)
    ensures r.None? <==> !Purchased(ledger, videoId, email)
    ensures r.Some? ==> r.value in ledger && r.value.videoId == videoId && r.value.customerEmail == email
  {
    if ledger == [] then None
    else if ledger[0].videoId == videoId && ledger[0].customerEmail == email then Some(ledger[0])
    else
      var r := FirstPurchase(ledger[1..], videoId, email);
      assert forall k :: 1 <= k < |ledger| ==> ledger[k] == ledger[1..][k - 1];
      r
  }

  /** What GET /video/<video_id>?email=... answers. */
  datatype Access =
    | ProvideEmail             // 403 "Provide email"
    | NoPurchase               // 403 "No purchase found"
    | Serve(filename: string)  // the protected file with that name
    | MissingVideo             // 500: a purchase for an id outside the catalogue
  {
    function Status(): nat
    {
      match this
      case ProvideEmail => 403
      case NoPurchase => 403
      case Serve(_) => 200
      case MissingVideo => 500
    }
  }

  /** `serve_protected`: a file is released only to an email with a purchase of that video. */
  function ServeProtected(ledger: seq<Purchase>, videoId: string, email: Option<string>): (r: Access)
    ensures r == ProvideEmail <==> email.None? || email.value == ""
    ensures r == NoPurchase <==> email.Some? && email.value != "" && !Purchased(ledger, videoId, email.value)
    ensures r.Serve? <==> email.Some? && email.value != "" && Purchased(ledger, videoId, email.value)
                          && Find(VIDEOS, videoId).Some?
    ensures r.Serve? ==> r.filename == Find(VIDEOS, videoId).value.filename
    ensures r == MissingVideo <==> email.Some? && email.value != "" && Purchased(ledger, videoId, email.value)
                                   && Find(VIDEOS, videoId).None?
  {
    if email.None? || email.value == "" then ProvideEmail
    else if FirstPurchase(ledger, videoId, email.value).None? then NoPurchase
    else match Find(VIDEOS, videoId)
      case None => MissingVideo
      case Some(video) => Serve(video.filename)
  }

  /** Once an email holds a purchase of a video, further rows never change the gate's answer. */
  lemma GrantsPersist(ledger: seq<Purchase>, p: Purchase, videoId: string, email: Option<string>)
    requires email.Some? && Purchased(ledger, videoId, email.value)
    ensures ServeProtected(ledger + [p], videoId, email) == ServeProtected(ledger, videoId, email)
  {
    var k :| 0 <= k < |ledger| && ledger[k].videoId == videoId && ledger[k].customerEmail == email.value;
    assert (ledger + [p])[k] == ledger[k];
  }

  /** Recording a purchase for another video or another email does not change an answer. */
  lemma UnrelatedPurchase(ledger: seq<Purchase>, p: Purchase, videoId: string, email: Option<string>)
    requires email.Some? ==> p.videoId != videoId || p.customerEmail != email.value
    ensures ServeProtected(ledger + [p], videoId, email) == ServeProtected(ledger, videoId, email)
  {
    if email.Some? && email.value != "" {
      if Purchased(ledger + [p], videoId, email.value) {
        var k :| 0 <= k < |ledger + [p]| && (ledger + [p])[k].videoId == videoId
                 && (ledger + [p])[k].customerEmail == email.value;
        assert k < |ledger| && ledger[k] == (ledger + [p])[k];
      }
      if Purchased(ledger, videoId, email.value) {
        GrantsPersist(ledger, p, videoId, email);
      }
    }
  }

  /** A purchase row for a catalogue video opens that video's file to its buyer. */
  lemma PurchaseGrantsAccess(ledger: seq<Purchase>, p: Purchase)
    requires p.customerEmail != "" && Find(VIDEOS, p.videoId).Some?
    ensures ServeProtected(ledger + [p], p.videoId, Some(p.customerEmail))
            == Serve(Find(VIDEOS, p.videoId).value.filename)
  {
    assert (ledger + [p])[|ledger|] == p;
  }
}
