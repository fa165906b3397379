/**
  The two persisted tables, `Purchase` and `Comment`, and the routes that
  add rows to them. Each table is the sequence of its rows in insertion order.
*/
module Database {
  import opened Wrappers
  import opened Payments
  import opened Ledger
  import opened Comments

  /** The video id the callback records, whatever was bought. */
  const CALLBACK_VIDEO_ID := "vid1"

  /** The row the callback stores for a verified transaction. */
  function PurchaseFor(reference: string, data: VerifyData, now: nat): Purchase
  {
    Purchase(CALLBACK_VIDEO_ID, data.customerEmail, reference, data.amount, data.currency, now)
  }

  /** What GET /paystack/callback answers. */
  datatype CallbackPage =
    | NoReference         // 400 "No reference"
    | SuccessPage         // success.html
    | CancelPage          // cancel.html
    | DuplicateReference  // 500: the unique constraint on the reference rejects the commit
  {
    function Status(): nat
    {
      match this
      case NoReference => 400
      case SuccessPage => 200
      case CancelPage => 200
      case DuplicateReference => 500
    }
  }

  class Tables {
    var purchases: seq<Purchase>
    var comments: seq<Comment>

    /** The database's own constraint: no two purchases share a reference. */
    ghost predicate Valid()
      reads this
    {
      UniqueReferences(purchases)
    }

    /** `db.create_all()` on an empty database. */
    constructor ()
      ensures Valid() && purchases == [] && comments == []
    {
      purchases, comments := [], [];
    }

    /** `db.session.add(p); db.session.commit()` under the unique constraint on the reference. */
    method AddPurchase(p: Purchase) returns (ok: bool)
      requires Valid()
      modifies this
      ensures Valid()
      ensures ok <==> !ReferenceTaken(old(purchases), p.reference)
      ensures purchases == if ok then old(purchases) + [p] else old(purchases)
      ensures comments == old(comments)
    {
      ok := !ReferenceTaken(purchases, p.reference);
      if ok {
        AppendKeepsUnique(purchases, p);
        purchases := purchases + [p];
      }
    }

    /**
      `paystack_callback`: with a reference, ask the gateway to verify it; on
      success record one purchase of vid1 for the customer the gateway names.
    */
    method PaystackCallback(reference: Option<string>, verify: string -> VerifyReply, now: nat)
      returns (page: CallbackPage)
      requires Valid()
      modifies this
      ensures Valid()
      ensures comments == old(comments)
      ensures (reference.None? || reference.value == "") ==> page == NoReference && purchases == old(purchases)
      ensures (reference.Some? && reference.value != "" && !Verified(verify(reference.value)))
                ==> page == CancelPage && purchases == old(purchases)
      ensures page == SuccessPage <==>
                reference.Some? && reference.value != "" && Verified(verify(reference.value))
                && !ReferenceTaken(old(purchases), reference.value)
      ensures page == SuccessPage ==>
                purchases == old(purchases) + [PurchaseFor(reference.value, verify(reference.value).data, now)]
      ensures page == DuplicateReference <==>
                reference.Some? && reference.value != "" && Verified(verify(reference.value))
                && ReferenceTaken(old(purchases), reference.value)
      ensures page == DuplicateReference ==> purchases == old(purchases)
    {
      if reference.None? || reference.value == "" {
        return NoReference;
      }
      var ref := reference.value;
      var reply := verify(ref);
      if Verified(reply) {
        var ok := AddPurchase(PurchaseFor(ref, reply.data, now));
        page := if ok then SuccessPage else DuplicateReference;
      } else {
        page := CancelPage;
      }
    }

    /** `add_comment`: validate, then store one comment stamped with the clock reading. */
    method AddComment(videoId: string, email: Option<string>, content: Option<string>, now: nat)
      returns (r: PostReply)
      requires Valid()
      modifies this
      ensures Valid()
      ensures r == CheckComment(email, content)
      ensures purchases == old(purchases)
      ensures r == Added ==> comments == old(comments) + [Comment(videoId, email.value, content.value, now)]
      ensures r != Added ==> comments == old(comments)
    {
      r := CheckComment(email, content);
      if r == Added {
        comments := comments + [Comment(videoId, email.value, content.value, now)];
      }
    }
  }

  /** The callback's row grants its buyer vid1's file. */
  lemma CallbackGrantsVid1(ledger: seq<Purchase>, reference: string, data: VerifyData, now: nat)
    requires data.customerEmail != ""
    ensures ServeProtected(ledger + [PurchaseFor(reference, data, now)], "vid1", Some(data.customerEmail))
            == Serve("sample1.mp4")
  {
    Catalogue.CatalogueLookups();
    PurchaseGrantsAccess(ledger, PurchaseFor(reference, data, now));
  }

  /** Since the callback always records vid1, no callback ever opens any other video. */
  lemma CallbackOpensOnlyVid1(ledger: seq<Purchase>, reference: string, data: VerifyData, now: nat,
                              videoId: string, email: Option<string>)
    requires videoId != CALLBACK_VIDEO_ID
    ensures ServeProtected(ledger + [PurchaseFor(reference, data, now)], videoId, email)
            == ServeProtected(ledger, videoId, email)
  {
    UnrelatedPurchase(ledger, PurchaseFor(reference, data, now), videoId, email);
  }

  /** A buyer of vid2 whose payment went through is still refused vid2. */
  lemma PaidForVid2Refused(reference: string, data: VerifyData, now: nat)
    requires data.customerEmail != ""
    ensures ServeProtected([PurchaseFor(reference, data, now)], "vid2", Some(data.customerEmail)) == NoPurchase
  {
    CallbackOpensOnlyVid1([], reference, data, now, "vid2", Some(data.customerEmail));
  }

  /** A scenario: a purchase verified twice is recorded once, and only valid comments are stored and listed. */
  method Scenario(verify: string -> VerifyReply)
    requires Verified(verify("ref-1"))
  {
    var db := new Tables();
    var page := db.PaystackCallback(Some("ref-1"), verify, 10);
    assert page == SuccessPage && |db.purchases| == 1;
    assert db.purchases[0].reference == "ref-1";
    page := db.PaystackCallback(Some("ref-1"), verify, 11);
    assert page == DuplicateReference && |db.purchases| == 1;
    page := db.PaystackCallback(None, verify, 12);
    assert page == NoReference;

    var r := db.AddComment("vid1", Some("a@gmail.com"), Some("first"), 20);
    assert r == Added by { GmailAdmitted("a", "first"); }
    r := db.AddComment("vid1", Some("a@yahoo.com"), Some("spam"), 21);
    assert r == GmailOnly;
    r := db.AddComment("vid1", Some(""), Some("blank"), 22);
    assert r == FieldsRequired;
    assert db.comments == [] + [Comment("vid1", "a@gmail.com", "first", 20)];
    NewestComesFirst([], Comment("vid1", "a@gmail.com", "first", 20));
    assert GetComments(db.comments, "vid1")[0].content == "first";
  }
}
