# Video gallery backend: a verified model

This project models the sequential logic under a small Flask video-hosting
demo. It has two parts.

- **The item store** (`app.py`). A module-level list of JSON objects, addressed
  by position. The routes list the items, append one, read one, merge an update
  into one, and delete one (later items shift down). An index past the end gets
  404 "Item not found". The model is the class `ItemStore.Store`. Its field
  `items: seq<Item>` is reassigned by one method per route. Flask's `<int:index>`
  converter matches only non-negative integers, so the index is a `nat`.
- **Purchase-gated access** (`templates/app.py`). This covers:
  - the upload file-name filter;
  - the fixed video catalogue;
  - the Paystack checkout validation and the payload it sends;
  - the callback that records a verified purchase;
  - the unique constraint on a purchase's reference;
  - the gate that releases a protected file only to a buyer;
  - the comment log, with its validation and its newest-first listing.

  The two database tables are the fields `purchases` and `comments` of the class
  `Database.Tables`. The methods that add rows update them. The read-only routes
  are functions over these sequences.

Everything outside the program is modelled as a parameter:
- The payment gateway is a function. For initialize it maps the payload to the
  reply (`Payload -> InitReply`). For verify it maps the reference to the reply
  (`string -> VerifyReply`). So a reply is always tied to what was sent.
- The clock (`datetime.utcnow`) is a `nat` argument named `now`.
- The request's host URL is a string argument.

Modules, in dependency order:
- `Wrappers`: Option, Result.
- `Json`: JSON values; an item is a `map<string, Value>`.
- `ItemStore`.
- `Text`: rfind, ASCII lower-casing, suffix test.
- `Upload`.
- `Catalogue`.
- `Payments`.
- `Ledger`.
- `Comments`.
- `Database`.

Three behaviours of the code are worth naming:
- **Gate with a purchase but no catalogue entry.** A purchase whose video id is
  not in `VIDEOS` makes `serve_protected` evaluate `None["filename"]`
  (templates/app.py:164-165). That is an unhandled error. The model answers
  `MissingVideo` with status 500.
- **Duplicate reference.** `Purchase.reference` is declared unique
  (templates/app.py:34). A callback that verifies a reference already in the
  ledger makes the commit at templates/app.py:132 raise, and nothing catches
  that. The model answers `DuplicateReference` with status 500 and leaves the
  ledger unchanged.
- **Video id in the callback.** The callback always records the video id
  `"vid1"`, whatever was bought. The model keeps this. The lemmas
  `Database.CallbackOpensOnlyVid1` and `Database.PaidForVid2Refused` show the
  consequence: a verified payment never opens any video other than vid1.

## Model

| member | source | states |
|---|---|---|
| `ItemStore.Merge` | app.py:46 | after `dict.update`, the keys are the union; every updated key has its new value; every other key keeps its old value |
| `ItemStore.Without` | app.py:56 | `pop(i)` shortens the list by one; items before `i` stay put; items after `i` move down by one; only `items[i]` is lost (multiset) |
| `ItemStore.DeleteUndoesAdd` | app.py:54-57 | deleting the last position right after an append gives back the list from before the append |
| `ItemStore.MergeIdempotent` | app.py:46 | repeating the same update a second time changes nothing |
| `ItemStore.Store.constructor` | app.py:13 | the store starts empty |
| `ItemStore.Store.GetItems` | app.py:17-19 | returns the whole list in insertion order, status 200, and changes nothing |
| `ItemStore.Store.AddItem` | app.py:23-27 | the list becomes the old list with the item appended; the reply is the item with 201 |
| `ItemStore.Store.GetItem` | app.py:31-37 | an index in range gives that item with 200; any other index gives 404 "Item not found"; the list is unchanged |
| `ItemStore.Store.UpdateItem` | app.py:41-49 | in range: that position becomes the merged item, every other position is unchanged, and the merged item is returned with 200; out of range: 404 and the list is unchanged |
| `ItemStore.Store.DeleteItem` | app.py:53-59 | in range: the old item is returned with 204 and later items shift down; out of range: 404 and the list is unchanged |
| `Text.Lower` | templates/app.py:57 | lower-casing keeps the length and lowers each character on its own |
| `Text.LowerChar` | templates/app.py:57 | the lowering of one character: A to Z become a to z, every other character is kept (only ASCII is lowered) |
| `Text.LastIndexOf` | templates/app.py:57 | no position exactly when the character does not occur; otherwise a position holding it with no occurrence after it |
| `Text.LastIndexOfUnique` | templates/app.py:57 | an occurrence with no later occurrence is the one found |
| `Text.LastOccurrenceUnique` | templates/app.py:57 | at most one occurrence of a character has no later occurrence |
| `Text.EndsWith` | templates/app.py:148 | `str.endswith`: the suffix is no longer than the string and matches its last characters one by one |
| `Text.EndsWithAppend` | templates/app.py:148 | a string ends with a suffix when it is some prefix followed by that suffix |
| `Text.EndsWithSplit` | templates/app.py:148 | a string that ends with a suffix is its own prefix followed by that suffix |
| `Upload.AllowedFile` | templates/app.py:56-57 | true exactly when some dot has no dot after it, and the lower-cased text after it is mp4, webm or ogg |
| `Upload.UpperCaseExtension` | templates/app.py:56-57 | "a.b.MP4" is allowed |
| `Upload.NoDot` | templates/app.py:56-57 | "mp4" is refused |
| `Upload.TrailingDot` | templates/app.py:56-57 | "a." is refused |
| `Upload.OnlyLastExtension` | templates/app.py:56-57 | "a.mp4.exe" is refused, because only the last extension counts |
| `Upload.UploadDecision` | templates/app.py:77-85 | no file or an empty name gives "No file" (400); otherwise "Invalid type" (400) exactly when the filter refuses the name; the upload is accepted (201) exactly when the filter allows it |
| `Catalogue.Find` | templates/app.py:98 | no result exactly when no entry has the id; otherwise the first entry with that id |
| `Catalogue.DistinctIds` | templates/app.py:50-53 | the demo catalogue's ids are distinct |
| `Catalogue.FindAt` | templates/app.py:98 | when ids are distinct, a lookup by an entry's id returns that entry |
| `Catalogue.CatalogueLookups` | templates/app.py:50-53 | vid1 costs 50000 kobo, vid2 costs 80000 kobo, and vid3 is unknown |
| `Payments.Checkout` | templates/app.py:94-109 | a missing or unknown video gives "Invalid video" before the email is checked; then a missing or empty email gives "Email required"; otherwise the payload carries the email, the catalogue price and the callback URL |
| `Payments.PaystackInit` | templates/app.py:110-114 | a validation error (400) is returned unchanged and the gateway is not consulted; otherwise a falsy status gives an error carrying the reply (400), and a truthy status gives the reply's authorization URL and reference (200) |
| `Payments.CataloguePriceCharged` | templates/app.py:105-109 | checkout of vid1 charges 50000 and of vid2 charges 80000, for any non-empty email |
| `Ledger.UniqueReferences` | templates/app.py:34 | the unique constraint on `Purchase.reference`: no two rows share a reference |
| `Ledger.Purchased` | templates/app.py:161 | some row matches both the video id and the customer email |
| `Ledger.ReferenceTaken` | templates/app.py:34 | some row already carries the reference, which is when the commit at templates/app.py:132 fails |
| `Ledger.AppendKeepsUnique` | templates/app.py:34 | adding a row with an unused reference keeps all references distinct |
| `Ledger.FirstPurchase` | templates/app.py:161 | no row exactly when no purchase matches both the video and the email; otherwise a ledger row matching both |
| `Ledger.ServeProtected` | templates/app.py:157-165 | a missing or empty email gives 403 "Provide email"; with no row matching video and email, 403 "No purchase found"; otherwise the catalogue file of that video (200), or the 500 crash when the id is not in the catalogue |
| `Ledger.GrantsPersist` | templates/app.py:161-165 | once an email holds a purchase of a video, more rows never change the gate's answer |
| `Ledger.UnrelatedPurchase` | templates/app.py:161-165 | a row for another video or another email does not change the gate's answer |
| `Ledger.PurchaseGrantsAccess` | templates/app.py:161-165 | a row for a catalogue video opens that video's file to its buyer |
| `Comments.Blank` | templates/app.py:146 | the falsiness test `not email` / `not content`: the field is missing or empty |
| `Comments.CheckComment` | templates/app.py:145-149 | a missing or empty email or content gives 400; otherwise a non-Gmail email gives 403; otherwise the comment is added (201) |
| `Comments.GmailAdmitted` | templates/app.py:148 | any address ending in "@gmail.com", including "@gmail.com" itself, is admitted when the content is non-empty |
| `Comments.NewestFirst` | templates/app.py:139 | the meaning of `order_by(Comment.created_at.desc())`: creation times never increase along the list |
| `Comments.OnVideo` | templates/app.py:139 | the filter keeps every comment on that video, as often as it occurs, and no other comment |
| `Comments.PrependNewest` | templates/app.py:139 | a comment at least as new as a newest-first list's head can go in front, and the list stays newest first |
| `Comments.Insert` | templates/app.py:139 | inserting into a newest-first list gives a newest-first list holding one more comment |
| `Comments.ByNewest` | templates/app.py:139 | the ordering is newest first and a permutation of its input |
| `Comments.GetComments` | templates/app.py:137-140 | the listing is newest first and holds exactly the stored comments on that video, each as often as stored |
| `Comments.ListedOnVideo` | templates/app.py:139 | every listed comment is in the log and is on the video asked for |
| `Comments.OnVideoAppend` | templates/app.py:139 | a new comment extends its own video's filtered list at the end and leaves the others as they were |
| `Comments.OtherVideosUnchanged` | templates/app.py:139-152 | a comment on one video leaves every other video's listing unchanged |
| `Comments.NewestComesFirst` | templates/app.py:139-152 | a comment newer than every stored comment heads its video's listing |
| `Payments.Verified` | templates/app.py:124 | a verify reply counts as paid exactly when its `status` is truthy and its transaction status is "success" |
| `Database.PurchaseFor` | templates/app.py:126-130 | the row the callback stores: video id "vid1", the given reference, and the gateway's email, amount and currency, stamped with the clock reading |
| `Database.Tables.Valid` | templates/app.py:34 | the class invariant: the ledger satisfies the unique constraint on references |
| `Database.Tables.constructor` | templates/app.py:46-47 | both tables start empty and satisfy the unique-reference constraint |
| `Database.Tables.AddPurchase` | templates/app.py:131-132 | the commit succeeds exactly when the reference is unused, and then adds exactly that row; otherwise the ledger is unchanged; the comments are never touched |
| `Database.Tables.PaystackCallback` | templates/app.py:117-134 | no reference gives 400 and no change; an unverified reply gives the cancel page (200) and no change; a verified unused reference adds exactly one row (vid1, the given reference, and the gateway's email, amount and currency) and gives the success page (200); a verified reused reference adds nothing and gives 500 |
| `Database.Tables.AddComment` | templates/app.py:143-153 | the reply is the validation outcome; exactly one comment is appended when it is "added", and nothing is stored otherwise; the purchases are untouched |
| `Database.CallbackGrantsVid1` | templates/app.py:126-133 | the callback's row opens sample1.mp4 to the customer the gateway names |
| `Database.CallbackOpensOnlyVid1` | templates/app.py:126 | the callback's row leaves the gate's answer for every video other than vid1 unchanged |
| `Database.PaidForVid2Refused` | templates/app.py:126 | a buyer with only a verified callback row is refused vid2 |

## Left out

- HTML and static serving are file-system I/O and are not modelled: `intro`, `website`, `serve_page`, `serve_video`, `serve_home`, `serve_static`, the HTML pages the callback sends, and the creation of the folders.
- The upload route is modelled only up to its decision. `secure_filename` is library code whose source is not visible, and `file.save` writes to disk. So the reply's URL is not modelled.
- The Paystack HTTP calls are network I/O. They become the `gateway` and `verify` function parameters. The authorization header and the secret key are not modelled. Neither call passes a timeout, so either can block without limit; the model sees only the reply.
- Failed gateway calls and malformed replies are not modelled. A connection error, or a reply body that is not JSON (`r.json()`), raises and gives 500. The reply's `status` is reduced to its truthiness. With a falsy status, neither route reads `data`: `paystack_init` answers 400 with the reply and the callback sends the cancel page. With a truthy status, a reply without `data` or without one of the keys the route reads raises a `KeyError` (500).
- The `Item` type is a JSON object, so the model excludes the other JSON values `add_item` accepts. The source appends any JSON value (an array, a number, a string, null) and answers 201. `get_items` and `get_item` then return that value. Only a later `update_item` on it fails, with an `AttributeError` in `dict.update` (500). JSON numbers are integers.
- `ItemStore.Store.UpdateItem`: the `updates` body is a JSON object. The source also accepts a JSON array of two-element arrays, which `dict.update` merges as key/value pairs (200). Most other non-object bodies make `dict.update` raise (500); an empty string, or an array whose elements are two-character strings, is merged as pairs too (200). The model covers none of these cases.
- Other malformed request bodies are not modelled. The fields are strings in the model. A body that does not parse as JSON gets 400 from Flask. A falsy non-string `email`, `video_id` or `content` is treated like a missing one (400). A truthy non-string value behaves as follows:
  - as `video_id`, it matches no catalogue id, so the answer is "Invalid video" (400);
  - as the checkout `email`, it goes into the payload as it is, and the gateway's reply decides the answer;
  - as the comment `email`, it makes `email.endswith` raise (500);
  - as `content`, a number or boolean is stored (201); an array or object is refused by the database driver at the commit (500).
- Persistence plumbing is not modelled: SQLAlchemy sessions, autoincrement ids, rollback after a failed commit, and the NOT NULL and length constraints on the columns. Each table is a sequence of rows in insertion order. `datetime.utcnow` becomes the `now` argument.
- `Comments.GetComments` returns the comment rows in listing order. The JSON projection to email, content and an ISO-8601 `created_at` is not modelled.
- `Comments.GetComments` leaves the order of comments with equal timestamps open, as SQL `ORDER BY ... DESC` does. The model's sort happens to keep log order, but the contract promises only newest-first order and the exact contents.
- `Text.Lower`: lower-cases only the ASCII letters A to Z, while Python's `str.lower` also lower-cases other Unicode letters.
- The user directory (registration and login) is not part of this model. Neither is `venv/gune`, a Blueprint wrapper around a controller whose source is not visible.
- Configuration and startup are not modelled: environment variables, the debug `print`, `app.run`, and `db.create_all` (beyond starting with empty tables).
- Concurrency is not modelled. The application's shared list and tables are used without locks, and a sequential model cannot capture that.
- `Ledger.ServeProtected`: the `Serve` outcome means `send_from_directory` is asked for the catalogue file. If that file is missing from the protected folder, Flask answers 404 instead. The model's status 200 assumes the file is present.
- Flask sends no body with a 204 reply. `ItemStore.Store.DeleteItem` still returns the deleted item, as the route passes it to `jsonify`.
