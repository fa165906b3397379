/** The comment log: validation of new comments and the per-video listing. */
module Comments {
  import opened Wrappers
  import opened Text

  /** A `Comment` row; `createdAt` is the clock reading when it was stored. */
  datatype Comment = Comment(videoId: string, email: string, content: string, createdAt: nat)

  const GMAIL_SUFFIX := "@gmail.com"

  /** What POST /comments/<video_id> answers. */
  datatype PostReply =
    | Added           // 201 {"msg": "Comment added"}
    | FieldsRequired  // 400 {"error": "Email and content required"}
    | GmailOnly       // 403 {"error": "Only Gmail accounts allowed"}
  {
    function Status(): nat
    {
      match this
      case Added => 201
      case FieldsRequired => 400
      case GmailOnly => 403
    }
  }

  /** A missing field and an empty one are both falsy in the source. */
  predicate Blank(field: Option<string>)
  {
    field.None? || field.value == ""
  }

  /** The checks of `add_comment`, in their order: both fields first, then the Gmail domain. */
  function CheckComment(email: Option<string>, content: Option<string>): (r: PostReply)
    ensures r == FieldsRequired <==> Blank(email) || Blank(content)
    ensures r == GmailOnly <==> !Blank(email) && !Blank(content) && !EndsWith(email.value, GMAIL_SUFFIX)
    ensures r == Added <==> !Blank(email) && !Blank(content) && EndsWith(email.value, GMAIL_SUFFIX)
  {
    if Blank(email) || Blank(content) then FieldsRequired
    else if !EndsWith(email.value, GMAIL_SUFFIX) then GmailOnly
    else Added
  }

  /** Any address at gmail.com is admitted, and a bare "@gmail.com" is too. */
  lemma GmailAdmitted(user: string, content: string)
    requires content != ""
    ensures CheckComment(Some(user + GMAIL_SUFFIX), Some(content)) == Added
  {
    EndsWithAppend(user, GMAIL_SUFFIX);
  }

  /** Newest first: creation times never increase along the list. */
  predicate NewestFirst(cs: seq<Comment>)
  {
    forall i, j :: 0 <= i < j < |cs| ==> cs[i].createdAt >= cs[j].createdAt
  }

  /** `filter_by(video_id=videoId)`: the comments on one video (`OnVideoAppend` shows they keep log order). */
  function OnVideo(cs: seq<Comment>, videoId: string): (r: seq<Comment>)
    ensures forall c :: multiset(r)[c] == if c.videoId == videoId then multiset(cs)[c] else 0
  {
    if cs == [] then []
    else
      var rest := OnVideo(cs[1..], videoId);
      assert cs == [cs[0]] + cs[1..];
      if cs[0].videoId == videoId then [cs[0]] + rest else rest
  }

  /** A comment at least as new as the head of a newest-first list can go in front of it. */
  lemma PrependNewest(c: Comment, s: seq<Comment>)
    requires NewestFirst(s) && (s == [] || c.createdAt >= s[0].createdAt)
    ensures NewestFirst([c] + s)
  {
    var r := [c] + s;
    forall i, j | 0 <= i < j < |r|
      ensures r[i].createdAt >= r[j].createdAt
    {
      assert r[j] == s[j - 1];
      if i > 0 {
        assert r[i] == s[i - 1];
      } else if j > 1 {
        assert s[0].createdAt >= s[j - 1].createdAt;
      }
    }
  }

  /** Inserts a comment into a newest-first list before the first one that is not newer. */
  function Insert(c: Comment, s: seq<Comment>): (r: seq<Comment>)
    requires NewestFirst(s)
    ensures NewestFirst(r)
    ensures multiset(r) == multiset(s) + multiset{c}
    ensures |r| > 0 && (r[0] == c || (s != [] && r[0] == s[0]))
  {
    if s == [] || c.createdAt >= s[0].createdAt then
      PrependNewest(c, s);
      [c] + s
    else
      assert s == [s[0]] + s[1..];
      var rest := Insert(c, s[1..]);
      PrependNewest(s[0], rest);
      [s[0]] + rest
  }

  /** `order_by(Comment.created_at.desc())`. */
  function ByNewest(cs: seq<Comment>): (r: seq<Comment>)
    ensures NewestFirst(r)
    ensures multiset(r) == multiset(cs)
  {
    if cs == [] then []
    else
      assert cs == [cs[0]] + cs[1..];
      Insert(cs[0], ByNewest(cs[1..]))
  }

  /**
    `get_comments`: exactly the comments on that video, each as often as it
    was stored, newest first.
  */
  function GetComments(log: seq<Comment>, videoId: string): (r: seq<Comment>)
    ensures NewestFirst(r)
    ensures forall c :: multiset(r)[c] == if c.videoId == videoId then multiset(log)[c] else 0
  {
    ByNewest(OnVideo(log, videoId))
  }

  /** Every listed comment belongs to the video asked for. */
  lemma ListedOnVideo(log: seq<Comment>, videoId: string, i: nat)
    requires i < |GetComments(log, videoId)|
    ensures GetComments(log, videoId)[i].videoId == videoId
    ensures GetComments(log, videoId)[i] in log
  {
    var r := GetComments(log, videoId);
    assert r[i] in multiset(r);
  }

  /** Appending to the log appends to the filtered list of that comment's video only. */
  lemma {:induction false} OnVideoAppend(log: seq<Comment>, c: Comment, videoId: string)
    ensures OnVideo(log + [c], videoId) == if c.videoId == videoId then OnVideo(log, videoId) + [c]
                                           else OnVideo(log, videoId)
  {
    if log == [] {
      assert log + [c] == [c];
      assert [c][1..] == [];
    } else {
      assert (log + [c])[0] == log[0];
      assert (log + [c])[1..] == log[1..] + [c];
      OnVideoAppend(log[1..], c, videoId);
    }
  }

  /** A comment on one video leaves every other video's listing as it was. */
  lemma OtherVideosUnchanged(log: seq<Comment>, c: Comment, videoId: string)
    requires c.videoId != videoId
    ensures GetComments(log + [c], videoId) == GetComments(log, videoId)
  {
    OnVideoAppend(log, c, videoId);
  }

  /** A comment newer than every stored one heads its video's listing. */
  lemma NewestComesFirst(log: seq<Comment>, c: Comment)
    requires forall d :: d in log ==> d.createdAt < c.createdAt
    ensures |GetComments(log + [c], c.videoId)| > 0
    ensures GetComments(log + [c], c.videoId)[0] == c
  {
    var r := GetComments(log + [c], c.videoId);
    assert multiset(log + [c])[c] > 0;
    assert c in multiset(r);
    var k :| 0 <= k < |r| && r[k] == c;
    assert r[0] in multiset(r);
  }
}
