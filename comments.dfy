/** The comment section of a title page: relative times, the split of the
    live comment list into threads, and the form that posts comments and
    replies. The clock and the Firestore writes are inputs. */
module Comments {
  import opened Common
  import opened Strings
  import AuthContext

  // ---------------------------------------------------------------- relative time

  const MINUTE: int := 60000
  const HOUR: int := 60 * MINUTE
  const DAY: int := 24 * HOUR

  /** "`n` `word`(s) ago", with the plural exactly when `n` is above one. */
  function Unit(n: int, word: string): string {
    IntToString(n) + " " + word + (if n > 1 then "s" else "") + " ago"
  }

  /** The plural suffix appears exactly when the count exceeds one. */
  lemma UnitPlural(n: int, word: string)
    requires word != "" && word[|word| - 1] != 's'
    ensures EndsWith(Unit(n, word), "s ago") <==> n > 1
  {
    var u := Unit(n, word);
    var head := IntToString(n) + " " + word;
    if n > 1 {
      assert u == head + "s ago";
      assert u[|u| - 5..] == "s ago";
    } else {
      assert u == head + " ago";
      assert u[|u| - 5] == head[|head| - 1] == word[|word| - 1];
    }
  }

  /** `timeAgo(timestamp)`; `now` is the clock in milliseconds and a missing
      timestamp (a pending server time) reads "just now". */
  function TimeAgo(timestamp: Option<int>, now: int): string {
    if timestamp.None? then "just now"
    else
      var diffMs := now - timestamp.value;
      var mins := diffMs / MINUTE;
      var hours := mins / 60;
      var days := hours / 24;
      var months := days / 30;
      var years := days / 365;
      if years > 0 then Unit(years, "year")
      else if months > 0 then Unit(months, "month")
      else if days > 0 then Unit(days, "day")
      else if hours > 0 then Unit(hours, "hour")
      else if mins > 0 then Unit(mins, "minute")
      else "just now"
  }

  /** The nested floors of `timeAgo` against direct thresholds on the
      elapsed time: the largest unit that fits is reported; a timestamp
      less than a minute old, or in the future, reads "just now". */
  lemma TimeAgoThresholds(created: int, now: int)
    ensures var ms := now - created; var t := TimeAgo(Some(created), now);
      (ms >= 365 * DAY ==> t == Unit(ms / (365 * DAY), "year")) &&
      (30 * DAY <= ms < 365 * DAY ==> t == Unit(ms / (30 * DAY), "month")) &&
      (DAY <= ms < 30 * DAY ==> t == Unit(ms / DAY, "day")) &&
      (HOUR <= ms < DAY ==> t == Unit(ms / HOUR, "hour")) &&
      (MINUTE <= ms < HOUR ==> t == Unit(ms / MINUTE, "minute")) &&
      (ms < MINUTE ==> t == "just now")
  {
    var ms := now - created;
    var mins := ms / MINUTE;
    DivDiv(ms, MINUTE, 60);
    var hours := mins / 60;
    DivDiv(ms, HOUR, 24);
    var days := hours / 24;
    DivDiv(ms, DAY, 30);
    DivDiv(ms, DAY, 365);
    ThresholdFloor(ms, MINUTE);
    ThresholdFloor(ms, HOUR);
    ThresholdFloor(ms, DAY);
    ThresholdFloor(ms, 30 * DAY);
    ThresholdFloor(ms, 365 * DAY);
  }

  /** A floor is positive exactly when the dividend reaches the divisor. */
  lemma ThresholdFloor(a: int, d: int)
    requires d > 0
    ensures a / d > 0 <==> a >= d
  {
    if a >= d {
      assert d * (a / d) + a % d == a;
      assert a % d < d;
    }
  }

  // ---------------------------------------------------------------- threads

  datatype Comment = Comment(
    id: string,
    movieId: int,
    userId: string,
    userName: string,
    userAvatar: string,
    text: string,
    rating: int,
    parentId: Option<string>)

  predicate IsRoot(c: Comment) {
    !Truthy(c.parentId)
  }

  function RepliesTo(parent: string): Comment -> bool {
    (c: Comment) => c.parentId == Some(parent)
  }

  /** `rootComments`: the comments without a (truthy) parent, in snapshot order. */
  function RootComments(comments: seq<Comment>): (r: seq<Comment>)
    ensures forall c :: c in r <==> c in comments && IsRoot(c)
  {
    Filter(comments, IsRoot)
  }

  /** `getReplies(parent)`, in snapshot order. */
  function Replies(comments: seq<Comment>, parent: string): (r: seq<Comment>)
    ensures forall c :: c in r <==> c in comments && c.parentId == Some(parent)
  {
    Filter(comments, RepliesTo(parent))
  }

  /** Every comment is shown once: as a root, or under the parent it names.
      A reply whose parent id is empty is treated as a root. */
  lemma ThreadsPartition(comments: seq<Comment>, c: Comment, parent: string)
    requires c in comments
    ensures IsRoot(c) ==> c in RootComments(comments) && (parent != "" ==> c !in Replies(comments, parent))
    ensures !IsRoot(c) ==> c !in RootComments(comments) && c in Replies(comments, c.parentId.value)
    ensures c in Replies(comments, parent) && c in RootComments(comments) ==> parent == ""
  {
  }

  /** Both lists keep snapshot order: splitting the snapshot splits each list. */
  lemma ThreadsKeepOrder(comments: seq<Comment>, k: nat, parent: string)
    requires k <= |comments|
    ensures RootComments(comments) == RootComments(comments[..k]) + RootComments(comments[k..])
    ensures Replies(comments, parent) == Replies(comments[..k], parent) + Replies(comments[k..], parent)
  {
    assert comments == comments[..k] + comments[k..];
    FilterConcat(comments[..k], comments[k..], IsRoot);
    FilterConcat(comments[..k], comments[k..], RepliesTo(parent));
  }

  // ---------------------------------------------------------------- posting

  /** `isVerified`: signed in, with a document that is not a guest's. */
  predicate IsVerified(user: Option<string>, userData: Option<AuthContext.UserDoc>) {
    user.Some? && userData.Some? && userData.value.isGuest != Some(true)
  }

  /** A guest account can never post. */
  lemma GuestsAreNotVerified(uid: string, avatarDraw: nat, suffixDraw: nat, createdAt: string)
    requires avatarDraw < 12 && suffixDraw < 9000
    ensures !IsVerified(Some(uid), Some(AuthContext.GuestDoc(avatarDraw, suffixDraw, createdAt)))
  {
  }

  /** The fields `handleSubmit` sends to `addDoc` (the server timestamp aside). */
  datatype NewComment = NewComment(
    movieId: int,
    userId: string,
    userName: string,
    userAvatar: string,
    text: string,
    rating: int,
    parentId: Option<string>)

  predicate CanSubmit(text: string, user: Option<string>, userData: Option<AuthContext.UserDoc>) {
    Trim(text) != "" && user.Some? && userData.Some?
  }

  function CommentDoc(movieId: int, uid: string, userData: AuthContext.UserDoc, text: string,
                      rating: int, replyingTo: Option<string>): (d: NewComment)
    requires Trim(text) != ""
    ensures d.text == Trim(text) && !IsBlank(d.text)
    ensures d.parentId == replyingTo
    ensures Truthy(replyingTo) ==> d.rating == 0
    ensures !Truthy(replyingTo) ==> d.rating == rating
    ensures d.userName == (if Truthy(userData.name) then userData.name.value else "Anonymous")
    ensures d.userAvatar == (if Truthy(userData.avatar) then userData.avatar.value else "avatar_1")
  {
    TrimEmptyIffBlank(text);
    TrimHasNoOuterSpace(text);
    NewComment(movieId, uid, OrText(userData.name, "Anonymous"), OrText(userData.avatar, "avatar_1"),
      Trim(text), if Truthy(replyingTo) then 0 else rating, replyingTo)
  }

  /** The comment form's state. */
  class CommentForm {
    var newComment: string
    var rating: int
    var replyingTo: Option<string>
    var submitting: bool

    constructor ()
      ensures newComment == "" && rating == 0 && replyingTo.None? && !submitting
    {
      newComment, rating, replyingTo, submitting := "", 0, None, false;
    }

    /** `handleSubmit()`; `added` is the outcome of `addDoc`. Returns the
        document it tried to add, if any. */
    method HandleSubmit(movieId: int, user: Option<string>, userData: Option<AuthContext.UserDoc>, added: Sdk<()>)
      returns (sent: Option<NewComment>)
      modifies this
      ensures !CanSubmit(old(newComment), user, userData) ==>
        sent.None? && newComment == old(newComment) && rating == old(rating) &&
        replyingTo == old(replyingTo) && submitting == old(submitting)
      ensures CanSubmit(old(newComment), user, userData) ==>
        sent == Some(CommentDoc(movieId, user.value, userData.value, old(newComment), old(rating), old(replyingTo))) &&
        !submitting &&
        (added.Done? ==> newComment == "" && rating == 0 && replyingTo.None?) &&
        (added.Threw? ==> newComment == old(newComment) && rating == old(rating) && replyingTo == old(replyingTo))
    {
      if Trim(newComment) == "" || user.None? || userData.None? {
        return None;
      }
      submitting := true;
      sent := Some(CommentDoc(movieId, user.value, userData.value, newComment, rating, replyingTo));
      if added.Done? {
        newComment := "";
        rating := 0;
        replyingTo := None;
      }
      submitting := false;
    }

    /** `handleReply(parentId)`. */
    method HandleReply(parentId: string)
      modifies this`replyingTo, this`rating
      ensures replyingTo == Some(parentId) && rating == 0
    {
      replyingTo := Some(parentId);
      rating := 0;
    }

    /** `cancelReply()`. */
    method CancelReply()
      modifies this`replyingTo, this`rating
      ensures replyingTo.None? && rating == 0
    {
      replyingTo := None;
      rating := 0;
    }
  }
}
