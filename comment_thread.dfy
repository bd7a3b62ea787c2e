/**
 * The comment thread under the record form (`CommentThread`): an ordered
 * list of comments, each owning an ordered list of replies, edited by five
 * handlers, and the relative-time label shown next to every entry.
 */
module CommentThread {
  import opened Ui
  import Text
  import Seqs

  /** The hard-coded name of the signed-in user, the author of everything added here. */
  const CurrentUser := "나"

  datatype Reply = Reply(id: int, author: string, content: string, createdAt: int)

  datatype Comment = Comment(id: int, author: string, content: string, createdAt: int, replies: seq<Reply>)

  /** `handleAddReply`'s map: reply r appended to every comment whose id is commentId. */
  function WithReply(cs: seq<Comment>, commentId: int, r: Reply): seq<Comment>
  {
    seq(|cs|, i requires 0 <= i < |cs| =>
      if cs[i].id == commentId then cs[i].(replies := cs[i].replies + [r]) else cs[i])
  }

  /** `handleDeleteComment`'s filter: every comment whose id is commentId removed. */
  function WithoutComment(cs: seq<Comment>, commentId: int): seq<Comment>
  {
    Seqs.Filter((c: Comment) => c.id != commentId, cs)
  }

  /** The replies of one comment without those whose id is replyId. */
  function RepliesWithout(rs: seq<Reply>, replyId: int): seq<Reply>
  {
    Seqs.Filter((r: Reply) => r.id != replyId, rs)
  }

  /** Removing the replies with id replyId keeps every other reply as many times as it occurs. */
  lemma RepliesWithoutCounts(rs: seq<Reply>, replyId: int)
    ensures forall r :: multiset(RepliesWithout(rs, replyId))[r] == if r.id != replyId then multiset(rs)[r] else 0
  {
    Seqs.FilterCounts((q: Reply) => q.id != replyId, rs);
  }

  /** `handleDeleteReply`'s map: replies with id replyId removed under every comment whose id is commentId. */
  function WithoutReply(cs: seq<Comment>, commentId: int, replyId: int): seq<Comment>
  {
    seq(|cs|, i requires 0 <= i < |cs| =>
      if cs[i].id == commentId then cs[i].(replies := RepliesWithout(cs[i].replies, replyId)) else cs[i])
  }

  /** The number of replies in the whole thread. */
  function TotalReplies(cs: seq<Comment>): nat
  {
    if cs == [] then 0 else |cs[0].replies| + TotalReplies(cs[1..])
  }

  /** The number of comments whose id is commentId. */
  function CountWithId(cs: seq<Comment>, commentId: int): nat
  {
    if cs == [] then 0 else (if cs[0].id == commentId then 1 else 0) + CountWithId(cs[1..], commentId)
  }

  /**
   * Adding a reply touches only the addressed comments: the list keeps its
   * length and order, every other comment is identical, and an addressed
   * comment keeps its id, author, text and time and gains r at the end of
   * its replies.
   */
  lemma AddReplyOnlyAddressed(cs: seq<Comment>, commentId: int, r: Reply)
    ensures |WithReply(cs, commentId, r)| == |cs|
    ensures forall i :: 0 <= i < |cs| && cs[i].id != commentId ==> WithReply(cs, commentId, r)[i] == cs[i]
    ensures forall i :: 0 <= i < |cs| && cs[i].id == commentId ==>
      WithReply(cs, commentId, r)[i] == cs[i].(replies := cs[i].replies + [r])
  {
  }

  /** The thread gains exactly one reply per comment carrying the addressed id (one, when ids are unique). */
  lemma {:induction false} AddReplyCount(cs: seq<Comment>, commentId: int, r: Reply)
    ensures TotalReplies(WithReply(cs, commentId, r)) == TotalReplies(cs) + CountWithId(cs, commentId)
  {
    if cs != [] {
      assert WithReply(cs, commentId, r)[1..] == WithReply(cs[1..], commentId, r);
      AddReplyCount(cs[1..], commentId, r);
    }
  }

  /**
   * Deleting a comment removes exactly the comments with that id, keeps all
   * others in their order, and looks at nothing else: whoever wrote the
   * comment, it goes.
   */
  lemma DeleteCommentExact(cs: seq<Comment>, commentId: int)
    ensures Seqs.SubseqOf(WithoutComment(cs, commentId), cs)
    ensures forall c :: c in WithoutComment(cs, commentId) <==> c in cs && c.id != commentId
    ensures forall c :: multiset(WithoutComment(cs, commentId))[c] == if c.id != commentId then multiset(cs)[c] else 0
    ensures forall c :: c in cs && c.author != CurrentUser && c.id == commentId ==> c !in WithoutComment(cs, commentId)
  {
    Seqs.FilterCounts((c: Comment) => c.id != commentId, cs);
  }

  /** Deleting an id no comment carries leaves the list as it was. */
  lemma DeleteMissingComment(cs: seq<Comment>, commentId: int)
    requires forall c :: c in cs ==> c.id != commentId
    ensures WithoutComment(cs, commentId) == cs
  {
    Seqs.FilterKeepsAll((c: Comment) => c.id != commentId, cs);
  }

  /** Deleting a just-added comment by its fresh id gives back the list before the addition. */
  lemma AddThenDeleteComment(cs: seq<Comment>, c: Comment)
    requires forall d :: d in cs ==> d.id != c.id
    ensures WithoutComment(cs + [c], c.id) == cs
  {
    Seqs.FilterAppend((d: Comment) => d.id != c.id, cs, c);
    DeleteMissingComment(cs, c.id);
  }

  /**
   * Deleting a reply changes only the addressed comments, and in them only
   * the replies: those with replyId go, the others stay in order and as
   * many times as they were there.
   */
  lemma DeleteReplyOnlyAddressed(cs: seq<Comment>, commentId: int, replyId: int)
    ensures |WithoutReply(cs, commentId, replyId)| == |cs|
    ensures forall i :: 0 <= i < |cs| && cs[i].id != commentId ==> WithoutReply(cs, commentId, replyId)[i] == cs[i]
    ensures forall i :: 0 <= i < |cs| && cs[i].id == commentId ==>
      var c := WithoutReply(cs, commentId, replyId)[i];
      && c == cs[i].(replies := c.replies)
      && Seqs.SubseqOf(c.replies, cs[i].replies)
      && forall r :: r in c.replies <==> r in cs[i].replies && r.id != replyId
    ensures forall i, r :: 0 <= i < |cs| && cs[i].id == commentId ==>
      multiset(WithoutReply(cs, commentId, replyId)[i].replies)[r] == if r.id != replyId then multiset(cs[i].replies)[r] else 0
  {
    forall i | 0 <= i < |cs| && cs[i].id == commentId {
      RepliesWithoutCounts(cs[i].replies, replyId);
    }
  }

  /**
   * Deleting a just-added reply by its fresh id gives back the thread before
   * the addition, provided no addressed comment already had a reply with that id.
   */
  lemma AddThenDeleteReply(cs: seq<Comment>, commentId: int, r: Reply)
    requires forall c, q :: c in cs && c.id == commentId && q in c.replies ==> q.id != r.id
    ensures WithoutReply(WithReply(cs, commentId, r), commentId, r.id) == cs
  {
    var out := WithoutReply(WithReply(cs, commentId, r), commentId, r.id);
    forall i | 0 <= i < |cs|
      ensures out[i] == cs[i]
    {
      if cs[i].id == commentId {
        var rs := cs[i].replies;
        Seqs.FilterAppend((q: Reply) => q.id != r.id, rs, r);
        Seqs.FilterKeepsAll((q: Reply) => q.id != r.id, rs);
        assert RepliesWithout(rs + [r], r.id) == rs;
      }
    }
  }

  /** What `formatTime` shows for an entry, by how long ago it was written. */
  datatype Elapsed = JustNow | MinutesAgo(minutes: int) | HoursAgo(hours: int) | OnDate

  /**
   * `formatTime`'s choice for an entry written at createdAt, seen at now:
   * under a minute "just now", under an hour the whole minutes (1 to 59),
   * under a day the whole hours (1 to 23), otherwise the calendar date. An
   * entry time in the future counts as just now.
   */
  function RelativeTime(createdAt: int, now: int): (e: Elapsed)
    ensures e == JustNow <==> now - createdAt < 60000
    ensures e.MinutesAgo? <==> 60000 <= now - createdAt < 3600000
    ensures e.MinutesAgo? ==>
      1 <= e.minutes <= 59 && e.minutes * 60000 <= now - createdAt < (e.minutes + 1) * 60000
    ensures e.HoursAgo? <==> 3600000 <= now - createdAt < 86400000
    ensures e.HoursAgo? ==>
      1 <= e.hours <= 23 && e.hours * 3600000 <= now - createdAt < (e.hours + 1) * 3600000
    ensures e == OnDate <==> 86400000 <= now - createdAt
  {
    var diff := now - createdAt;
    if diff < 60000 then JustNow
    else if diff < 3600000 then MinutesAgo(diff / 60000)
    else if diff < 86400000 then HoursAgo(diff / 3600000)
    else OnDate
  }

  /** Forty-five seconds ago is "just now"; ninety minutes ago is one hour ago. */
  lemma RelativeTimeSamples(now: int)
    ensures RelativeTime(now - 45000, now) == JustNow
    ensures RelativeTime(now - 90 * 60000, now) == HoursAgo(1)
  {
  }

  const JustNowText := "방금 전"
  const MinutesSuffix := "분 전"
  const HoursSuffix := "시간 전"

  /**
   * `formatTime`'s text: the count it shows reads back (with `parseInt`) as
   * the number of whole minutes or hours, followed by the unit; past a day
   * it is the locale date string, passed in as localeDate.
   */
  function FormatTime(createdAt: int, now: int, localeDate: string): (text: string)
    ensures RelativeTime(createdAt, now) == JustNow ==> text == JustNowText
    ensures RelativeTime(createdAt, now).MinutesAgo? ==>
      && Text.ParseInt(text) == Some(RelativeTime(createdAt, now).minutes)
      && |text| > |MinutesSuffix| && text[|text| - |MinutesSuffix|..] == MinutesSuffix
    ensures RelativeTime(createdAt, now).HoursAgo? ==>
      && Text.ParseInt(text) == Some(RelativeTime(createdAt, now).hours)
      && |text| > |HoursSuffix| && text[|text| - |HoursSuffix|..] == HoursSuffix
    ensures RelativeTime(createdAt, now) == OnDate ==> text == localeDate
  {
    match RelativeTime(createdAt, now)
    case JustNow => JustNowText
    case MinutesAgo(m) =>
      Text.ParseIntOfRendered(m, MinutesSuffix);
      Text.NatToString(m) + MinutesSuffix
    case HoursAgo(h) =>
      Text.ParseIntOfRendered(h, HoursSuffix);
      Text.NatToString(h) + HoursSuffix
    case OnDate => localeDate
  }

  /**
   * The thread's state: the comments, the new-comment input, the comment
   * being replied to (none when no reply box is open), and the reply input.
   */
  class Thread {
    var comments: seq<Comment>
    var newComment: string
    var replyTo: Option<int>
    var replyContent: string

    /** Opens with the given comments, empty inputs and no reply box. */
    constructor (initial: seq<Comment>)
      ensures comments == initial && newComment == "" && replyTo == None && replyContent == ""
    {
      comments, newComment, replyTo, replyContent := initial, "", None, "";
    }

    /** Typing in the comment input. */
    method SetNewComment(text: string)
      modifies this
      ensures newComment == text
      ensures comments == old(comments) && replyTo == old(replyTo) && replyContent == old(replyContent)
    {
      newComment := text;
    }

    /** "답글": opens the reply box under a comment. */
    method OpenReply(commentId: int)
      modifies this
      ensures replyTo == Some(commentId)
      ensures comments == old(comments) && newComment == old(newComment) && replyContent == old(replyContent)
    {
      replyTo := Some(commentId);
    }

    /** "취소" in the reply box: closes it, keeping what was typed. */
    method CancelReply()
      modifies this
      ensures replyTo == None
      ensures comments == old(comments) && newComment == old(newComment) && replyContent == old(replyContent)
    {
      replyTo := None;
    }

    /** Typing in the reply input. */
    method SetReplyContent(text: string)
      modifies this
      ensures replyContent == text
      ensures comments == old(comments) && newComment == old(newComment) && replyTo == old(replyTo)
    {
      replyContent := text;
    }

    /**
     * `handleAddComment`: a blank input changes nothing; otherwise one
     * comment by the current user, with the input as typed (untrimmed) and
     * no replies, is appended after the existing ones, and the input is
     * cleared. freshId and now stand for `Date.now()` and `new Date()`.
     */
    method AddComment(freshId: int, now: int)
      modifies this
      ensures Text.IsBlank(old(newComment)) ==> comments == old(comments) && newComment == old(newComment)
      ensures !Text.IsBlank(old(newComment)) ==>
        && comments == old(comments) + [Comment(freshId, CurrentUser, old(newComment), now, [])]
        && newComment == ""
      ensures replyTo == old(replyTo) && replyContent == old(replyContent)
    {
      if Text.Trim(newComment) == [] {
        return;
      }
      comments := comments + [Comment(freshId, CurrentUser, newComment, now, [])];
      newComment := "";
    }

    /**
     * `handleAddReply`: a blank reply changes nothing, not even the open
     * reply box; otherwise the reply (current user, text as typed) is
     * appended under every comment with that id, the box is closed and the
     * input cleared. The handler does not consult replyTo.
     */
    method AddReply(commentId: int, freshId: int, now: int)
      modifies this
      ensures Text.IsBlank(old(replyContent)) ==>
        comments == old(comments) && replyTo == old(replyTo) && replyContent == old(replyContent)
      ensures !Text.IsBlank(old(replyContent)) ==>
        && comments == WithReply(old(comments), commentId, Reply(freshId, CurrentUser, old(replyContent), now))
        && replyTo == None
        && replyContent == ""
      ensures newComment == old(newComment)
    {
      if Text.Trim(replyContent) == [] {
        return;
      }
      comments := WithReply(comments, commentId, Reply(freshId, CurrentUser, replyContent, now));
      replyTo := None;
      replyContent := "";
    }

    /** `handleDeleteComment`: no ownership check; only the list changes. */
    method DeleteComment(commentId: int)
      modifies this
      ensures comments == WithoutComment(old(comments), commentId)
      ensures newComment == old(newComment) && replyTo == old(replyTo) && replyContent == old(replyContent)
    {
      comments := WithoutComment(comments, commentId);
    }

    /** `handleDeleteReply`: no ownership check; only the list changes. */
    method DeleteReply(commentId: int, replyId: int)
      modifies this
      ensures comments == WithoutReply(old(comments), commentId, replyId)
      ensures newComment == old(newComment) && replyTo == old(replyTo) && replyContent == old(replyContent)
    {
      comments := WithoutReply(comments, commentId, replyId);
    }

    /**
     * `handleReport`: only a notification naming the reported user; the
     * thread is left as it is (the method modifies nothing).
     */
    method Report(userName: string) returns (title: string)
      ensures title == userName + "님을 신고했습니다."
    {
      title := userName + "님을 신고했습니다.";
    }
  }
}
