/**
 * The community discussion under a solution: posting comments and replies, likes,
 * the search-and-tag filter and the "most popular" ordering.
 */
module CommunityDiscussion {
  import opened Optional
  import opened Seqs
  import opened Text

  datatype Comment = Comment(
    id: string, userId: string, userName: string, userAvatar: Option<string>,
    content: string, createdAt: string, likes: int, dislikes: int,
    replies: seq<Comment>, isHighlighted: Option<bool>, tags: seq<string>)

  /** The signed-in user, as far as the discussion reads it. */
  datatype User = User(id: string, email: string, fullName: Option<string>)

  /** The tag filter's options; their values are plural. */
  datatype FilterBy = All | Solutions | Questions | Insights
  {
    function Value(): string
    {
      match this
      case All => "all"
      case Solutions => "solutions"
      case Questions => "questions"
      case Insights => "insights"
    }
  }

  /** The tags the posts actually carry, all singular. */
  predicate IsKnownTag(tag: string)
  {
    tag == "solution" || tag == "question" || tag == "insight" || tag == "serverless" || tag == "database"
  }

  /** `user_metadata.full_name || email || 'Anonymous'`. */
  function DisplayName(u: User): (name: string)
    ensures name != ""
    ensures u.fullName.Some? && u.fullName.value != "" ==> name == u.fullName.value
    ensures (u.fullName.None? || u.fullName.value == "") && u.email != "" ==> name == u.email
    ensures (u.fullName.None? || u.fullName.value == "") && u.email == "" ==> name == "Anonymous"
  {
    if u.fullName.Some? && u.fullName.value != "" then u.fullName.value
    else if u.email != "" then u.email
    else "Anonymous"
  }

  /** A freshly posted comment or reply: no votes, no replies, no tags, the text as typed. */
  function NewPost(u: User, id: string, content: string, createdAt: string): (c: Comment)
    ensures c.id == id && c.userId == u.id && c.userName == DisplayName(u)
    ensures c.content == content && c.createdAt == createdAt
    ensures c.likes == 0 && c.dislikes == 0 && c.replies == [] && c.tags == []
  {
    Comment(id, u.id, DisplayName(u), None, content, createdAt, 0, 0, [], None, [])
  }

  /** `comments.map(...)` of `handleSubmitReply`: `reply` goes to the end of each comment with id `parentId`. */
  function AddReply(comments: seq<Comment>, parentId: string, reply: Comment): (r: seq<Comment>)
    ensures |r| == |comments|
    ensures forall i :: 0 <= i < |r| ==> r[i].(replies := comments[i].replies) == comments[i]
    ensures forall i :: 0 <= i < |r| && comments[i].id == parentId ==>
      |r[i].replies| == |comments[i].replies| + 1 &&
      r[i].replies[..|comments[i].replies|] == comments[i].replies &&
      r[i].replies[|comments[i].replies|] == reply
    ensures forall i :: 0 <= i < |r| && comments[i].id != parentId ==> r[i] == comments[i]
  {
    seq(|comments|, i requires 0 <= i < |comments| =>
      if comments[i].id == parentId then comments[i].(replies := comments[i].replies + [reply])
      else comments[i])
  }

  /** `comments.map(...)` of a like: one more like on each comment with id `id`. */
  function LikeComment(comments: seq<Comment>, id: string): (r: seq<Comment>)
    ensures |r| == |comments|
    ensures forall i :: 0 <= i < |r| ==> r[i].(likes := comments[i].likes) == comments[i]
    ensures forall i :: 0 <= i < |r| ==>
      r[i].likes == comments[i].likes + (if comments[i].id == id then 1 else 0)
  {
    seq(|comments|, i requires 0 <= i < |comments| =>
      if comments[i].id == id then comments[i].(likes := comments[i].likes + 1) else comments[i])
  }

  /** A like on a reply: only the replies of the comments with id `parentId` are touched. */
  function LikeReply(comments: seq<Comment>, parentId: string, replyId: string): (r: seq<Comment>)
    ensures |r| == |comments|
    ensures forall i :: 0 <= i < |r| && comments[i].id != parentId ==> r[i] == comments[i]
    ensures forall i :: 0 <= i < |r| && comments[i].id == parentId ==>
      r[i] == comments[i].(replies := LikeComment(comments[i].replies, replyId))
  {
    seq(|comments|, i requires 0 <= i < |comments| =>
      if comments[i].id == parentId then comments[i].(replies := LikeComment(comments[i].replies, replyId))
      else comments[i])
  }

  function TotalLikes(comments: seq<Comment>): int
  {
    if comments == [] then 0 else comments[0].likes + TotalLikes(comments[1..])
  }

  function CountWithId(comments: seq<Comment>, id: string): nat
  {
    if comments == [] then 0
    else (if comments[0].id == id then 1 else 0) + CountWithId(comments[1..], id)
  }

  /** A like adds exactly one to the total for every comment carrying the id, and nothing else. */
  lemma {:induction false} LikeAddsOnePerMatch(comments: seq<Comment>, id: string)
    ensures TotalLikes(LikeComment(comments, id)) == TotalLikes(comments) + CountWithId(comments, id)
    decreases |comments|
  {
    if comments != [] {
      LikeAddsOnePerMatch(comments[1..], id);
      assert LikeComment(comments, id)[1..] == LikeComment(comments[1..], id);
    }
  }

  /** The comment is shown: its text contains the query (ignoring case), and it carries the selected tag. */
  predicate Visible(c: Comment, query: string, filterBy: FilterBy)
  {
    (query == "" || Includes(ToLower(c.content), ToLower(query))) &&
    (filterBy == All || filterBy.Value() in c.tags)
  }

  /** `filteredComments`. */
  function FilterComments(comments: seq<Comment>, query: string, filterBy: FilterBy): (r: seq<Comment>)
    ensures forall i :: 0 <= i < |r| ==> Visible(r[i], query, filterBy)
    ensures forall c {:trigger multiset(r)[c]} ::
      multiset(r)[c] == if Visible(c, query, filterBy) then multiset(comments)[c] else 0
    ensures IsSubsequence(r, comments)
  {
    Filter(comments, (c: Comment) => Visible(c, query, filterBy))
  }

  /** With no query and the "all" option nothing is filtered out. */
  lemma NoFilterKeepsAll(comments: seq<Comment>)
    ensures FilterComments(comments, "", All) == comments
  {
  }

  /**
   * The plural option values never equal the singular tags, so choosing any option but
   * "all" hides every comment tagged only with known tags.
   */
  lemma TagOptionsNeverMatch(c: Comment, query: string, filterBy: FilterBy)
    requires filterBy != All
    requires forall k :: 0 <= k < |c.tags| ==> IsKnownTag(c.tags[k])
    ensures !Visible(c, query, filterBy)
  {
  }

  /** A comment's popularity: likes minus dislikes. */
  function Score(c: Comment): int
  {
    c.likes - c.dislikes
  }

  /** Most popular first. */
  predicate SortedByScore(s: seq<Comment>)
  {
    forall i, j :: 0 <= i < j < |s| ==> Score(s[i]) >= Score(s[j])
  }

  /** Place `c` before the first comment that is not more popular than it. */
  function InsertByScore(c: Comment, sorted: seq<Comment>): (r: seq<Comment>)
    requires SortedByScore(sorted)
    ensures SortedByScore(r)
    ensures multiset(r) == multiset(sorted) + multiset{c}
    ensures |r| == |sorted| + 1
    ensures sorted == [] ==> r == [c]
    ensures sorted != [] ==> r[0] == c || r[0] == sorted[0]
  {
    if sorted == [] || Score(c) >= Score(sorted[0]) then [c] + sorted
    else
      var head, tail := sorted[0], sorted[1..];
      assert sorted == [head] + tail;
      var rest := InsertByScore(c, tail);
      assert Score(rest[0]) <= Score(head) by {
        if tail != [] { assert tail[0] == sorted[1]; }
      }
      var r := [head] + rest;
      assert SortedByScore(r) by {
        forall i, j | 0 <= i < j < |r| ensures Score(r[i]) >= Score(r[j]) {
          assert r[j] == rest[j - 1];
          if i == 0 {
            assert Score(rest[0]) >= Score(rest[j - 1]);
          } else {
            assert r[i] == rest[i - 1];
          }
        }
      }
      assert multiset(r) == multiset{head} + multiset(rest);
      r
  }

  /**
   * `[...filteredComments].sort(...)` with the 'popular' comparator: a sorted permutation
   * of a copy, equal scores keeping their relative order as in a stable sort.
   */
  function SortPopular(comments: seq<Comment>): (r: seq<Comment>)
    ensures SortedByScore(r)
    ensures multiset(r) == multiset(comments)
    ensures |r| == |comments|
  {
    if comments == [] then []
    else
      assert comments == [comments[0]] + comments[1..];
      InsertByScore(comments[0], SortPopular(comments[1..]))
  }

  /** A list already in popularity order is left exactly as it is. */
  lemma {:induction false} SortPopularKeepsSorted(comments: seq<Comment>)
    requires SortedByScore(comments)
    ensures SortPopular(comments) == comments
    decreases |comments|
  {
    if comments != [] {
      SortPopularKeepsSorted(comments[1..]);
      assert comments == [comments[0]] + comments[1..];
    }
  }

  /** Sorting twice is sorting once. */
  lemma SortPopularIdempotent(comments: seq<Comment>)
    ensures SortPopular(SortPopular(comments)) == SortPopular(comments)
  {
    SortPopularKeepsSorted(SortPopular(comments));
  }

  /** The discussion's state as the component holds it. */
  class Discussion {
    /** The signed-in user, if any. */
    const user: Option<User>
    var comments: seq<Comment>
    var newComment: string
    var replyingTo: Option<string>
    var replyContent: string

    /** The comments loaded for the challenge. */
    constructor (loaded: seq<Comment>, user: Option<User>)
      ensures comments == loaded && this.user == user
      ensures newComment == "" && replyingTo == None && replyContent == ""
    {
      comments := loaded;
      this.user := user;
      newComment := "";
      replyingTo := None;
      replyContent := "";
    }

    method SetNewComment(s: string)
      modifies this`newComment
      ensures newComment == s
    {
      newComment := s;
    }

    method SetReplyContent(s: string)
      modifies this`replyContent
      ensures replyContent == s
    {
      replyContent := s;
    }

    /** The Reply button of a top-level comment opens its reply box, or closes it when already open. */
    method ToggleReplying(id: string)
      modifies this`replyingTo
      ensures replyingTo == if old(replyingTo) == Some(id) then None else Some(id)
    {
      replyingTo := if replyingTo == Some(id) then None else Some(id);
    }

    /** The Cancel button of a reply box closes it; the typed reply stays. */
    method CancelReply()
      modifies this`replyingTo
      ensures replyingTo == None
    {
      replyingTo := None;
    }

    /** `handleSubmitComment`: prepend the typed text as a new comment, unless blank or signed out. */
    method SubmitComment(id: string, createdAt: string)
      modifies this`comments, this`newComment
      ensures Trim(old(newComment)) == "" || user.None? ==> unchanged(this)
      ensures Trim(old(newComment)) != "" && user.Some? ==>
        comments == [NewPost(user.value, id, old(newComment), createdAt)] + old(comments) &&
        newComment == ""
    {
      if Trim(newComment) == "" || user.None? {
        return;
      }
      var comment := NewPost(user.value, id, newComment, createdAt);
      comments := [comment] + comments;
      newComment := "";
    }

    /**
     * `handleSubmitReply(parentId)`: append the typed reply to the comment `parentId`. Its
     * id is `parentId` followed by a dash and `stamp`, the handler's clock reading.
     */
    method SubmitReply(parentId: string, stamp: string, createdAt: string)
      modifies this`comments, this`replyContent, this`replyingTo
      ensures Trim(old(replyContent)) == "" || user.None? ==> unchanged(this)
      ensures Trim(old(replyContent)) != "" && user.Some? ==>
        comments == AddReply(old(comments), parentId,
                             NewPost(user.value, parentId + "-" + stamp, old(replyContent), createdAt)) &&
        replyContent == "" && replyingTo == None
    {
      if Trim(replyContent) == "" || user.None? {
        return;
      }
      var reply := NewPost(user.value, parentId + "-" + stamp, replyContent, createdAt);
      comments := AddReply(comments, parentId, reply);
      replyContent := "";
      replyingTo := None;
    }

    /** `handleLike(commentId, isReply, parentId)`; an absent or empty `parentId` likes a top-level comment. */
    method Like(commentId: string, isReply: bool, parentId: Option<string>)
      modifies this`comments
      ensures user.None? ==> comments == old(comments)
      ensures user.Some? && isReply && parentId.Some? && parentId.value != "" ==>
        comments == LikeReply(old(comments), parentId.value, commentId)
      ensures user.Some? && !(isReply && parentId.Some? && parentId.value != "") ==>
        comments == LikeComment(old(comments), commentId)
    {
      if user.None? {
        return;
      }
      if isReply && parentId.Some? && parentId.value != "" {
        comments := LikeReply(comments, parentId.value, commentId);
      } else {
        comments := LikeComment(comments, commentId);
      }
    }
  }
}
