/**
 * The challenge catalogue page: learning paths with their challenges, narrowed by a
 * free-text search, and the per-type wording of a challenge card.
 */
module ChallengesPage {
  import opened Optional
  import opened Seqs
  import opened Text

  /** A challenge, as far as the catalogue page reads it. */
  datatype Challenge = Challenge(id: string, title: string, description: string, challengeType: string)

  /** A learning path; its challenge list may be missing. */
  datatype LearningPath = LearningPath(
    id: string, title: string, description: string, icon: string,
    challenges: Option<seq<Challenge>>)

  /** The query occurs in the text, ignoring case. */
  predicate Mentions(text: string, query: string)
  {
    Includes(ToLower(text), ToLower(query))
  }

  predicate ChallengeMatches(c: Challenge, query: string)
  {
    Mentions(c.title, query) || Mentions(c.description, query)
  }

  predicate PathMatches(p: LearningPath, query: string)
  {
    Mentions(p.title, query) || Mentions(p.description, query)
  }

  /** `path.challenges?.filter(...) || []`: a missing list becomes empty. */
  function MatchingChallenges(p: LearningPath, query: string): (r: seq<Challenge>)
    ensures p.challenges.None? ==> r == []
    ensures p.challenges.Some? ==>
      IsSubsequence(r, p.challenges.value) &&
      (forall i :: 0 <= i < |r| ==> ChallengeMatches(r[i], query)) &&
      forall c {:trigger multiset(r)[c]} ::
        multiset(r)[c] == if ChallengeMatches(c, query) then multiset(p.challenges.value)[c] else 0
  {
    match p.challenges
    case None => []
    case Some(cs) => Filter(cs, (c: Challenge) => ChallengeMatches(c, query))
  }

  /** The first stage of `filteredPaths`: each path with its challenge list narrowed, the rest as it was. */
  function Narrowed(p: LearningPath, query: string): (r: LearningPath)
    ensures r.id == p.id && r.title == p.title && r.description == p.description && r.icon == p.icon
    ensures r.challenges == Some(MatchingChallenges(p, query))
  {
    p.(challenges := Some(MatchingChallenges(p, query)))
  }

  /** The second stage: every path is shown for a blank query, otherwise one that matches or still has challenges. */
  predicate Shown(p: LearningPath, query: string)
  {
    Trim(query) == "" || PathMatches(p, query) || (p.challenges.Some? && |p.challenges.value| > 0)
  }

  function NarrowAll(paths: seq<LearningPath>, query: string): (r: seq<LearningPath>)
    ensures |r| == |paths|
    ensures forall i :: 0 <= i < |r| ==> r[i] == Narrowed(paths[i], query)
  {
    seq(|paths|, i requires 0 <= i < |paths| => Narrowed(paths[i], query))
  }

  /** `filteredPaths`. */
  function FilteredPaths(paths: seq<LearningPath>, query: string): (r: seq<LearningPath>)
    ensures IsSubsequence(r, NarrowAll(paths, query))
    ensures forall k :: 0 <= k < |r| ==> Shown(r[k], query)
    ensures forall p {:trigger multiset(r)[p]} ::
      multiset(r)[p] == if Shown(p, query) then multiset(NarrowAll(paths, query))[p] else 0
  {
    Filter(NarrowAll(paths, query), (p: LearningPath) => Shown(p, query))
  }

  /** A blank query shows every path, in order, each with its narrowed challenge list. */
  lemma BlankQueryShowsEveryPath(paths: seq<LearningPath>, query: string)
    requires Trim(query) == ""
    ensures FilteredPaths(paths, query) == NarrowAll(paths, query)
  {
  }

  /** The empty query narrows nothing: every path and every challenge is shown. */
  lemma EmptyQueryShowsEverything(paths: seq<LearningPath>)
    ensures |FilteredPaths(paths, "")| == |paths|
    ensures forall i :: 0 <= i < |paths| ==>
      FilteredPaths(paths, "")[i] ==
        paths[i].(challenges := Some(if paths[i].challenges.Some? then paths[i].challenges.value else []))
  {
    assert Trim("") == "";
    BlankQueryShowsEveryPath(paths, "");
    forall i | 0 <= i < |paths| && paths[i].challenges.Some?
      ensures MatchingChallenges(paths[i], "") == paths[i].challenges.value
    {
      EverythingMentionsEmpty(paths[i].challenges.value);
    }
  }

  lemma EverythingMentionsEmpty(cs: seq<Challenge>)
    ensures Filter(cs, (c: Challenge) => ChallengeMatches(c, "")) == cs
  {
    assert ToLower("") == "";
    forall j | 0 <= j < |cs| ensures ChallengeMatches(cs[j], "") {
      assert Includes(ToLower(cs[j].title), "");
    }
  }

  /**
   * Under a non-blank query a path is shown exactly when its title or description mentions
   * the query or one of its challenges does.
   */
  lemma ShownUnderQuery(p: LearningPath, query: string)
    requires Trim(query) != ""
    ensures Shown(Narrowed(p, query), query) <==>
      PathMatches(p, query) ||
      (p.challenges.Some? && exists i :: 0 <= i < |p.challenges.value| && ChallengeMatches(p.challenges.value[i], query))
  {
    var m := MatchingChallenges(p, query);
    if p.challenges.Some? {
      var cs := p.challenges.value;
      if exists i :: 0 <= i < |cs| && ChallengeMatches(cs[i], query) {
        var i :| 0 <= i < |cs| && ChallengeMatches(cs[i], query);
        assert multiset(cs)[cs[i]] > 0;
        assert multiset(m)[cs[i]] > 0;
      }
      if |m| > 0 {
        assert ChallengeMatches(m[0], query);
        SubsequenceMembers(m, cs);
        assert m[0] in cs;
      }
    }
  }

  /** A text without a space never mentions a one-space query. */
  lemma NoSpaceNoMention(text: string)
    requires SpaceFree(text)
    ensures !Mentions(text, " ")
  {
    assert ToLower(" ") == " ";
    var lower := ToLower(text);
    forall k | 0 <= k <= |lower| ensures !StartsWith(lower[k..], " ") {
      if k < |lower| {
        assert lower[k..][..1][0] == lower[k];
      }
    }
    IncludesOnlyAtOffsets(lower, " ");
  }

  /** A text without a space. */
  predicate SpaceFree(text: string)
  {
    forall i :: 0 <= i < |text| ==> text[i] != ' '
  }

  /**
   * The challenge lists are narrowed even when the query is only blanks, which keeps every
   * path: under a one-space query a path whose challenges are worded without spaces is
   * shown with none of them.
   */
  lemma BlankQueryEmptiesChallengeLists(p: LearningPath)
    requires p.challenges.Some?
    requires forall i :: 0 <= i < |p.challenges.value| ==>
      SpaceFree(p.challenges.value[i].title) && SpaceFree(p.challenges.value[i].description)
    ensures FilteredPaths([p], " ") == [p.(challenges := Some([]))]
  {
    var cs := p.challenges.value;
    assert Trim(" ") == "" by {
      assert IsWhitespace(' ');
    }
    forall i | 0 <= i < |cs| ensures !ChallengeMatches(cs[i], " ") {
      NoSpaceNoMention(cs[i].title);
      NoSpaceNoMention(cs[i].description);
    }
    var m := MatchingChallenges(p, " ");
    assert m == [] by {
      forall c ensures multiset(m)[c] == 0 {
        if ChallengeMatches(c, " ") {
          assert c !in cs;
        }
      }
      assert multiset(m) == multiset{};
    }
    BlankQueryShowsEveryPath([p], " ");
    assert NarrowAll([p], " ") == [Narrowed(p, " ")];
  }

  /** `getChallengeTypeLabel`: the two named kinds get their own label, every other type reads as coding. */
  function TypeLabel(challengeType: string): (r: string)
    ensures r == "System Design" <==> challengeType == "system_design"
    ensures r == "Code Review" <==> challengeType == "code_review"
    ensures r == "Coding" <==> challengeType != "system_design" && challengeType != "code_review"
  {
    match challengeType
    case "system_design" => "System Design"
    case "code_review" => "Code Review"
    case _ => "Coding"
  }

  /** `getChallengeActionText`: the two named kinds get their own button text, every other type starts a coding challenge. */
  function ActionText(challengeType: string): (r: string)
    ensures r == "Design System" <==> challengeType == "system_design"
    ensures r == "Review Code" <==> challengeType == "code_review"
    ensures r == "Start Challenge" <==> challengeType != "system_design" && challengeType != "code_review"
  {
    match challengeType
    case "system_design" => "Design System"
    case "code_review" => "Review Code"
    case _ => "Start Challenge"
  }
}
