/** The document summary: in one request, or group by group when the parents are too long for one. */
module Summarizing {
  import opened Sequences
  import opened Packing
  import opened Rows

  const MAX_SINGLE_PASS_TOKENS: nat := 200_000
  const GROUP_BATCH_TOKENS: nat := 50_000

  function TokenCount(p: ParentRow): nat {
    p.tokens
  }

  function GroupText(group: seq<ParentRow>): string {
    Join("\n\n", Map(ContentOf, group))
  }

  /** Group g of n is numbered g + 1. */
  function GroupSummaries(ext: External, groups: seq<seq<ParentRow>>): (summaries: seq<GroupSummary>)
    ensures |summaries| == |groups|
    ensures forall g :: 0 <= g < |groups| ==> summaries[g] == ext.groupSummary(GroupText(groups[g]), g + 1, |groups|)
  {
    seq(|groups|, g requires 0 <= g < |groups| => ext.groupSummary(GroupText(groups[g]), g + 1, |groups|))
  }

  function Summarized(ext: External, parents: seq<ParentRow>): Summary {
    if Cost(parents, TokenCount) > MAX_SINGLE_PASS_TOKENS
    then ext.reduceSummary(GroupSummaries(ext, Greedy(parents, TokenCount, GROUP_BATCH_TOKENS)))
    else ext.documentSummary(GroupText(parents))
  }

  method HierarchicalSummarize(ext: External, parents: seq<ParentRow>) returns (summary: Summary)
    ensures summary == ext.reduceSummary(GroupSummaries(ext, Greedy(parents, TokenCount, GROUP_BATCH_TOKENS)))
  {
    var groups := Pack(parents, TokenCount, GROUP_BATCH_TOKENS);
    var summaries: seq<GroupSummary> := [];
    for g := 0 to |groups|
      invariant summaries == GroupSummaries(ext, groups)[..g]
    {
      summaries := summaries + [ext.groupSummary(GroupText(groups[g]), g + 1, |groups|)];
    }
    assert GroupSummaries(ext, groups)[..|groups|] == GroupSummaries(ext, groups);
    summary := ext.reduceSummary(summaries);
  }

  method Summarize(ext: External, parents: seq<ParentRow>) returns (summary: Summary)
    ensures summary == Summarized(ext, parents)
  {
    var total := 0;
    for i := 0 to |parents|
      invariant total == Cost(parents[..i], TokenCount)
    {
      assert parents[..i + 1][..i] == parents[..i];
      total := total + parents[i].tokens;
    }
    assert parents[..|parents|] == parents;
    if total > MAX_SINGLE_PASS_TOKENS {
      summary := HierarchicalSummarize(ext, parents);
    } else {
      summary := ext.documentSummary(GroupText(parents));
    }
  }

  /** The contents of some parents, with a blank line between any two. */
  function Joined(parents: seq<ParentRow>): string {
    Join("\n\n", seq(|parents|, i requires 0 <= i < |parents| => parents[i].content))
  }

  function TokensOf(parents: seq<ParentRow>): seq<nat> {
    seq(|parents|, i requires 0 <= i < |parents| => parents[i].tokens)
  }

  /** Group g of a division is summarized from its joined contents, as number g + 1 of all groups. */
  ghost predicate AnswersGroups(ext: External, groups: seq<seq<ParentRow>>, summaries: seq<GroupSummary>) {
    && |summaries| == |groups|
    && forall g :: 0 <= g < |groups| ==> summaries[g] == ext.groupSummary(Joined(groups[g]), g + 1, |groups|)
  }

  /**
   * The summary over the service itself. Up to 200,000 tokens: the answer for the joined contents of all
   * parents. Above: the reduced answers for groups that hold all parents in order, each with a sum of
   * tokens of at most 50,000 or with a single parent.
   */
  lemma SummarizedIs(ext: External, parents: seq<ParentRow>) returns (groups: seq<seq<ParentRow>>, summaries: seq<GroupSummary>)
    ensures Total(TokensOf(parents)) <= 200_000 ==> Summarized(ext, parents) == ext.documentSummary(Joined(parents))
    ensures Total(TokensOf(parents)) > 200_000 ==>
              && Summarized(ext, parents) == ext.reduceSummary(summaries)
              && AnswersGroups(ext, groups, summaries) && Concat(groups) == parents
              && forall g :: 0 <= g < |groups| ==>
                   |groups[g]| == 1 || (groups[g] != [] && Total(TokensOf(groups[g])) <= 50_000)
  {
    hide Greedy, Join;
    CostIsTotal(parents, TokenCount, TokensOf(parents));
    JoinedIs(parents);
    groups := Greedy(parents, TokenCount, GROUP_BATCH_TOKENS);
    summaries := GroupSummaries(ext, groups);
    GreedyIsPacking(parents, TokenCount, GROUP_BATCH_TOKENS);
    forall g | 0 <= g < |groups|
      ensures GroupText(groups[g]) == Joined(groups[g])
      ensures |groups[g]| == 1 || (groups[g] != [] && Total(TokensOf(groups[g])) <= 50_000)
    {
      JoinedIs(groups[g]);
      CostIsTotal(groups[g], TokenCount, TokensOf(groups[g]));
    }
  }

  lemma JoinedIs(parents: seq<ParentRow>)
    ensures GroupText(parents) == Joined(parents)
  {
    assert Map(ContentOf, parents) == seq(|parents|, i requires 0 <= i < |parents| => parents[i].content);
  }

  /**
   * Every parent is read exactly once, in order, by requests of at most 50,000 tokens or of a single
   * parent; no such grouping needs fewer requests, and their number is bounded by the total.
   */
  lemma GroupsCoverParents(parents: seq<ParentRow>, other: seq<seq<ParentRow>>)
    requires IsPacking(other, parents, TokenCount, GROUP_BATCH_TOKENS)
    ensures
      var groups := Greedy(parents, TokenCount, GROUP_BATCH_TOKENS);
      && IsPacking(groups, parents, TokenCount, GROUP_BATCH_TOKENS)
      && |groups| <= |other|
      && |groups| <= 2 * (Cost(parents, TokenCount) / (GROUP_BATCH_TOKENS + 1)) + 1
  {
    GreedyIsPacking(parents, TokenCount, GROUP_BATCH_TOKENS);
    GreedyIsOptimal(parents, TokenCount, GROUP_BATCH_TOKENS, other);
    GreedyCountBound(parents, TokenCount, GROUP_BATCH_TOKENS);
  }
}
