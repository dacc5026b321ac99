/** The winner of a proposal: the option with the most votes, ties going to
    the lowest index, and option 0 when no option has a vote. */
module Tally {
  import opened DaoTypes

  /** No option has a vote (this includes a proposal without options). */
  predicate AllZero(options: seq<ProposalOption>)
  {
    forall j :: 0 <= j < |options| ==> options[j].voteCount == 0
  }

  /** `k` is the intended winner: 0 when no option has a vote, otherwise an
      option whose tally no other option exceeds and that no earlier option
      equals. */
  predicate IsLeader(options: seq<ProposalOption>, k: nat)
  {
    if AllZero(options) then k == 0
    else
      k < |options|
      && (forall j :: 0 <= j < |options| ==> options[j].voteCount <= options[k].voteCount)
      && (forall j :: 0 <= j < k ==> options[j].voteCount < options[k].voteCount)
  }

  /** The largest tally, 0 for a proposal without options. */
  function MaxTally(options: seq<ProposalOption>): (m: u64)
    ensures forall j :: 0 <= j < |options| ==> options[j].voteCount <= m
    ensures m == 0 || exists j :: 0 <= j < |options| && options[j].voteCount == m
  {
    if options == [] then 0
    else
      var rest := MaxTally(options[..|options| - 1]);
      var last := options[|options| - 1].voteCount;
      if last > rest then last else rest
  }

  /** The first index whose tally is `m`, or `|options|` when there is none. */
  function FirstIndexOf(options: seq<ProposalOption>, m: u64): (k: nat)
    ensures k <= |options|
    ensures k < |options| ==> options[k].voteCount == m
    ensures forall j :: 0 <= j < k ==> options[j].voteCount != m
  {
    if options == [] then 0
    else if options[0].voteCount == m then 0
    else 1 + FirstIndexOf(options[1..], m)
  }

  /** The intended winner, as an unbounded index. */
  function Leader(options: seq<ProposalOption>): (k: nat)
    ensures IsLeader(options, k)
  {
    var m := MaxTally(options);
    if m == 0 then 0 else FirstIndexOf(options, m)
  }

  /** `IsLeader` picks exactly one index. */
  lemma LeaderUnique(options: seq<ProposalOption>, k: nat)
    requires IsLeader(options, k)
    ensures k == Leader(options)
  {
  }

  /** The index the finalize step stores: the leader's index cast to `u8`,
      which keeps its low eight bits. */
  function Winner(options: seq<ProposalOption>): (w: u8)
    ensures w == Leader(options) % 256
    ensures |options| <= 256 ==> IsLeader(options, w)
  {
    Leader(options) % 256
  }

  /** The scan of the finalize step: walk the options in order and move the
      running winner only on a strictly greater tally, starting from a
      maximum of 0 and a winner of 0. */
  method FindWinner(options: seq<ProposalOption>) returns (winner: u8)
    ensures winner == Winner(options)
    ensures |options| <= 256 ==> IsLeader(options, winner)
  {
    var maxVotes: u64 := 0;
    winner := 0;
    ghost var lead: nat := 0;
    for i := 0 to |options|
      invariant forall j :: 0 <= j < i ==> options[j].voteCount <= maxVotes
      invariant maxVotes == 0 ==> lead == 0
      invariant maxVotes > 0 ==> lead < i && options[lead].voteCount == maxVotes
      invariant forall j :: 0 <= j < lead ==> options[j].voteCount < maxVotes
      invariant winner == lead % 256
    {
      if options[i].voteCount > maxVotes {
        maxVotes := options[i].voteCount;
        winner := i % 256;
        lead := i;
      }
    }
    assert IsLeader(options, lead) by {
      if !AllZero(options) {
        var j :| 0 <= j < |options| && options[j].voteCount != 0;
        assert maxVotes > 0;
      }
    }
    LeaderUnique(options, lead);
  }

  /** An option with an empty label and tally `n`. */
  function Tallied(n: u64): ProposalOption
  {
    ProposalOption("", n)
  }

  /** The tie-break rule on three small tally lists. */
  lemma WinnerExamples()
    ensures Winner([Tallied(3), Tallied(3), Tallied(1)]) == 0
    ensures Winner([Tallied(0), Tallied(0), Tallied(0)]) == 0
    ensures Winner([Tallied(1), Tallied(5), Tallied(5)]) == 1
  {
  }
}
