/** Properties of whole sequences of transactions against one proposal: the
    ledger runs them one after another, each either committing or changing
    nothing. */
module Traces {
  import opened DaoTypes
  import opened Tally
  import opened Lifecycle

  /** One transaction sent to an existing proposal. A ballot carries the
      member list of the membership account the transaction presents: the
      program does not tie that account to the proposal's organization, so
      each ballot may present a different one. */
  datatype Op =
    | CastVote(voter: Pubkey, optionIndex: u8, members: seq<Pubkey>)
    | Finalize(now: i64)
    | Execute(remaining: seq<Pubkey>, invoke: Instruction -> bool)

  function Step(p: ProposalRecord, op: Op): Execution
  {
    match op
    case CastVote(voter, idx, members) => Execution(Vote(p, members, voter, idx), [])
    case Finalize(now) => Execution(VoteCount(p, now), [])
    case Execute(remaining, invoke) => ExecuteProposal(p, remaining, invoke)
  }

  /** The proposal after one transaction. */
  function After(p: ProposalRecord, op: Op): ProposalRecord
  {
    Commit(p, Step(p, op).result)
  }

  /** The proposal after running `ops` in order. */
  function Run(p: ProposalRecord, ops: seq<Op>): ProposalRecord
    decreases |ops|
  {
    if ops == [] then p
    else Run(After(p, ops[0]), ops[1..])
  }

  /** Every instruction dispatched to another program while running `ops`,
      whether or not it succeeded. */
  function Calls(p: ProposalRecord, ops: seq<Op>): seq<Instruction>
    decreases |ops|
  {
    if ops == [] then []
    else Step(p, ops[0]).calls + Calls(After(p, ops[0]), ops[1..])
  }

  /** How many dispatched instructions succeeded and so took effect. */
  function Effects(p: ProposalRecord, ops: seq<Op>): nat
    decreases |ops|
  {
    if ops == [] then 0
    else
      var x := Step(p, ops[0]);
      (if x.result.Ok? && x.calls != [] then 1 else 0) + Effects(After(p, ops[0]), ops[1..])
  }

  /** What every transaction preserves, whatever membership accounts its
      ballots present: no key is among the voters twice, and a proposal is
      executed only once a winner is stored. */
  predicate Sound(p: ProposalRecord)
  {
    && NoDuplicates(p.voters)
    && (p.executed ==> p.winnerIndex.Some?)
  }

  /** Every voter is in `members`. */
  predicate VotersAmong(p: ProposalRecord, members: seq<Pubkey>)
  {
    forall i :: 0 <= i < |p.voters| ==> p.voters[i] in members
  }

  /** Every ballot in `ops` presents the member list `members`. The program
      does not enforce this. */
  predicate PresentsOnly(ops: seq<Op>, members: seq<Pubkey>)
  {
    forall i :: 0 <= i < |ops| && ops[i].CastVote? ==> ops[i].members == members
  }

  /** A proposal just created from a zeroed account is sound, has no voters
      and no winner, and its window is open for exactly `VOTING_PERIOD`
      seconds. */
  lemma CreatedIsSound(
    members: seq<Pubkey>, signer: Pubkey, daoKey: Pubkey, title: string,
    description: string, programId: Pubkey, data: seq<u8>,
    options: seq<ProposalOption>, proposer: Pubkey, now: i64)
    requires now <= I64_MAX - VOTING_PERIOD
    requires signer in members
    ensures
      var r := CreateProposal(ZeroProposal(), members, signer, daoKey, title, description,
                              programId, data, options, proposer, now);
      && r.Ok?
      && Sound(r.value)
      && r.value.voters == [] && r.value.winnerIndex == None
      && r.value.startTime < r.value.endTime
  {
  }

  /** `q` differs from `p` only in what later transactions may add: the voters
      of `p` come first in `q`, the option list keeps its length and labels,
      no tally falls, a stored winner stays stored, an executed proposal stays
      executed and keeps its winner, and the organization key, proposer, content and window are
      untouched. */
  predicate Grows(p: ProposalRecord, q: ProposalRecord)
  {
    && |p.voters| <= |q.voters| && q.voters[..|p.voters|] == p.voters
    && |q.options| == |p.options|
    && (forall j :: 0 <= j < |p.options| ==> q.options[j].text == p.options[j].text)
    && (forall j :: 0 <= j < |p.options| ==> p.options[j].voteCount <= q.options[j].voteCount)
    && (p.winnerIndex.Some? ==> q.winnerIndex.Some?)
    && (p.executed ==> q.executed && q.winnerIndex == p.winnerIndex)
    && q.dao == p.dao && q.proposer == p.proposer
    && q.title == p.title && q.description == p.description
    && q.programId == p.programId && q.data == p.data
    && q.startTime == p.startTime && q.endTime == p.endTime
  }

  lemma StepKeepsSound(p: ProposalRecord, op: Op)
    requires Sound(p)
    ensures Sound(After(p, op))
  {
  }

  /** Any sequence of transactions keeps a proposal sound. */
  lemma {:induction false} RunKeepsSound(p: ProposalRecord, ops: seq<Op>)
    requires Sound(p)
    ensures Sound(Run(p, ops))
    decreases |ops|
  {
    if ops != [] {
      StepKeepsSound(p, ops[0]);
      RunKeepsSound(After(p, ops[0]), ops[1..]);
    }
  }

  /** Voters stay within `members` as long as every ballot presents
      `members`. */
  lemma {:induction false} RunKeepsVotersAmong(p: ProposalRecord, members: seq<Pubkey>, ops: seq<Op>)
    requires VotersAmong(p, members)
    requires PresentsOnly(ops, members)
    ensures VotersAmong(Run(p, ops), members)
    decreases |ops|
  {
    if ops != [] {
      assert PresentsOnly(ops[1..], members) by {
        forall i | 0 <= i < |ops[1..]| && ops[1..][i].CastVote?
          ensures ops[1..][i].members == members
        {
          assert ops[1..][i] == ops[i + 1];
        }
      }
      assert ops[0].CastVote? ==> ops[0].members == members;
      RunKeepsVotersAmong(After(p, ops[0]), members, ops[1..]);
    }
  }

  /** Every voter a run adds cast a ballot in that run, and the membership
      account that ballot presented listed the voter. */
  lemma {:induction false} VotersFromBallots(p: ProposalRecord, ops: seq<Op>, v: Pubkey)
    requires v in Run(p, ops).voters && v !in p.voters
    ensures exists i :: 0 <= i < |ops| && ops[i].CastVote? && ops[i].voter == v && v in ops[i].members
    decreases |ops|
  {
    if ops == [] {
      assert false;
    } else {
      var q := After(p, ops[0]);
      if v in q.voters {
        assert ops[0].CastVote? && ops[0].voter == v && v in ops[0].members;
      } else {
        VotersFromBallots(q, ops[1..], v);
        var i :| 0 <= i < |ops[1..]| && ops[1..][i].CastVote? && ops[1..][i].voter == v && v in ops[1..][i].members;
        assert ops[i + 1] == ops[1..][i];
      }
    }
  }

  /** A ballot that presents another membership account is judged against
      that account: a key outside the organization [1, 2] that lists itself
      in a registry of its own becomes a voter. */
  lemma ForeignRegistryBallot()
    ensures
      var p := ZeroProposal().(options := [ProposalOption("Yes", 0)]);
      var q := Run(p, [CastVote(5, 0, [5, 6])]);
      && VotersAmong(p, [1, 2])
      && q.voters == [5] && 5 !in [1, 2]
      && !VotersAmong(q, [1, 2])
  {
  }

  lemma GrowsTransitive(p: ProposalRecord, q: ProposalRecord, s: ProposalRecord)
    requires Grows(p, q) && Grows(q, s)
    ensures Grows(p, s)
  {
  }

  lemma StepGrows(p: ProposalRecord, op: Op)
    ensures Grows(p, After(p, op))
  {
  }

  /** No sequence of transactions removes a voter, relabels or drops an
      option, lowers a tally, clears a stored winner or un-executes a
      proposal, and none touches its organization key, proposer, content or
      window. */
  lemma {:induction false} RunGrows(p: ProposalRecord, ops: seq<Op>)
    ensures Grows(p, Run(p, ops))
    decreases |ops|
  {
    if ops != [] {
      var q := After(p, ops[0]);
      StepGrows(p, ops[0]);
      RunGrows(q, ops[1..]);
      GrowsTransitive(p, q, Run(q, ops[1..]));
    }
  }

  /** Changing one option's tally changes the sum of tallies by the same amount. */
  lemma {:induction false} TallySumUpdate(options: seq<ProposalOption>, i: nat, o: ProposalOption)
    requires i < |options|
    ensures TallySum(options[i := o]) == TallySum(options) - options[i].voteCount + o.voteCount
    decreases |options|
  {
    var n := |options| - 1;
    if i < n {
      assert options[i := o][..n] == options[..n][i := o];
      TallySumUpdate(options[..n], i, o);
    } else {
      assert options[i := o][..n] == options[..n];
    }
  }

  lemma StepTallyGrowth(p: ProposalRecord, op: Op)
    ensures
      var q := After(p, op);
      TallySum(p.options) <= TallySum(q.options) <= TallySum(p.options) + |q.voters| - |p.voters|
  {
    if op.CastVote? {
      var r := Vote(p, op.members, op.voter, op.optionIndex);
      if r.Ok? {
        var idx := op.optionIndex as int;
        assert r.value.options == p.options[idx := r.value.options[idx]];
        TallySumUpdate(p.options, idx, r.value.options[idx]);
      }
    }
  }

  /** Across any sequence of transactions the total of the tallies never
      falls, and rises by at most one per new voter. */
  lemma {:induction false} RunTallyGrowth(p: ProposalRecord, ops: seq<Op>)
    ensures
      var q := Run(p, ops);
      TallySum(p.options) <= TallySum(q.options) <= TallySum(p.options) + |q.voters| - |p.voters|
    decreases |ops|
  {
    if ops != [] {
      StepTallyGrowth(p, ops[0]);
      RunTallyGrowth(After(p, ops[0]), ops[1..]);
    }
  }

  /** At most one dispatched instruction ever takes effect, and none once the
      proposal is executed. */
  lemma {:induction false} AtMostOneEffect(p: ProposalRecord, ops: seq<Op>)
    ensures Effects(p, ops) <= (if p.executed then 0 else 1)
    decreases |ops|
  {
    if ops != [] {
      var x := Step(p, ops[0]);
      var q := After(p, ops[0]);
      AtMostOneEffect(q, ops[1..]);
      if x.result.Ok? && x.calls != [] {
        assert q.executed;
      } else {
        StepGrows(p, ops[0]);
      }
    }
  }

  /** A member who has voted is turned away on any later ballot, whatever
      option it names. */
  lemma SecondVoteRejected(p: ProposalRecord, members: seq<Pubkey>, voter: Pubkey, first: u8, second: u8)
    requires Vote(p, members, voter, first).Ok?
    ensures Vote(Vote(p, members, voter, first).value, members, voter, second) == Err(AlreadyVoted)
  {
  }

  /** Once an execution succeeds, every later one fails with
      `AlreadyExecuted` and dispatches nothing. */
  lemma SecondExecuteRejected(
    p: ProposalRecord, remaining: seq<Pubkey>, invoke: Instruction -> bool,
    remaining': seq<Pubkey>, invoke': Instruction -> bool)
    requires ExecuteProposal(p, remaining, invoke).result.Ok?
    ensures ExecuteProposal(ExecuteProposal(p, remaining, invoke).result.value, remaining', invoke')
         == Execution(Err(AlreadyExecuted), [])
  {
  }

  /** Finalizing does not freeze the winner: votes are still accepted after
      the window, and a second finalize before execution replaces the stored
      winner. */
  lemma FinalizeCanBeOverwritten()
    ensures
      var p := ProposalRecord(0, 1, "", "", 0, [], [ProposalOption("Yes", 0), ProposalOption("No", 0)],
                              [], 0, 100, false, None);
      && Run(p, [Finalize(101)]).winnerIndex == Some(0)
      && Run(p, [Finalize(101), CastVote(2, 1, [1, 2]), Finalize(102)]).winnerIndex == Some(1)
  {
  }

  /** Running a sequence that ends with `op` is running the rest and then
      `op`. */
  lemma {:induction false} RunSnoc(p: ProposalRecord, ops: seq<Op>, op: Op)
    ensures Run(p, ops + [op]) == After(Run(p, ops), op)
    ensures Calls(p, ops + [op]) == Calls(p, ops) + Step(Run(p, ops), op).calls
    decreases |ops|
  {
    if ops == [] {
      assert [op][1..] == [];
    } else {
      assert (ops + [op])[1..] == ops[1..] + [op];
      RunSnoc(After(p, ops[0]), ops[1..], op);
    }
  }

  /** Votes and finalizations dispatch nothing; only execution calls out. */
  lemma {:induction false} OnlyExecuteCalls(p: ProposalRecord, ops: seq<Op>)
    requires forall i :: 0 <= i < |ops| ==> !ops[i].Execute?
    ensures Calls(p, ops) == []
    decreases |ops|
  {
    if ops != [] {
      OnlyExecuteCalls(After(p, ops[0]), ops[1..]);
    }
  }

  /** Four transactions that are not executions, then `last`: the proposal
      after each step, and the calls, which only `last` can make. */
  lemma FourThen(p: ProposalRecord, ops: seq<Op>, last: Op)
    requires |ops| == 4 && forall i :: 0 <= i < 4 ==> !ops[i].Execute?
    ensures Run(p, ops) == After(After(After(After(p, ops[0]), ops[1]), ops[2]), ops[3])
    ensures Run(p, ops + [last]) == After(Run(p, ops), last)
    ensures Calls(p, ops + [last]) == Step(Run(p, ops), last).calls
  {
    var p1 := After(p, ops[0]);
    var p2 := After(p1, ops[1]);
    var p3 := After(p2, ops[2]);
    assert Run(p3, ops[3..]) == After(p3, ops[3]) by {
      assert ops[3..][1..] == [];
    }
    assert Run(p2, ops[2..]) == Run(p3, ops[3..]) by {
      assert ops[2..][1..] == ops[3..];
    }
    assert Run(p1, ops[1..]) == Run(p2, ops[2..]) by {
      assert ops[1..][1..] == ops[2..];
    }
    RunSnoc(p, ops, last);
    OnlyExecuteCalls(p, ops);
  }

  /** The proposal of the two scenarios below: options "Yes" and "No" with no
      votes, created at time 0 by member 1 of the organization [1, 2, 3]. */
  function YesNoProposal(programId: Pubkey, data: seq<u8>): (p: ProposalRecord)
    ensures p.endTime == 100 && !p.executed && p.winnerIndex == None && p.voters == []
  {
    CreateProposal(ZeroProposal(), [1, 2, 3], 1, 0, "Token Minting", "Should we mint more tokens?",
                   programId, data, [ProposalOption("Yes", 0), ProposalOption("No", 0)], 1, 0).value
  }

  /** Two votes for "Yes" and one for "No": after the window the winner is
      "Yes", and executing dispatches exactly one instruction, which carries
      the stored program id and data and the first nine remaining accounts;
      the proposal is executed exactly when that instruction succeeds. */
  lemma YesScenario(programId: Pubkey, data: seq<u8>, remaining: seq<Pubkey>, invoke: Instruction -> bool)
    requires |remaining| >= CPI_ACCOUNTS
    ensures
      var m := [1, 2, 3];
      var p := YesNoProposal(programId, data);
      var ballots := [CastVote(1, 0, m), CastVote(2, 0, m), CastVote(3, 1, m), Finalize(101)];
      var ix := Instruction(programId, remaining[..CPI_ACCOUNTS], data);
      && Run(p, ballots).winnerIndex == Some(0)
      && Calls(p, ballots + [Execute(remaining, invoke)]) == [ix]
      && Run(p, ballots + [Execute(remaining, invoke)]).executed == invoke(ix)
  {
    var m := [1, 2, 3];
    var p := YesNoProposal(programId, data);
    var ballots := [CastVote(1, 0, m), CastVote(2, 0, m), CastVote(3, 1, m), Finalize(101)];
    FourThen(p, ballots, Execute(remaining, invoke));
    var p3 := After(After(After(p, ballots[0]), ballots[1]), ballots[2]);
    assert p3.options == [ProposalOption("Yes", 2), ProposalOption("No", 1)];
    LeaderUnique(p3.options, 0);
  }

  /** All three members vote "No": the winner is "No", and executing marks the
      proposal executed without dispatching anything, whatever the remaining
      accounts and the invoked program. */
  lemma NoScenario(programId: Pubkey, data: seq<u8>, remaining: seq<Pubkey>, invoke: Instruction -> bool)
    ensures
      var m := [1, 2, 3];
      var p := YesNoProposal(programId, data);
      var ballots := [CastVote(1, 1, m), CastVote(2, 1, m), CastVote(3, 1, m), Finalize(101)];
      && Run(p, ballots).winnerIndex == Some(1)
      && Calls(p, ballots + [Execute(remaining, invoke)]) == []
      && Run(p, ballots + [Execute(remaining, invoke)]).executed
  {
    var m := [1, 2, 3];
    var p := YesNoProposal(programId, data);
    var ballots := [CastVote(1, 1, m), CastVote(2, 1, m), CastVote(3, 1, m), Finalize(101)];
    FourThen(p, ballots, Execute(remaining, invoke));
    var p3 := After(After(After(p, ballots[0]), ballots[1]), ballots[2]);
    assert p3.options == [ProposalOption("Yes", 0), ProposalOption("No", 3)];
    LeaderUnique(p3.options, 1);
  }
}
