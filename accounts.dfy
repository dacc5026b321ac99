/** The two ledger accounts of the program as objects, and the instruction
    handlers as methods that update their fields in place. Each handler checks
    before it writes, so a failing handler leaves its account as it was, which
    is what the ledger's all-or-nothing transactions guarantee. */
module Accounts {
  import opened DaoTypes
  import opened Tally
  import opened Lifecycle

  /** The membership account of one organization. */
  class DaoInfo {
    var members: seq<Pubkey>

    /** A freshly allocated account: an empty member list. */
    constructor ()
      ensures members == []
    {
      members := [];
    }

    /** `create_dao`. */
    method CreateDao(newMembers: seq<Pubkey>) returns (r: Result<()>)
      modifies this
      ensures r == StatusOf(Lifecycle.CreateDao(newMembers))
      ensures r.Ok? ==> members == newMembers
      ensures r.Err? ==> members == old(members)
    {
      if |newMembers| < 2 {
        return Err(NotEnoughMembers);
      }
      members := newMembers;
      r := Ok(());
    }
  }

  /** A proposal account. */
  class Proposal {
    var dao: Pubkey
    var proposer: Pubkey
    var title: string
    var description: string
    var programId: Pubkey
    var data: seq<u8>
    var options: seq<ProposalOption>
    var voters: seq<Pubkey>
    var startTime: i64
    var endTime: i64
    var executed: bool
    var winnerIndex: Option<u8>

    /** The account's contents as a value. */
    function Record(): ProposalRecord
      reads this
    {
      ProposalRecord(dao, proposer, title, description, programId, data,
                     options, voters, startTime, endTime, executed, winnerIndex)
    }

    /** A freshly allocated, zeroed account. */
    constructor ()
      ensures Record() == ZeroProposal()
    {
      dao, proposer, title, description, programId, data := 0, 0, "", "", 0, [];
      options, voters, startTime, endTime := [], [], 0, 0;
      executed, winnerIndex := false, None;
    }

    /** `create_proposal`, signed by `signer`. It writes every field except
        `voters` and `winner_index`, which keep what allocation gave them. */
    method CreateProposal(
      daoinfo: DaoInfo, signer: Pubkey, daoKey: Pubkey, title: string,
      description: string, programId: Pubkey, data: seq<u8>,
      options: seq<ProposalOption>, proposer: Pubkey, now: i64
    ) returns (r: Result<()>)
      requires now <= I64_MAX - VOTING_PERIOD
      modifies this
      ensures
        var spec := Lifecycle.CreateProposal(old(Record()), daoinfo.members, signer, daoKey,
                                             title, description, programId, data, options, proposer, now);
        r == StatusOf(spec) && Record() == Commit(old(Record()), spec)
    {
      if signer !in daoinfo.members {
        return Err(Unauthorized);
      }
      this.dao := daoKey;
      this.title := title;
      this.description := description;
      this.programId := programId;
      this.data := data;
      this.startTime := now;
      this.endTime := now + VOTING_PERIOD;
      this.executed := false;
      this.options := options;
      this.proposer := proposer;
      r := Ok(());
    }

    /** `vote`, signed by `voter`. */
    method Vote(daoinfo: DaoInfo, voter: Pubkey, optionIndex: u8) returns (r: Result<()>)
      modifies this
      ensures
        var spec := Lifecycle.Vote(old(Record()), daoinfo.members, voter, optionIndex);
        r == StatusOf(spec) && Record() == Commit(old(Record()), spec)
    {
      if voter !in daoinfo.members {
        return Err(Unauthorized);
      }
      if voter in voters {
        return Err(AlreadyVoted);
      }
      var idx := optionIndex as int;
      if idx >= |options| {
        return Err(InvalidOption);
      }
      voters := voters + [voter];
      options := options[idx := options[idx].(voteCount := SaturatingInc(options[idx].voteCount))];
      r := Ok(());
    }

    /** `vote_count`, the finalize step, at ledger time `now`. */
    method VoteCount(now: i64) returns (r: Result<()>)
      modifies this
      ensures
        var spec := Lifecycle.VoteCount(old(Record()), now);
        r == StatusOf(spec) && Record() == Commit(old(Record()), spec)
    {
      if !(now > endTime) {
        return Err(VotingStillActive);
      }
      if executed {
        return Err(AlreadyFinalized);
      }
      var winner := FindWinner(options);
      winnerIndex := Some(winner);
      r := Ok(());
    }

    /** `execute_proposal` with the transaction's remaining accounts; `invoke`
        stands for the invoked program and answers whether it succeeded.
        `calls` lists the instructions dispatched. */
    method ExecuteProposal(remaining: seq<Pubkey>, invoke: Instruction -> bool)
      returns (r: Result<()>, calls: seq<Instruction>)
      modifies this
      ensures
        var spec := Lifecycle.ExecuteProposal(old(Record()), remaining, invoke);
        r == StatusOf(spec.result) && calls == spec.calls && Record() == Commit(old(Record()), spec.result)
    {
      calls := [];
      if winnerIndex.None? {
        return Err(ProposalNotFinalized), calls;
      }
      if executed {
        return Err(AlreadyExecuted), calls;
      }
      if winnerIndex.value == 1 {
        executed := true;
        return Ok(()), calls;
      }
      if |remaining| < CPI_ACCOUNTS {
        return Err(MissingRemainingAccount), calls;
      }
      var ix := Instruction(programId, remaining[..CPI_ACCOUNTS], data);
      calls := [ix];
      if !invoke(ix) {
        return Err(InvokeFailed), calls;
      }
      executed := true;
      r := Ok(());
    }
  }
}
