/**
 * The `Voting` contract as an object: its global state is a set of mutable
 * fields, and each entry point updates them in place. The ledger supplies the
 * current time and the caller to every call; here they are parameters. A call
 * whose guard fails returns the error and leaves every field as it was, which
 * is what the host's rollback of a failed transaction amounts to.
 *
 * Every method is proved against the pure state machine of `VotingSpec`
 * through `Snapshot()`, so the lemmas of `VotingProperties` apply to it.
 */
module VotingContract {
  import opened VotingSpec

  /** What a call returns to the ledger: accepted, or rejected with a reason. */
  datatype Outcome = Pass | Fail(error: Error)

  function OutcomeOf(r: Result<Poll>): Outcome
  {
    if r.Ok? then Pass else Fail(r.error)
  }

  class Voting {
    var title: string
    var description: string
    var noOfOptions: nat
    /** The labels option1 .. option4, in order. */
    var options: seq<string>
    /** The tallies option1Votes .. option4Votes, in order. */
    var optionVotes: seq<nat>
    var startsAt: nat
    var endsAt: nat
    var voteStatus: nat
    /** Per-account local state: the option an account voted for; absent until it votes. */
    var localState: map<Account, nat>
    /** The accounts whose local-state slot the host has allocated (opt-in). */
    var optedIn: set<Account>

    /** The current value of every field, as the state machine sees it. */
    function Snapshot(): Poll
      reads this
    {
      Poll(title, description, noOfOptions, options, optionVotes,
           startsAt, endsAt, voteStatus, localState, optedIn)
    }

    ghost predicate Valid()
      reads this
    {
      VotingSpec.Valid(Snapshot())
    }

    /** Deployment: every string empty, every counter and timestamp 0, status 0. */
    constructor ()
      ensures Valid()
      ensures Snapshot() == InitialPoll()
    {
      title := "";
      description := "";
      noOfOptions := 0;
      options := ["", "", "", ""];
      optionVotes := [0, 0, 0, 0];
      startsAt := 0;
      endsAt := 0;
      voteStatus := 0;
      localState := map[];
      optedIn := {};
      InitialPollValid();
    }

    /**
     * create_vote: rejects a second poll, an option count outside [2, 4] and a
     * deadline that is not in the future; otherwise stores the poll and opens
     * the window at `now`.
     */
    method CreateVote(now: nat, title: string, description: string, noOfOptions: nat,
                      option1: string, option2: string, option3: string, option4: string,
                      endsAt: nat) returns (r: Outcome)
      requires Valid()
      modifies this
      ensures Valid()
      ensures r == Fail(AlreadyCreated) <==> old(voteStatus) != 0
      ensures r == Fail(InvalidOptionCount) <==> old(voteStatus) == 0 && !(2 <= noOfOptions <= 4)
      ensures r == Fail(InvalidDeadline) <==>
                old(voteStatus) == 0 && 2 <= noOfOptions <= 4 && endsAt <= now
      ensures r.Fail? ==> unchanged(this)
      ensures r.Pass? ==>
                && this.title == title && this.description == description
                && this.noOfOptions == noOfOptions
                && options == [option1, option2, option3, option4]
                && optionVotes == [0, 0, 0, 0]
                && startsAt == now && this.endsAt == endsAt && voteStatus == 1
                && localState == old(localState) && optedIn == old(optedIn)
      ensures var spec := VotingSpec.CreateVote(old(Snapshot()), now, title, description,
                                                noOfOptions, option1, option2, option3,
                                                option4, endsAt);
              r == OutcomeOf(spec) && Snapshot() == After(old(Snapshot()), spec)
    {
      if voteStatus != 0 {
        return Fail(AlreadyCreated);
      }
      if !(noOfOptions >= 2 && noOfOptions <= 4) {
        return Fail(InvalidOptionCount);
      }
      if !(now < endsAt) {
        return Fail(InvalidDeadline);
      }
      CreateVotePreservesValid(Snapshot(), now, title, description, noOfOptions,
                               option1, option2, option3, option4, endsAt);
      this.title := title;
      this.description := description;
      this.noOfOptions := noOfOptions;
      options := [option1, option2, option3, option4];
      optionVotes := [0, 0, 0, 0];
      startsAt := now;
      this.endsAt := endsAt;
      voteStatus := 1;
      r := Pass;
    }

    /**
     * vote: accepted only strictly inside (startsAt, endsAt), for an option in
     * [1, noOfOptions], from an opted-in account that has not voted yet; then
     * records the option for `sender` and adds one to that option's tally.
     */
    method Vote(now: nat, sender: Account, option: nat) returns (r: Outcome)
      requires Valid()
      modifies this
      ensures Valid()
      ensures r == Fail(VotingEnded) <==> old(endsAt) <= now
      ensures r == Fail(VotingNotStarted) <==> now < old(endsAt) && now <= old(startsAt)
      ensures r == Fail(InvalidOption) <==>
                old(startsAt) < now < old(endsAt) && !(1 <= option <= old(noOfOptions))
      ensures r == Fail(AlreadyVoted) <==>
                old(startsAt) < now < old(endsAt) && 1 <= option <= old(noOfOptions)
                && sender in old(localState)
      ensures r.Fail? ==> unchanged(this)
      ensures r.Pass? ==>
                && sender in optedIn
                && localState == old(localState)[sender := option]
                && optionVotes == old(optionVotes)[option - 1 := old(optionVotes)[option - 1] + 1]
      ensures var spec := VotingSpec.Vote(old(Snapshot()), now, sender, option);
              r == OutcomeOf(spec) && Snapshot() == After(old(Snapshot()), spec)
    {
      if !(now < endsAt) {
        return Fail(VotingEnded);
      }
      if !(now > startsAt) {
        return Fail(VotingNotStarted);
      }
      if !(option >= 1 && option <= noOfOptions) {
        return Fail(InvalidOption);
      }
      var exist := sender in localState;
      if exist {
        return Fail(AlreadyVoted);
      }
      if sender !in optedIn {
        return Fail(NotOptedIn);
      }
      localState := localState[sender := option];
      if option == 1 {
        optionVotes := optionVotes[0 := optionVotes[0] + 1];
      } else if option == 2 {
        optionVotes := optionVotes[1 := optionVotes[1] + 1];
      } else if option == 3 {
        optionVotes := optionVotes[2 := optionVotes[2] + 1];
      } else if option == 4 {
        optionVotes := optionVotes[3 := optionVotes[3] + 1];
      } else {
        // The contract's `op.exit(0)`: unreachable, since 1 <= option <= noOfOptions <= 4.
        assert false;
      }
      VotePreservesValid(old(Snapshot()), now, sender, option);
      r := Pass;
    }

    /** opt_in: the host allocates the caller's local-state slot; no contract field changes. */
    method OptIn(sender: Account)
      requires Valid()
      modifies this
      ensures Valid()
      ensures optedIn == old(optedIn) + {sender}
      ensures Snapshot() == VotingSpec.OptIn(old(Snapshot()), sender)
    {
      optedIn := optedIn + {sender};
    }
  }

  /**
   * A two-option poll: one account opts in and votes for option 1 inside the
   * window; its second vote is rejected and the tallies stay [1, 0].
   */
  method ScenarioRepeatVote(x: Account)
  {
    var c := new Voting();
    var r := c.CreateVote(1000, "Poll", "A yes/no question", 2, "Yes", "No", "", "", 1100);
    assert r == Pass;
    c.OptIn(x);
    r := c.Vote(1050, x, 1);
    assert r == Pass && c.optionVotes[0] == 1 && c.optionVotes[1] == 0;
    r := c.Vote(1060, x, 2);
    assert r == Fail(AlreadyVoted) && c.optionVotes[0] == 1 && c.optionVotes[1] == 0;
  }

  /** An account that never opted in cannot vote, and nothing changes. */
  method ScenarioNotOptedIn(y: Account)
  {
    var c := new Voting();
    var r := c.CreateVote(1000, "Poll", "Three ways", 3, "A", "B", "C", "", 1100);
    assert r == Pass;
    r := c.Vote(1050, y, 2);
    assert r == Fail(NotOptedIn) && c.optionVotes[1] == 0 && y !in c.localState;
  }

  /** A deadline in the past is rejected and leaves the poll uncreated; a later valid call succeeds. */
  method ScenarioPastDeadline()
  {
    var c := new Voting();
    var r := c.CreateVote(1000, "Poll", "Late", 2, "Yes", "No", "", "", 999);
    assert r == Fail(InvalidDeadline) && c.voteStatus == 0;
    r := c.CreateVote(1000, "Poll", "On time", 2, "Yes", "No", "", "", 1100);
    assert r == Pass && c.voteStatus == 1;
  }

  /** Votes at the creation instant and at the deadline are both rejected. */
  method ScenarioWindowEdges(x: Account)
  {
    var c := new Voting();
    var r := c.CreateVote(1000, "Poll", "Edges", 2, "Yes", "No", "", "", 1100);
    c.OptIn(x);
    r := c.Vote(1000, x, 1);
    assert r == Fail(VotingNotStarted);
    r := c.Vote(1100, x, 1);
    assert r == Fail(VotingEnded);
    r := c.Vote(1099, x, 1);
    assert r == Pass;
  }
}
