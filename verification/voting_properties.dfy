/**
 * Properties of the voting contract, stated over the pure state machine of
 * `VotingSpec`: single calls (guards, effects, the strict voting window) and
 * whole call sequences as the host serialises them (creation happens once,
 * each account votes once, the tallies always add up to the recorded votes).
 */
module VotingProperties {
  import opened VotingSpec

  /** The deployed contract starts with status 0, no options, zero tallies and a zero window. */
  lemma InitialPollIsBlank()
    ensures var p := InitialPoll();
            && p.voteStatus == 0 && p.noOfOptions == 0
            && p.startsAt == 0 && p.endsAt == 0
            && p.optionVotes == [0, 0, 0, 0] && p.options == ["", "", "", ""]
            && p.localState == map[] && p.optedIn == {}
  {
  }

  // ---------------------------------------------------------------------------
  // create_vote
  // ---------------------------------------------------------------------------

  /** Which guard rejects a create_vote, in the order the contract checks them. */
  lemma CreateVoteGuards(p: Poll, now: nat, title: string, description: string, noOfOptions: nat,
                         option1: string, option2: string, option3: string, option4: string,
                         endsAt: nat)
    ensures var r := CreateVote(p, now, title, description, noOfOptions,
                                option1, option2, option3, option4, endsAt);
            && (r == Err(AlreadyCreated) <==> p.voteStatus != 0)
            && (r == Err(InvalidOptionCount) <==>
                  p.voteStatus == 0 && !(2 <= noOfOptions <= 4))
            && (r == Err(InvalidDeadline) <==>
                  p.voteStatus == 0 && 2 <= noOfOptions <= 4 && endsAt <= now)
            && (r.Ok? <==> p.voteStatus == 0 && 2 <= noOfOptions <= 4 && now < endsAt)
  {
  }

  /**
   * A successful create_vote stores every argument verbatim (unused option
   * labels included), zeroes all four tallies, opens the window at the
   * current time and touches no per-account state.
   */
  lemma CreateVoteEffect(p: Poll, now: nat, title: string, description: string, noOfOptions: nat,
                         option1: string, option2: string, option3: string, option4: string,
                         endsAt: nat)
    requires CreateVote(p, now, title, description, noOfOptions,
                        option1, option2, option3, option4, endsAt).Ok?
    ensures var q := CreateVote(p, now, title, description, noOfOptions,
                                option1, option2, option3, option4, endsAt).value;
            && q.title == title && q.description == description && q.noOfOptions == noOfOptions
            && q.options == [option1, option2, option3, option4]
            && q.optionVotes == [0, 0, 0, 0]
            && q.startsAt == now && q.endsAt == endsAt && q.startsAt < q.endsAt
            && q.voteStatus == 1
            && q.localState == p.localState && q.optedIn == p.optedIn
  {
  }

  /** Once a poll exists, create_vote fails on the first guard whatever its arguments. */
  lemma CreateVoteAfterCreationFails(p: Poll, now: nat, title: string, description: string,
                                     noOfOptions: nat, option1: string, option2: string,
                                     option3: string, option4: string, endsAt: nat)
    requires p.voteStatus == 1
    ensures CreateVote(p, now, title, description, noOfOptions,
                       option1, option2, option3, option4, endsAt) == Err(AlreadyCreated)
  {
  }

  // ---------------------------------------------------------------------------
  // vote
  // ---------------------------------------------------------------------------

  /** Which guard rejects a vote, in the order the contract checks them. */
  lemma VoteGuards(p: Poll, now: nat, sender: Account, option: nat)
    requires Valid(p)
    ensures var r := Vote(p, now, sender, option);
            && (r == Err(VotingEnded) <==> p.endsAt <= now)
            && (r == Err(VotingNotStarted) <==> now < p.endsAt && now <= p.startsAt)
            && (r == Err(InvalidOption) <==>
                  p.startsAt < now < p.endsAt && !(1 <= option <= p.noOfOptions))
            && (r == Err(AlreadyVoted) <==>
                  p.startsAt < now < p.endsAt && 1 <= option <= p.noOfOptions
                  && sender in p.localState)
            && (r == Err(NotOptedIn) <==>
                  p.startsAt < now < p.endsAt && 1 <= option <= p.noOfOptions
                  && sender !in p.optedIn)
            && (r.Ok? <==>
                  p.startsAt < now < p.endsAt && 1 <= option <= p.noOfOptions
                  && sender in p.optedIn && sender !in p.localState)
  {
  }

  /**
   * The window is open at both ends: a vote at the creation instant is "not
   * started", one at the deadline is "ended".
   */
  lemma VoteWindowIsStrict(p: Poll, sender: Account, option: nat)
    requires Valid(p) && p.voteStatus == 1
    ensures Vote(p, p.startsAt, sender, option) == Err(VotingNotStarted)
    ensures Vote(p, p.endsAt, sender, option) == Err(VotingEnded)
  {
  }

  /** Before create_vote the deadline is still 0, so every vote fails as "ended". */
  lemma VoteBeforeCreationFails(p: Poll, now: nat, sender: Account, option: nat)
    requires Valid(p) && p.voteStatus == 0
    ensures Vote(p, now, sender, option) == Err(VotingEnded)
  {
  }

  /**
   * A successful vote records the option for the caller, adds one to that
   * option's tally only, and leaves the metadata and the opted-in set alone.
   */
  lemma VoteEffect(p: Poll, now: nat, sender: Account, option: nat)
    requires Valid(p) && Vote(p, now, sender, option).Ok?
    ensures var q := Vote(p, now, sender, option).value;
            && q.localState == p.localState[sender := option]
            && q.optionVotes == p.optionVotes[option - 1 := p.optionVotes[option - 1] + 1]
            && Sum(q.optionVotes) == Sum(p.optionVotes) + 1
            && q.(localState := p.localState, optionVotes := p.optionVotes) == p
  {
    SumIncrement(p.optionVotes, option - 1);
  }

  /** An account that has voted is rejected on every later vote, and the tallies stay put. */
  lemma SecondVoteRejected(p: Poll, now: nat, sender: Account, option: nat, now2: nat, option2: nat)
    requires Valid(p) && Vote(p, now, sender, option).Ok?
    ensures var q := Vote(p, now, sender, option).value;
            && Vote(q, now2, sender, option2).Err?
            && After(q, Vote(q, now2, sender, option2)).optionVotes == q.optionVotes
  {
    var q := Vote(p, now, sender, option).value;
    VotePreservesValid(p, now, sender, option);
    assert sender in q.localState;
  }

  // ---------------------------------------------------------------------------
  // opt_in
  // ---------------------------------------------------------------------------

  /** opt_in changes no contract field, only the set of opted-in accounts, and repeating it is a no-op. */
  lemma OptInEffect(p: Poll, sender: Account)
    ensures OptIn(p, sender).(optedIn := p.optedIn) == p
    ensures OptIn(p, sender).optedIn == p.optedIn + {sender}
    ensures OptIn(OptIn(p, sender), sender) == OptIn(p, sender)
  {
  }

  // ---------------------------------------------------------------------------
  // Tally conservation
  // ---------------------------------------------------------------------------

  /** In every valid state the four tallies add up to the number of accounts with a recorded vote. */
  lemma TallyConservation(p: Poll)
    requires Valid(p)
    ensures Sum(p.optionVotes) == |p.localState|
  {
    var ls := p.localState;
    var v1, v2, v3, v4 := Voters(ls, 1), Voters(ls, 2), Voters(ls, 3), Voters(ls, 4);
    var votes := p.optionVotes;
    assert votes[0] == |v1| && votes[1] == |v2| && votes[2] == |v3| && votes[3] == |v4|;
    SumOfSlots(votes);
    assert ls.Keys == v1 + v2 + v3 + v4 by {
      forall a | a in ls ensures a in v1 + v2 + v3 + v4 {
        assert 1 <= ls[a] <= 4;
      }
    }
    assert v1 * v2 == {};
    assert (v1 + v2) * v3 == {};
    assert (v1 + v2 + v3) * v4 == {};
    assert |v1 + v2| == |v1| + |v2|;
    assert |v1 + v2 + v3| == |v1| + |v2| + |v3|;
    assert |ls.Keys| == |v1| + |v2| + |v3| + |v4|;
  }

  /** Every state the host can reach from deployment satisfies tally conservation. */
  lemma ReachableTallyConservation(calls: seq<Call>)
    ensures Valid(InitialPoll())
    ensures var q := Run(InitialPoll(), calls); Valid(q) && Sum(q.optionVotes) == |q.localState|
  {
    InitialPollValid();
    var q := Run(InitialPoll(), calls);
    TallyConservation(q);
  }

  // ---------------------------------------------------------------------------
  // Creation happens once
  // ---------------------------------------------------------------------------

  /** The number of create_vote calls the host accepts while executing `calls`. */
  function Creations(p: Poll, calls: seq<Call>): nat
    requires Valid(p)
    decreases |calls|
  {
    if calls == [] then 0
    else
      var r := Step(p, calls[0]);
      (if calls[0].CreateVoteCall? && r.Ok? then 1 else 0) + Creations(After(p, r), calls[1..])
  }

  /**
   * After creation the status stays 1 and the poll metadata and window never
   * change again, whatever calls follow.
   */
  lemma {:induction false} CreationIsFinal(p: Poll, calls: seq<Call>)
    requires Valid(p) && p.voteStatus == 1
    ensures var q := Run(p, calls);
            && q.voteStatus == 1
            && q.title == p.title && q.description == p.description
            && q.noOfOptions == p.noOfOptions
            && q.options == p.options
            && q.startsAt == p.startsAt && q.endsAt == p.endsAt
    decreases |calls|
  {
    if calls != [] {
      CreationIsFinal(After(p, Step(p, calls[0])), calls[1..]);
    }
  }

  /** Along any call sequence create_vote succeeds at most once over the contract's lifetime. */
  lemma {:induction false} CreationsAtMostOnce(p: Poll, calls: seq<Call>)
    requires Valid(p)
    ensures p.voteStatus + Creations(p, calls) <= 1
    decreases |calls|
  {
    if calls != [] {
      var r := Step(p, calls[0]);
      CreationsAtMostOnce(After(p, r), calls[1..]);
    }
  }

  // ---------------------------------------------------------------------------
  // Each account votes once
  // ---------------------------------------------------------------------------

  /** The number of votes by `account` the host accepts while executing `calls`. */
  function VotesBy(p: Poll, calls: seq<Call>, account: Account): nat
    requires Valid(p)
    decreases |calls|
  {
    if calls == [] then 0
    else
      var r := Step(p, calls[0]);
      var counted := calls[0].VoteCall? && calls[0].sender == account && r.Ok?;
      (if counted then 1 else 0) + VotesBy(After(p, r), calls[1..], account)
  }

  /** A recorded vote is never overwritten or removed by later calls. */
  lemma {:induction false} BallotIsFinal(p: Poll, calls: seq<Call>, account: Account)
    requires Valid(p) && account in p.localState
    ensures var q := Run(p, calls);
            account in q.localState && q.localState[account] == p.localState[account]
    decreases |calls|
  {
    if calls != [] {
      BallotIsFinal(After(p, Step(p, calls[0])), calls[1..], account);
    }
  }

  /** Along any call sequence an account has at most one vote accepted, counting one already recorded. */
  lemma {:induction false} VotesAtMostOnce(p: Poll, calls: seq<Call>, account: Account)
    requires Valid(p)
    ensures (if account in p.localState then 1 else 0) + VotesBy(p, calls, account) <= 1
    decreases |calls|
  {
    if calls != [] {
      var r := Step(p, calls[0]);
      VotesAtMostOnce(After(p, r), calls[1..], account);
    }
  }
}
