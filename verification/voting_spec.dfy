/**
 * The single-poll voting contract as a pure state machine.
 *
 * A `Poll` is a snapshot of every field the contract stores: the global poll
 * metadata and tallies, the per-account local state (account -> chosen option,
 * absent meaning "has not voted") and the set of accounts that have opted in.
 * Each entry point is a function from the snapshot before the call to either
 * the snapshot after it or the reason the call is rejected. The ledger host
 * discards every effect of a rejected call; `After` states that rollback.
 */
module VotingSpec {

  /** An account address on the ledger (a 32-byte public key; the length is not enforced). */
  type Account = seq<bv8>

  /** One constructor per assert message of the contract, plus the failing local-state write. */
  datatype Error =
    | AlreadyCreated      // "Vote already created!"
    | InvalidOptionCount  // "Number of options must be between 2 and 4!"
    | InvalidDeadline     // "Invalid end time!"
    | VotingEnded         // "Voting has ended!"
    | VotingNotStarted    // "Voting has not started!"
    | InvalidOption       // "Invalid option!"
    | AlreadyVoted        // "You have already voted!"
    | NotOptedIn          // the local-state write of a caller that never opted in

  datatype Result<T> = Ok(value: T) | Err(error: Error)

  /** The contract has exactly four option slots, each with its own tally. */
  const Slots := 4

  /**
   * Every field of the contract; UInt64 values are unbounded naturals here.
   * `options[i]` and `optionVotes[i]` are the contract's option(i+1) and
   * option(i+1)Votes.
   */
  datatype Poll = Poll(
    title: string,
    description: string,
    noOfOptions: nat,
    options: seq<string>,
    optionVotes: seq<nat>,
    startsAt: nat,
    endsAt: nat,
    voteStatus: nat,
    localState: map<Account, nat>,
    optedIn: set<Account>)

  /** The state the deployment leaves behind: empty strings, zero counters, status 0. */
  function InitialPoll(): Poll
  {
    Poll("", "", 0, ["", "", "", ""], [0, 0, 0, 0], 0, 0, 0, map[], {})
  }

  function Sum(s: seq<nat>): nat
  {
    if s == [] then 0 else s[0] + Sum(s[1..])
  }

  lemma SumOfSlots(s: seq<nat>)
    requires |s| == Slots
    ensures Sum(s) == s[0] + s[1] + s[2] + s[3]
  {
    assert Sum(s[3..]) == s[3] by { assert s[3..][1..] == []; }
    assert Sum(s[2..]) == s[2] + Sum(s[3..]) by { assert s[2..][1..] == s[3..]; }
    assert Sum(s[1..]) == s[1] + Sum(s[2..]) by { assert s[1..][1..] == s[2..]; }
  }

  /** Adding one to a single entry adds one to the sum. */
  lemma {:induction false} SumIncrement(s: seq<nat>, i: nat)
    requires i < |s|
    ensures Sum(s[i := s[i] + 1]) == Sum(s) + 1
  {
    if i > 0 {
      assert s[i := s[i] + 1][1..] == s[1..][i - 1 := s[1..][i - 1] + 1];
      SumIncrement(s[1..], i - 1);
    } else {
      assert s[i := s[i] + 1][1..] == s[1..];
    }
  }

  /** The accounts whose recorded vote is option `k`. */
  function Voters(ballots: map<Account, nat>, k: nat): set<Account>
  {
    set a | a in ballots && ballots[a] == k
  }

  /**
   * The invariant of every reachable state: the status is 0 or 1; only opted-in
   * accounts hold a vote; before creation every field is still at its initial
   * value; after creation 2 <= noOfOptions <= 4 and startsAt < endsAt; every
   * recorded vote names a valid option; and each tally counts exactly the
   * accounts that voted for that option.
   */
  ghost predicate Valid(p: Poll)
  {
    && |p.options| == Slots && |p.optionVotes| == Slots
    && (p.voteStatus == 0 || p.voteStatus == 1)
    && p.localState.Keys <= p.optedIn
    && (p.voteStatus == 0 ==> p.(optedIn := {}) == InitialPoll())
    && (p.voteStatus == 1 ==> 2 <= p.noOfOptions <= 4 && p.startsAt < p.endsAt)
    && (forall a | a in p.localState :: 1 <= p.localState[a] <= p.noOfOptions)
    && (forall i | 0 <= i < Slots :: p.optionVotes[i] == |Voters(p.localState, i + 1)|)
  }

  /** The deployed state satisfies the invariant. */
  lemma InitialPollValid()
    ensures Valid(InitialPoll())
  {
  }

  /** The host's all-or-nothing rule: a rejected call leaves the state as it was. */
  function After(p: Poll, r: Result<Poll>): Poll
  {
    if r.Ok? then r.value else p
  }

  /**
   * create_vote: three guards in the order status, option count, deadline;
   * then every field is assigned, the tallies zeroed and the status set to 1.
   */
  function CreateVote(p: Poll, now: nat, title: string, description: string, noOfOptions: nat,
                      option1: string, option2: string, option3: string, option4: string,
                      endsAt: nat): (r: Result<Poll>)
    ensures r.Ok? ==> r.value.voteStatus == 1 && r.value.startsAt < r.value.endsAt
    ensures r.Ok? ==> r.value.localState == p.localState && r.value.optedIn == p.optedIn
  {
    if p.voteStatus != 0 then Err(AlreadyCreated)
    else if !(noOfOptions >= 2 && noOfOptions <= 4) then Err(InvalidOptionCount)
    else if !(now < endsAt) then Err(InvalidDeadline)
    else Ok(p.(title := title, description := description, noOfOptions := noOfOptions,
               options := [option1, option2, option3, option4], optionVotes := [0, 0, 0, 0],
               startsAt := now, endsAt := endsAt, voteStatus := 1))
  }

  /**
   * vote: window, option-range and already-voted guards, then the caller's
   * local state is written and one tally incremented. The final fall-through
   * of the increment chain (the contract's `op.exit(0)`) is dead because the
   * option lies in [1, noOfOptions] and noOfOptions is at most 4.
   */
  function Vote(p: Poll, now: nat, sender: Account, option: nat): (r: Result<Poll>)
    requires p.noOfOptions <= Slots && |p.optionVotes| == Slots
    ensures r.Ok? ==> p.startsAt < now < p.endsAt && 1 <= option <= p.noOfOptions
    ensures r.Ok? ==> sender !in p.localState && r.value.localState == p.localState[sender := option]
  {
    if !(now < p.endsAt) then Err(VotingEnded)
    else if !(now > p.startsAt) then Err(VotingNotStarted)
    else if !(option >= 1 && option <= p.noOfOptions) then Err(InvalidOption)
    else if sender in p.localState then Err(AlreadyVoted)
    else if sender !in p.optedIn then Err(NotOptedIn)
    else
      var recorded := p.(localState := p.localState[sender := option]);
      var votes := p.optionVotes;
      if option == 1 then Ok(recorded.(optionVotes := votes[0 := votes[0] + 1]))
      else if option == 2 then Ok(recorded.(optionVotes := votes[1 := votes[1] + 1]))
      else if option == 3 then Ok(recorded.(optionVotes := votes[2 := votes[2] + 1]))
      else if option == 4 then Ok(recorded.(optionVotes := votes[3 := votes[3] + 1]))
      else assert false; Err(InvalidOption)
  }

  /** opt_in: the host allocates the caller's local-state slot; the body does nothing. */
  function OptIn(p: Poll, sender: Account): (q: Poll)
    ensures sender in q.optedIn
  {
    p.(optedIn := p.optedIn + {sender})
  }

  /** Adding a first vote for option `o` adds the voter to exactly the voters of `o`. */
  lemma VotersAfterBallot(ballots: map<Account, nat>, sender: Account, o: nat, k: nat)
    requires sender !in ballots
    ensures |Voters(ballots[sender := o], k)| == |Voters(ballots, k)| + (if k == o then 1 else 0)
  {
    var before, after := Voters(ballots, k), Voters(ballots[sender := o], k);
    if k == o {
      assert after == before + {sender};
      assert before * {sender} == {};
    } else {
      assert after == before;
    }
  }

  lemma CreateVotePreservesValid(p: Poll, now: nat, title: string, description: string,
                                 noOfOptions: nat, option1: string, option2: string,
                                 option3: string, option4: string, endsAt: nat)
    requires Valid(p)
    ensures var r := CreateVote(p, now, title, description, noOfOptions,
                                option1, option2, option3, option4, endsAt);
            r.Ok? ==> Valid(r.value)
  {
  }

  lemma VotePreservesValid(p: Poll, now: nat, sender: Account, option: nat)
    requires Valid(p)
    ensures var r := Vote(p, now, sender, option); r.Ok? ==> Valid(r.value)
  {
    var r := Vote(p, now, sender, option);
    if r.Ok? {
      var q := r.value;
      forall i | 0 <= i < Slots ensures q.optionVotes[i] == |Voters(q.localState, i + 1)| {
        VotersAfterBallot(p.localState, sender, option, i + 1);
      }
    }
  }

  /** One call of the contract, with the host context (time, caller) it runs under. */
  datatype Call =
    | CreateVoteCall(now: nat, title: string, description: string, noOfOptions: nat,
                     option1: string, option2: string, option3: string, option4: string,
                     endsAt: nat)
    | VoteCall(now: nat, sender: Account, option: nat)
    | OptInCall(sender: Account)

  /** Dispatch of one call; every accepted call keeps the invariant. */
  function Step(p: Poll, c: Call): (r: Result<Poll>)
    requires Valid(p)
    ensures r.Ok? ==> Valid(r.value)
  {
    match c
    case CreateVoteCall(now, title, description, n, o1, o2, o3, o4, endsAt) =>
      CreateVotePreservesValid(p, now, title, description, n, o1, o2, o3, o4, endsAt);
      CreateVote(p, now, title, description, n, o1, o2, o3, o4, endsAt)
    case VoteCall(now, sender, option) =>
      VotePreservesValid(p, now, sender, option);
      Vote(p, now, sender, option)
    case OptInCall(sender) =>
      Ok(OptIn(p, sender))
  }

  /** The state after the host has executed `calls` one at a time, rolling back each rejected one. */
  function Run(p: Poll, calls: seq<Call>): (q: Poll)
    requires Valid(p)
    ensures Valid(q)
    decreases |calls|
  {
    if calls == [] then p else Run(After(p, Step(p, calls[0])), calls[1..])
  }
}
