# Single-poll voting contract, modelled in Dafny

This project models `Voting`, a smart contract for the Algorand ledger. The contract holds
one poll. Any caller may create it once, with a title, a description, 2 to 4 option
labels and a deadline. Accounts that have opted in may then vote once each, strictly inside
the window that opens at creation and closes at the deadline. The contract keeps one tally
per option and records each voter's choice in that account's local state.

The model has three modules:

- `VotingSpec` (`voting_spec.dfy`) is the contract as a pure state machine. `Poll` is a
  snapshot of every stored field. `CreateVote`, `Vote` and `OptIn` map the state before a
  call to the state after it, or to the reason the call is rejected. `After` is the ledger's
  all-or-nothing rule: a rejected call leaves the state as it was. `Valid` is the invariant
  of every reachable state. `Step` and `Run` execute a sequence of calls one at a time, the
  way the ledger serialises them.
- `VotingProperties` (`voting_properties.dfy`) proves what the contract promises. Some lemmas
  are about one call: its guards in order, its effect, and the strict window. Others are
  about any sequence of calls: creation succeeds at most once, each account votes at most
  once, and the tallies always add up to the recorded votes.
- `VotingContract` (`voting_contract.dfy`) is the contract as the class `Voting`, with
  mutable fields and methods that update them in place. Each method is proved against the
  matching `VotingSpec` function through `Snapshot()`, so every lemma above applies to it.
  Four client methods replay the contract's usage scenarios through the class contracts
  alone.

The ledger's current time (`Global.latest_timestamp`) and the caller (`Txn.sender`) are
parameters of every call.

## Model

| member | source | states |
|---|---|---|
| `VotingContract.Voting.constructor` | contract.py:37-56 | Deployment leaves every string empty, `noOfOptions`, all four tallies, `startsAt`, `endsAt` and `vote_status` at 0, and no local state. The result satisfies the invariant. |
| `VotingSpec.InitialPollValid` | contract.py:42-56 | The deployed state satisfies the reachable-state invariant `Valid`. |
| `VotingProperties.InitialPollIsBlank` | contract.py:42-56 | After deployment `vote_status` = 0, `noOfOptions` = 0, all tallies are 0 and `startsAt` = `endsAt` = 0. Nobody has opted in or voted. |
| `VotingSpec.CreateVote` | contract.py:83-101 | A successful creation sets the status to 1 and opens a non-empty window (`startsAt` < `endsAt`). It leaves all per-account state unchanged. |
| `VotingProperties.CreateVoteGuards` | contract.py:83-85 | The guards run in the order status, option count, deadline. Each error is returned exactly when its guard is the first to fail. The call succeeds iff status is 0, 2 ≤ `noOfOptions` ≤ 4 and now < `endsAt`. |
| `VotingProperties.CreateVoteEffect` | contract.py:88-101 | A successful creation stores every argument verbatim, unused option labels included. It zeroes all four tallies, sets `startsAt` to now, `endsAt` as given and the status to 1. |
| `VotingProperties.CreateVoteAfterCreationFails` | contract.py:83-101 | Once the status is 1, every `create_vote` fails with `AlreadyCreated`, whatever its arguments. |
| `VotingSpec.CreateVotePreservesValid` | contract.py:83-101 | A successful creation keeps the invariant: 2 ≤ `noOfOptions` ≤ 4, `startsAt` < `endsAt`, and each tally equals its number of voters. |
| `VotingContract.Voting.CreateVote` | contract.py:63-101 | The method returns the error of the first failing guard and changes no field when it fails. On success it assigns every field as the contract does. Its outcome and new state equal `VotingSpec.CreateVote` under the rollback rule, and it keeps `Valid`. |
| `VotingSpec.Vote` | contract.py:120-139 | An accepted vote satisfies `startsAt` < now < `endsAt` and 1 ≤ option ≤ `noOfOptions`, from a caller with no recorded vote. It records exactly `localState[sender := option]`. The `op.exit(0)` fallback is proved unreachable from `noOfOptions` ≤ 4. |
| `VotingProperties.VoteGuards` | contract.py:120-127 | Gives each error's exact condition, in the contract's order: ended, not started, invalid option, already voted, then the local-state write of a caller who never opted in. A vote succeeds iff the window is open, the option is in range, the caller opted in and has not voted. |
| `VotingProperties.VoteWindowIsStrict` | contract.py:120-121 | Once created, a vote at now = `startsAt` fails with `VotingNotStarted` and one at now = `endsAt` fails with `VotingEnded`. |
| `VotingProperties.VoteBeforeCreationFails` | contract.py:120-121 | Before creation `endsAt` is 0, so every vote fails with `VotingEnded`. This holds even though `vote` never reads `vote_status`. |
| `VotingProperties.VoteEffect` | contract.py:127-137 | A successful vote stores the option in the caller's slot. It adds 1 to exactly the chosen option's tally, so the tally sum grows by 1, and changes no other field. |
| `VotingProperties.SecondVoteRejected` | contract.py:124-127 | After an account's successful vote, any later vote from it is rejected and leaves the tallies unchanged. |
| `VotingSpec.VotePreservesValid` | contract.py:120-137 | A successful vote keeps the invariant. Every tally still counts exactly the accounts that chose its option. |
| `VotingContract.Voting.Vote` | contract.py:108-139 | The method returns the first failing guard's error and changes no field when it fails. On success it writes the caller's local state and increments one tally through the contract's if-chain, whose final `else` is an `assert false`. Its outcome and new state equal `VotingSpec.Vote` under the rollback rule, and it keeps `Valid`. |
| `VotingSpec.OptIn` | contract.py:144-150 | After opt-in the caller has an allocated local-state slot. |
| `VotingProperties.OptInEffect` | contract.py:144-150 | Opt-in changes no contract field, only the opted-in set, which gains the caller. Repeating it changes nothing. |
| `VotingContract.Voting.OptIn` | contract.py:144-150 | The method adds the caller to the opted-in set, equals `VotingSpec.OptIn` and keeps `Valid`. |
| `VotingProperties.TallyConservation` | contract.py:124-137 | In every valid state the four tallies sum to the number of accounts with a recorded vote. |
| `VotingSpec.Step` | contract.py:62-150 | Every accepted call of any of the three entry points keeps the invariant. |
| `VotingSpec.Run` | contract.py:16-150 | After any sequence of calls from a valid state, executed one at a time with rejected calls rolled back, the state is still valid. |
| `VotingProperties.ReachableTallyConservation` | contract.py:16-150 | Every state reachable from deployment satisfies the invariant and tally conservation. |
| `VotingProperties.CreationIsFinal` | contract.py:83-101 | Once created, the status stays 1 through any later calls. The title, description, option count, labels and window never change again. |
| `VotingProperties.CreationsAtMostOnce` | contract.py:83-101 | Along any call sequence, accepted `create_vote` calls plus the initial status total at most 1. Creation succeeds at most once in the contract's lifetime. |
| `VotingProperties.BallotIsFinal` | contract.py:124-127 | A recorded vote is never removed or overwritten by later calls. |
| `VotingProperties.VotesAtMostOnce` | contract.py:124-127 | Along any call sequence, an account has at most one vote accepted, counting a vote it has already recorded. |

## Left out

- The ARC4 runtime is not modelled: method-selector encoding, the `@abimethod` decorators and `allow_actions`. Calls are plain method invocations.
- `Global.latest_timestamp` and `Txn.sender` are parameters. The clock's monotonicity and account authentication are not modelled.
- Ledger concurrency is not modelled: the host runs calls one at a time. Rolling back a failed call is modelled as "the state is unchanged" (`After`, and `unchanged(this)` in the class).
- UInt64 arithmetic is modelled as unbounded `nat`: timestamps, `noOfOptions`, the option argument and the tallies. The ledger's failure on a tally overflowing 2^64 - 1 is not modelled.
- The four option labels and the four tallies are stored as sequences of length 4 (`options`, `optionVotes`), not as eight separate fields. Index `i` is option `i + 1`. `Valid` keeps the length at 4.
- The per-account local state is a map from account to option plus a set of opted-in accounts. How the ledger allocates the slot is not modelled.
- `NotOptedIn` stands for the ledger's failure on the local-state write at contract.py:127 when the caller never opted in. That write is where the contract fails: the read at line 124 reports "absent" for such a caller. The model therefore checks `AlreadyVoted` before `NotOptedIn`, as the code runs. Written as a precondition list, the slot check would come before the vote check. The two orders never differ on a valid state, because only opted-in accounts hold a vote.
- `opt_in` is modelled as allocate-if-absent. The ledger rejects a second opt-in from the same account, but the contract state afterwards is the same either way.
- Closing out or clearing an account's local state is not modelled. Both are ledger actions the contract has no code for. Clearing deletes the recorded vote, so "each account votes at most once" and tally conservation hold only for accounts that never clear their local state.
- Title, description and option labels are opaque strings, copied verbatim.
