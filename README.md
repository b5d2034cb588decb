# Tendermint-style consensus core: vote inbox and round state machine

This project models two parts of a Byzantine-fault-tolerant consensus core and proves properties about them in Dafny.

- **The vote inbox** (`process/message.go`). It stores signed `Propose`/`Prevote`/`Precommit` messages by height, round and signatory. Each insert reports the new number of signatories at that (height, round). It also raises three flags: the first message, the first count above `f`, and the first count above `2f`.
- **The round state machine** (`state/machine.go`). It has three states: `WaitingForPropose`, `WaitingForPolka` and `WaitingForCommit`. Its fields are `height`, `round` and a lock, kept as two separate fields `lockedRound` and `lockedBlock`. Each `Transition` (`Proposed`, `PreVoted`, `PreCommitted`, `TimedOut`) may update those fields and returns at most one action: a prevote, a precommit or a commit.

Files:

- `wrappers.dfy`: `Option`.
- `block.dfy`, module `Block`: the shared value types (`Height`, `Round`, opaque hashes and signatures, `SignedBlock`, `Polka`, `Commit`, the vote records). It also holds the two quorum builders, `PolkaBuilder` and `CommitBuilder`. The machine relies on them, but their source is not part of this model. Each builder stores the votes it receives. It answers `Polka(height, threshold)` or `Commit(height, threshold)` through a rule function supplied when it is built. The model assumes one thing about that rule: any certificate it returns is for the height that was queried (`PolkaHeightConsistent`, `CommitHeightConsistent`).
- `message.dfy`, module `Process`:
  - the `Msg` datatype, one constructor per message kind (`Propose`, `Prevote`, `Precommit`), with the `BlockHash` accessor and the unsigned constructors `NewPropose`, `NewPrevote` and `NewPrecommit`;
  - the `Inbox` class, whose field `messages` is a `map<Height, map<Round, map<Signatory, Msg>>>` that its methods update in place;
  - bucket-level functions and lemmas about sequences of inserts.
- `machine.dfy`, module `StateMachine`:
  - the rules as pure functions over a `Snapshot` of the machine's fields and a `View`. A `View` holds the four answers the builders give after the transition's insert; every query in one transition sees these same answers.
  - the `Machine` class. Its methods update the fields step by step, in the same order as the Go code. Each method is proved to produce exactly the outcome of the corresponding rule.

## Model

| member | source | states |
|---|---|---|
| `Process.NewPropose` | process/message.go:67-115 | A new proposal is unsigned: its signatory and signature are empty. Its accessors read back the height, round, block and valid round it was built with, and its `BlockHash` is the block's hash. |
| `Process.NewPrevote` | process/message.go:164-202 | A new prevote is unsigned. Its accessors read back the height, round and block hash it was built with. |
| `Process.NewPrecommit` | process/message.go:247-285 | A new precommit is unsigned. Its accessors read back the height, round and block hash it was built with. |
| `Process.Inbox.Insert` | process/message.go:333-347 | The bucket at (height, round) becomes the old bucket with the message stored under its signatory, and every other (height, round) bucket is unchanged. `n` is the new number of signatories: the old count if the signatory was already present, otherwise one more. `firstTime` holds exactly when the bucket was empty. `firstTimeExceedingF` holds exactly when the signatory is new and the old count was `f`, and `firstTimeExceeding2F` exactly when the signatory is new and the old count was `2f`. Each flag equals "old count <= threshold < new count". The invariant (each message is filed under its own height, round and signatory) is kept. |
| `Process.Inbox.QueryByHeightRoundBlockHash` | process/message.go:350-363 | Counts, with a loop over the bucket, the signatories whose message votes for the hash. The result is 0 when the height or round is absent, and never more than the number of signatories at that (height, round). |
| `Process.Inbox.QueryByHeightRoundSignatory` | process/message.go:365-373 | Returns the stored message exactly when the signatory has one at (height, round), and none when the height, round or signatory is absent. A returned message carries that height, round and signatory. |
| `Process.Inbox.QueryByHeightRound` | process/message.go:375-384 | Returns the number of distinct signatories at (height, round), and 0 when either key is absent. |
| `Process.Fill` | process/message.go:341-343 | Inserting messages one by one never lowers a round's count. |
| `Process.CrossingReportedOnce` | process/message.go:344-346 | For any sequence of inserts at one (height, round), in any order and with any repetitions, the inserts report crossing a threshold `t` exactly once if the count starts at or below `t` and ends above it, and never otherwise. With `t` set to 0, `f` and `2f`, this covers `firstTime`, `firstTimeExceedingF` and `firstTimeExceeding2F`: each is reported at most once. |
| `Process.FillSignatories` | process/message.go:341-343 | After a sequence of inserts, the signatories stored are exactly the earlier ones plus those inserted. So the final count does not depend on the order of the inserts. |
| `Process.FillBounded` | process/message.go:341-343 | If only validators insert, a round's count never exceeds the number of validators. |
| `StateMachine.PreVoteRule` | state/machine.go:227-270 | Only the lock can change, and only by being cleared. It is cleared exactly when the machine is locked and a polka exists at a round above the lock's round. If still locked, the machine prevotes the locked block. Otherwise it prevotes the proposed block when that block is for the current height, and nil in every other case. The prevote always carries the current (height, round). A paired lock stays paired. |
| `StateMachine.PreCommitRule` | state/machine.go:272-309 | State, height and round are unchanged. If a polka exists, the machine precommits that polka and the lock becomes the polka's block: set, with the polka's round, for a block, and cleared for nil. If there is no polka, the lock is unchanged and the machine precommits an empty polka at the current (height, round). After a polka the lock is always paired. |
| `StateMachine.ExitRule` | state/machine.go:311-343 | The checks run in order. (1) On a commit for a block: height becomes the commit's height + 1, round 0, no lock, `WaitingForPropose`, and the action is that commit. (2) Otherwise, on a polka round above the current round: round jumps to it, the state is kept, and the action is a prevote at the current height and the new round. The lock is released exactly on a polka newer than it. The prevote is for the block still locked, and nil when unlocked. (3) Otherwise, on a commit round above the current round: round jumps to it, the state becomes `WaitingForCommit`, and the action is a precommit. With a polka, the precommit is of that polka, and the lock becomes the polka's round and block (released for a nil polka). Without one, the precommit is nil at the current height and new round, and the lock is kept. (4) Otherwise nothing changes and there is no action. The height changes only in case (1), and then by exactly 1 when the certificate is for the current height. |
| `StateMachine.ProposeStep` | state/machine.go:107-133 | `Proposed` and `TimedOut` move to `WaitingForPolka` and return a prevote at the current height and round directly. The lock is released exactly on a polka newer than it. The prevote is for the block still locked. When unlocked, it is for the proposed block if that block is for the current height, and nil otherwise (always nil on a timeout). On `PreVoted` or `PreCommitted`, the outcome is exactly that of the common exit checks (`ExitRule`). |
| `StateMachine.PolkaStep` | state/machine.go:135-172 | A redundant vote insert returns nothing and changes nothing. A timeout with no polka round returns nothing and changes nothing. A new prevote that yields a polka at the current round moves to `WaitingForCommit` and precommits that polka, locking onto its round and block (or unlocking for a nil polka). A timeout when any polka round exists moves to `WaitingForCommit` and precommits: the polka and the lock it sets if there is one, else nil with the lock kept. On a proposal, a new precommit, or a new prevote without a polka at the current round, the outcome is exactly that of the common exit checks (`ExitRule`). |
| `StateMachine.NextRound` | state/machine.go:187-199 | The state becomes `WaitingForPropose` and the round increases by one. Height and lock are unchanged. The action is a commit of an empty polka at (height, round + 1). |
| `StateMachine.CommitStep` | state/machine.go:174-225 | A nil-block commit at the current round (from a new precommit), or a timeout when any commit round exists, moves to `WaitingForPropose` at round + 1. Height and lock are kept, and the action is `Commit{Polka{height, round+1, nil}}`. A redundant precommit, or a timeout with no commit round, changes nothing. On a proposal, a prevote, or a new precommit without a nil commit at the current round, the outcome is exactly that of the common exit checks (`ExitRule`), so a commit for a block decides the height. |
| `StateMachine.Step` | state/machine.go:79-105 | For every state and transition: a paired lock stays paired, and the height changes only with a commit action for a block. When the builders' certificates are for the current height (`ForHeight`), the step either keeps the height without lowering the round, or moves to height + 1 with round 0, no lock and `WaitingForPropose`; and within a height the round moves only by one or to a round a builder reports. On the transitions where the state's handler falls through (`RunsExitChecks`), the outcome is exactly that of `ExitRule`, so a commit for a block is returned and unlocks. A lock that is set and differs from the old one in round or block is the polka's round and block. A lock is released only on a decision, a newer polka or a nil polka. |
| `StateMachine.SyncCommitRule` | state/machine.go:63-71 | Acts only when the commit's height is above the current height. Then the result is `WaitingForPropose` at the commit's height + 1, round 0, unlocked. Otherwise nothing changes. The height never decreases. |
| `StateMachine.RunMovesForward` | state/machine.go:63-105 | Take any sequence of transitions and catch-up commits in which each builder answer is for the height the machine is at. Across that sequence the lock stays paired, the height never decreases, and at an unchanged height the round never decreases. |
| `StateMachine.DecisionScenario` | state/machine.go:107-225 | With height 0 and round 0: a proposal of block A gives PreVote(A). A polka for A gives a precommit of that polka and locks onto (0, A). A commit for A gives that commit and moves to height 1, round 0, unlocked. |
| `StateMachine.NilPolkaScenario` | state/machine.go:140-150 | A nil polka at the current round gives a precommit of that nil polka and leaves the machine unlocked. |
| `StateMachine.TimeoutWithoutPolkaScenario` | state/machine.go:157-161 | A timeout in `WaitingForPolka` with no polka round returns nothing and leaves the machine unchanged. |
| `StateMachine.Machine.constructor` | state/machine.go:34-41 | A new machine starts in the given state at height 0, round 0, unlocked, with the given builders and threshold. |
| `StateMachine.Machine.Transition` | state/machine.go:79-105 | Dispatches on the state. Its new fields and its action are exactly those of `Step`, given whether the vote was new to its builder and the builders' answers after the insert. The vote is added to its builder. The lock stays paired, and the step moves forward as `Step` states. |
| `StateMachine.Machine.WaitForPropose` | state/machine.go:107-133 | Its new fields and its action are exactly those of `ProposeStep`. |
| `StateMachine.Machine.WaitForPolka` | state/machine.go:135-172 | Its new fields and its action are exactly those of `PolkaStep`. |
| `StateMachine.Machine.WaitForCommit` | state/machine.go:174-225 | Its new fields and its action are exactly those of `CommitStep`. |
| `StateMachine.Machine.PreVote` | state/machine.go:227-270 | Its new fields and its action are exactly those of `PreVoteRule`. |
| `StateMachine.Machine.PreCommit` | state/machine.go:272-309 | Its new fields and its action are exactly those of `PreCommitRule`. |
| `StateMachine.Machine.CheckCommonExitConditions` | state/machine.go:311-343 | Its new fields and its action are exactly those of `ExitRule`. |
| `StateMachine.Machine.SyncCommit` | state/machine.go:63-71 | Its new fields are exactly those of `SyncCommitRule`. |
| `StateMachine.Machine.InsertPrevote` | state/machine.go:55-57 | Adds the prevote to the polka builder and changes nothing else. |
| `StateMachine.Machine.InsertPrecommit` | state/machine.go:59-61 | Adds the precommit to the commit builder and changes nothing else. |
| `StateMachine.Machine.Drop` | state/machine.go:73-77 | Removes the votes at the current height and below from both builders. |

## Left out

- `Sign` and `Verify` use ECDSA signing and key recovery from an external library. They are not modelled, and signatories and signatures are opaque byte strings.
- `SigHash` and the `String` formatters compute SHA3-256 over formatted text. They are not modelled.
- The JSON `MarshalJSON`/`UnmarshalJSON` methods wrap the standard encoder and are not modelled.
- `Block.Hash()` is not part of this model. The `id` package is not part of this model either: a new message's unsigned signatory and signature are modelled as empty byte strings. A proposal's block carries its hash as a field.
- `Inbox.F()` only returns the field `f`. The model reads the constant `f` directly. The Inbox's constructor is not in `process/message.go`; the model's constructor starts with an empty map.
- The machine's getters `Height()`, `Round()` and `State()` only return fields. The model reads the fields directly.
- The internals of `PolkaBuilder` and `CommitBuilder` are not part of this model. Their answers are a function given at construction, and only the height of the certificates they return is assumed. Two builder behaviours are assumptions of this model: `Insert` reports whether the vote was not already stored, and `Drop(h)` forgets the votes at height `h` and below.
- Two safety properties depend on how the builders pick rounds, so they are not proved. One is that a locked machine never precommits a different block at or below its lock round. The other is that matching quorums lead to a decision within a bounded number of steps.
- Logging (`fmt.Println`/`fmt.Printf`) is I/O with no effect on state, and is left out.
- The `panic` for an unknown state or transition cannot happen, because `State` and `Transition` are closed datatypes.
- `Transition` panics when only one of `lockedRound` and `lockedBlock` is set. The model makes the pairing part of the class invariant `Valid()`: every method requires and keeps it, so that panic cannot be reached.
- Heights and rounds are unbounded naturals. `height + 1` and `round + 1` do not wrap at the integer width of the `block` package. Counts and `f` are unbounded integers.
- Concurrency: the calls are serialised by the surrounding system.
- In two places the model follows the Go code where one might expect otherwise:
  - In `WaitingForPropose`, `Proposed` and `TimedOut` return the prevote without running the common exit checks.
  - In `WaitingForPolka`, `TimedOut` precommits when any polka round exists, not only a polka at the current round.
