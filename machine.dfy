/**
 * The propose/prevote/precommit round state machine (`state` package).
 *
 * The machine's behaviour is given twice: as pure rules over a `Snapshot` of
 * its fields and a `View` of what the builders answer (the functions below,
 * where its properties are proved), and as the `Machine` class whose methods
 * update the fields step by step and are proved to follow those rules.
 */
module StateMachine {
  import opened Wrappers
  import opened Block

  datatype State = WaitingForPropose | WaitingForPolka | WaitingForCommit

  datatype Transition =
    | Proposed(block: SignedBlock, round: Round)
    | PreVoted(preVote: SignedPreVote)
    | PreCommitted(preCommit: SignedPreCommit)
    | TimedOut

  /** What a transition asks the caller to broadcast. */
  datatype Action =
    | PreVoteAction(preVote: PreVote)
    | PreCommitAction(preCommit: PreCommit)
    | CommitAction(commit: Commit)

  /** The machine's own fields. */
  datatype Snapshot = Snapshot(state: State, height: Height, round: Round,
                               lockedRound: Option<Round>, lockedBlock: Option<SignedBlock>)
  {
    /** The lock's round and block are both set or both unset. */
    predicate LockPaired()
    {
      lockedRound.None? <==> lockedBlock.None?
    }

    function Unlocked(): Snapshot
    {
      this.(lockedRound := None, lockedBlock := None)
    }
  }

  /**
   * What the builders answer for the machine's height and threshold, once the
   * transition's vote (if any) has been inserted: every query made during one
   * transition sees these same answers.
   */
  datatype View = View(polka: Option<Polka>, polkaRound: Option<Round>,
                       commit: Option<Commit>, commitRound: Option<Round>)

  /** The builders' answers are certificates for `height`. */
  predicate ForHeight(v: View, height: Height)
  {
    && (v.polka.Some? ==> v.polka.value.height == height)
    && (v.commit.Some? ==> v.commit.value.polka.height == height)
  }

  datatype Outcome = Outcome(next: Snapshot, action: Option<Action>)

  /**
   * One step either stays at the height without lowering the round, or
   * decides the height: the next height, round 0, no lock, waiting for a proposal.
   */
  predicate StepsForward(s: Snapshot, s': Snapshot)
  {
    || (s'.height == s.height && s'.round >= s.round)
    || (&& s'.height == s.height + 1 && s'.round == 0
        && s'.lockedRound.None? && s'.lockedBlock.None? && s'.state == WaitingForPropose)
  }

  /** `s'` is at a later height than `s`, or at the same height and no earlier round. */
  predicate NotBefore(s: Snapshot, s': Snapshot)
  {
    s'.height > s.height || (s'.height == s.height && s'.round >= s.round)
  }

  /**
   * Within a height the round changes only by one, or by a jump to a round at
   * which a builder reports a quorum.
   */
  predicate RoundMoves(s: Snapshot, s': Snapshot, v: View)
  {
    s'.height == s.height && s'.round != s.round ==>
      || s'.round == s.round + 1
      || (v.polkaRound.Some? && s'.round == v.polkaRound.value)
      || (v.commitRound.Some? && s'.round == v.commitRound.value)
  }

  /** A polka at a round above the lock's round releases the lock. */
  predicate NewerPolka(s: Snapshot, v: View)
  {
    s.lockedRound.Some? && v.polka.Some? && s.lockedRound.value < v.polka.value.round
  }

  /**
   * The prevote rule: unlock on a newer polka; prevote the locked block while
   * locked, else the proposal if it is for this height, else nil.
   */
  function PreVoteRule(s: Snapshot, v: View, proposed: Option<SignedBlock>): (o: Outcome)
    ensures o.next == s || o.next == s.Unlocked()
    ensures (s.lockedRound.Some? && o.next.lockedRound.None?) <==> NewerPolka(s, v)
    ensures s.LockPaired() ==> o.next.LockPaired()
    ensures o.action.Some? && o.action.value.PreVoteAction?
    ensures o.action.value.preVote.height == s.height && o.action.value.preVote.round == s.round
    ensures s.LockPaired() && o.next.lockedRound.Some? ==>
      o.action.value.preVote.block.Some? && o.action.value.preVote.block == s.lockedBlock
    ensures o.next.lockedRound.None? ==>
      && (o.action.value.preVote.block.Some? <==> proposed.Some? && proposed.value.height == s.height)
      && (o.action.value.preVote.block.Some? ==> o.action.value.preVote.block == proposed)
  {
    var s1 := if NewerPolka(s, v) then s.Unlocked() else s;
    var block :=
      if s1.lockedRound.Some? then s1.lockedBlock
      else if proposed.Some? && proposed.value.height == s.height then proposed
      else None;
    Outcome(s1, Some(PreVoteAction(PreVote(block, s.height, s.round))))
  }

  /**
   * The precommit rule: a polka for a block locks onto it, a nil polka unlocks,
   * and either is precommitted; with no polka the lock stays and nil is
   * precommitted at the current height and round.
   */
  function PreCommitRule(s: Snapshot, v: View): (o: Outcome)
    ensures o.next.state == s.state && o.next.height == s.height && o.next.round == s.round
    ensures v.polka.Some? || s.LockPaired() ==> o.next.LockPaired()
    ensures o.action.Some? && o.action.value.PreCommitAction?
    ensures v.polka.Some? ==>
      && o.action.value.preCommit.polka == v.polka.value
      && o.next.lockedBlock == v.polka.value.block
      && (o.next.lockedRound.Some? ==> o.next.lockedRound.value == v.polka.value.round)
    ensures v.polka.None? ==>
      o.next == s && o.action.value.preCommit.polka == Polka(s.height, s.round, None)
  {
    match v.polka
    case Some(polka) =>
      if polka.block.Some? then
        Outcome(s.(lockedRound := Some(polka.round), lockedBlock := polka.block),
                Some(PreCommitAction(PreCommit(polka))))
      else
        Outcome(s.Unlocked(), Some(PreCommitAction(PreCommit(polka))))
    case None =>
      Outcome(s, Some(PreCommitAction(PreCommit(Polka(s.height, s.round, None)))))
  }

  /** A commit for a block: the height is decided. */
  predicate Decided(v: View)
  {
    v.commit.Some? && v.commit.value.polka.block.Some?
  }

  /**
   * `o` is a prevote at the height and round of `s` with `proposed` on offer:
   * the lock is released exactly on a newer polka and nothing else changes;
   * the vote is for the block still locked, else for the proposal when it is
   * for this height, else nil.
   */
  predicate PrevotesFor(s: Snapshot, v: View, proposed: Option<SignedBlock>, o: Outcome)
  {
    && (o.next == s || o.next == s.Unlocked())
    && ((s.lockedRound.Some? && o.next.lockedRound.None?) <==> NewerPolka(s, v))
    && o.action.Some? && o.action.value.PreVoteAction?
    && o.action.value.preVote.height == s.height && o.action.value.preVote.round == s.round
    && (o.next.lockedRound.Some? ==> o.action.value.preVote.block == s.lockedBlock)
    && (o.next.lockedRound.None? ==>
          o.action.value.preVote.block
            == if proposed.Some? && proposed.value.height == s.height then proposed else None)
  }

  /**
   * `o` is a precommit at the state, height and round of `s`: of the polka
   * when there is one, with the lock set to its round and block (or released
   * for a nil polka); else of nil at (height, round), with the lock kept.
   */
  predicate PrecommitsFor(s: Snapshot, v: View, o: Outcome)
  {
    && o.next.state == s.state && o.next.height == s.height && o.next.round == s.round
    && o.action.Some? && o.action.value.PreCommitAction?
    && match v.polka
       case None =>
         o.next == s && o.action.value.preCommit.polka == Polka(s.height, s.round, None)
       case Some(p) =>
         && o.action.value.preCommit.polka == p
         && o.next.lockedBlock == p.block
         && o.next.lockedRound == (if p.block.Some? then Some(p.round) else None)
  }

  /**
   * The common exit conditions, first match wins: decide on a block commit;
   * else follow a polka at a later round and prevote; else follow a commit
   * at a later round and precommit; else nothing.
   */
  function ExitRule(s: Snapshot, v: View): (o: Outcome)
    ensures s.LockPaired() ==> o.next.LockPaired()
    ensures ForHeight(v, s.height) ==> StepsForward(s, o.next)
    ensures o.next.height != s.height ==> Decided(v)
    ensures ForHeight(v, s.height) && Decided(v) ==> o.next.height == s.height + 1
    ensures Decided(v) ==>
      && o.action == Some(CommitAction(v.commit.value))
      && o.next == Snapshot(WaitingForPropose, v.commit.value.polka.height + 1, 0, None, None)
    ensures !Decided(v) && v.polkaRound.Some? && v.polkaRound.value > s.round ==>
      && o.next.round == v.polkaRound.value && o.next.state == s.state
      && o.action.Some? && o.action.value.PreVoteAction? && o.action.value.preVote.round == o.next.round
      && PrevotesFor(s.(round := v.polkaRound.value), v, None, o)
    ensures (&& !Decided(v) && !(v.polkaRound.Some? && v.polkaRound.value > s.round)
             && v.commitRound.Some? && v.commitRound.value > s.round) ==>
      && o.next.round == v.commitRound.value && o.next.state == WaitingForCommit
      && o.action.Some? && o.action.value.PreCommitAction?
      && PrecommitsFor(s.(state := WaitingForCommit, round := v.commitRound.value), v, o)
    ensures o.action.None? ==> o.next == s
    ensures !Decided(v) && o.next.round != s.round ==> Some(o.next.round) in {v.polkaRound, v.commitRound}
    ensures o.action.None? <==>
      && !Decided(v)
      && !(v.polkaRound.Some? && v.polkaRound.value > s.round)
      && !(v.commitRound.Some? && v.commitRound.value > s.round)
  {
    if Decided(v) then
      Outcome(Snapshot(WaitingForPropose, v.commit.value.polka.height + 1, 0, None, None),
              Some(CommitAction(v.commit.value)))
    else if v.polkaRound.Some? && v.polkaRound.value > s.round then
      PreVoteRule(s.(round := v.polkaRound.value), v, None)
    else if v.commitRound.Some? && v.commitRound.value > s.round then
      PreCommitRule(s.(state := WaitingForCommit, round := v.commitRound.value), v)
    else
      Outcome(s, None)
  }

  /**
   * In `WaitingForPropose`: a proposal or a timeout moves on to prevoting;
   * a vote is only buffered, and then the common exit checks run.
   */
  function ProposeStep(s: Snapshot, t: Transition, v: View): (o: Outcome)
    ensures ForHeight(v, s.height) ==> RoundMoves(s, o.next, v)
    ensures s.LockPaired() ==> o.next.LockPaired()
    ensures ForHeight(v, s.height) ==> StepsForward(s, o.next)
    ensures t.Proposed? || t.TimedOut? ==>
      && o.next.state == WaitingForPolka && o.next.height == s.height && o.next.round == s.round
      && o.action.Some? && o.action.value.PreVoteAction?
      && o.action.value.preVote.height == s.height && o.action.value.preVote.round == s.round
    ensures t.TimedOut? && o.next.lockedRound.None? ==> o.action.value.preVote.block.None?
    ensures t.Proposed? ==> PrevotesFor(s.(state := WaitingForPolka), v, Some(t.block), o)
    ensures t.TimedOut? ==> PrevotesFor(s.(state := WaitingForPolka), v, None, o)
    ensures t.PreVoted? || t.PreCommitted? ==> o == ExitRule(s, v)
  {
    match t
    case Proposed(block, _) => PreVoteRule(s.(state := WaitingForPolka), v, Some(block))
    case PreVoted(_) => ExitRule(s, v)
    case PreCommitted(_) => ExitRule(s, v)
    case TimedOut => PreVoteRule(s.(state := WaitingForPolka), v, None)
  }

  /**
   * In `WaitingForPolka`, the transitions after which the common exit checks
   * run: a proposal, a new precommit, and a new prevote that gives no polka
   * at the current round.
   */
  predicate PolkaFallsThrough(s: Snapshot, t: Transition, added: bool, v: View)
  {
    || t.Proposed?
    || (t.PreCommitted? && added)
    || (t.PreVoted? && added && !(v.polka.Some? && v.polka.value.round == s.round))
  }

  /** In `WaitingForPolka`: a polka at the current round, or a timeout once any polka round exists, moves on to precommitting. */
  function PolkaStep(s: Snapshot, t: Transition, added: bool, v: View): (o: Outcome)
    ensures ForHeight(v, s.height) ==> RoundMoves(s, o.next, v)
    ensures s.LockPaired() ==> o.next.LockPaired()
    ensures ForHeight(v, s.height) ==> StepsForward(s, o.next)
    ensures (t.PreVoted? || t.PreCommitted?) && !added ==> o == Outcome(s, None)
    ensures t.TimedOut? && v.polkaRound.None? ==> o == Outcome(s, None)
    ensures t.TimedOut? && v.polkaRound.Some? ==>
      && o.next.state == WaitingForCommit && o.next.height == s.height && o.next.round == s.round
      && o.action.Some? && o.action.value.PreCommitAction?
      && PrecommitsFor(s.(state := WaitingForCommit), v, o)
    ensures t.PreVoted? && added && v.polka.Some? && v.polka.value.round == s.round ==>
      && o.next.state == WaitingForCommit && o.next.height == s.height && o.next.round == s.round
      && o.action == Some(PreCommitAction(PreCommit(v.polka.value)))
      && PrecommitsFor(s.(state := WaitingForCommit), v, o)
    ensures PolkaFallsThrough(s, t, added, v) ==> o == ExitRule(s, v)
  {
    match t
    case Proposed(_, _) => ExitRule(s, v)
    case PreVoted(_) =>
      if !added then Outcome(s, None)
      else if v.polka.Some? && v.polka.value.round == s.round then
        PreCommitRule(s.(state := WaitingForCommit), v)
      else ExitRule(s, v)
    case PreCommitted(_) =>
      if !added then Outcome(s, None) else ExitRule(s, v)
    case TimedOut =>
      if v.polkaRound.None? then Outcome(s, None)
      else PreCommitRule(s.(state := WaitingForCommit), v)
  }

  /** The round failed: wait for a proposal at the next round, and announce an empty commit for it. */
  function NextRound(s: Snapshot): (o: Outcome)
    ensures o.next.height == s.height && o.next.round == s.round + 1 && o.next.state == WaitingForPropose
    ensures o.next.lockedRound == s.lockedRound && o.next.lockedBlock == s.lockedBlock
    ensures o.action == Some(CommitAction(Commit(Polka(o.next.height, o.next.round, None))))
  {
    Outcome(s.(state := WaitingForPropose, round := s.round + 1),
            Some(CommitAction(Commit(Polka(s.height, s.round + 1, None)))))
  }

  /**
   * In `WaitingForCommit`, the transitions after which the common exit checks
   * run: a proposal, a prevote, and a new precommit that gives no nil commit
   * at the current round.
   */
  predicate CommitFallsThrough(s: Snapshot, t: Transition, added: bool, v: View)
  {
    || t.Proposed? || t.PreVoted?
    || (&& t.PreCommitted? && added
        && !(v.commit.Some? && v.commit.value.polka.block.None? && v.commit.value.polka.round == s.round))
  }

  /** In `WaitingForCommit`: a nil commit at the current round, or a timeout once any commit round exists, starts the next round. */
  function CommitStep(s: Snapshot, t: Transition, added: bool, v: View): (o: Outcome)
    ensures ForHeight(v, s.height) ==> RoundMoves(s, o.next, v)
    ensures s.LockPaired() ==> o.next.LockPaired()
    ensures ForHeight(v, s.height) ==> StepsForward(s, o.next)
    ensures t.PreCommitted? && !added ==> o == Outcome(s, None)
    ensures t.TimedOut? && v.commitRound.None? ==> o == Outcome(s, None)
    ensures (|| (t.TimedOut? && v.commitRound.Some?)
             || (&& t.PreCommitted? && added && v.commit.Some?
                 && v.commit.value.polka.block.None? && v.commit.value.polka.round == s.round)) ==>
      && o.next == s.(state := WaitingForPropose, round := s.round + 1)
      && o.action == Some(CommitAction(Commit(Polka(s.height, s.round + 1, None))))
    ensures CommitFallsThrough(s, t, added, v) ==> o == ExitRule(s, v)
  {
    match t
    case Proposed(_, _) => ExitRule(s, v)
    case PreVoted(_) => ExitRule(s, v)
    case PreCommitted(_) =>
      if !added then Outcome(s, None)
      else if v.commit.Some? && v.commit.value.polka.block.None? && v.commit.value.polka.round == s.round then
        NextRound(s)
      else ExitRule(s, v)
    case TimedOut =>
      if v.commitRound.None? then Outcome(s, None) else NextRound(s)
  }

  /** The transitions after which the handler for `s.state` falls through to the common exit checks. */
  predicate RunsExitChecks(s: Snapshot, t: Transition, added: bool, v: View)
  {
    match s.state
    case WaitingForPropose => t.PreVoted? || t.PreCommitted?
    case WaitingForPolka => PolkaFallsThrough(s, t, added, v)
    case WaitingForCommit => CommitFallsThrough(s, t, added, v)
  }

  /**
   * One transition. `added` says whether the transition's vote was new to its
   * builder; `v` is what the builders answer after that insert.
   */
  function Step(s: Snapshot, t: Transition, added: bool, v: View): (o: Outcome)
    ensures s.LockPaired() ==> o.next.LockPaired()
    ensures ForHeight(v, s.height) ==> StepsForward(s, o.next)
    ensures o.next.height != s.height ==>
      o.action.Some? && o.action.value.CommitAction? && o.action.value.commit.polka.block.Some?
    ensures ForHeight(v, s.height) ==> RoundMoves(s, o.next, v)
    ensures RunsExitChecks(s, t, added, v) ==> o == ExitRule(s, v)
    ensures RunsExitChecks(s, t, added, v) && Decided(v) ==>
      o.action == Some(CommitAction(v.commit.value)) && o.next.lockedRound.None?
    ensures (&& o.next.lockedRound.Some?
             && (o.next.lockedRound != s.lockedRound || o.next.lockedBlock != s.lockedBlock)) ==>
      v.polka.Some? && o.next.lockedRound.value == v.polka.value.round && o.next.lockedBlock == v.polka.value.block
    ensures s.lockedRound.Some? && o.next.lockedRound.None? ==>
      Decided(v) || NewerPolka(s, v) || (v.polka.Some? && v.polka.value.block.None?)
  {
    match s.state
    case WaitingForPropose => ProposeStep(s, t, v)
    case WaitingForPolka => PolkaStep(s, t, added, v)
    case WaitingForCommit => CommitStep(s, t, added, v)
  }

  /** Fast-forward to the height after an externally obtained commit, if it is ahead. */
  function SyncCommitRule(s: Snapshot, commit: Commit): (s': Snapshot)
    ensures s'.height >= s.height
    ensures s'.height > s.height <==> commit.polka.height > s.height
    ensures s'.height > s.height ==>
      s' == Snapshot(WaitingForPropose, commit.polka.height + 1, 0, None, None)
    ensures s'.height == s.height ==> s' == s
  {
    if commit.polka.height > s.height then
      Snapshot(WaitingForPropose, commit.polka.height + 1, 0, None, None)
    else s
  }

  /** An input to the machine's state: a transition, or a catch-up commit. */
  datatype Event =
    | Transitioned(t: Transition, added: bool, view: View)
    | Synced(commit: Commit)

  function Run(s: Snapshot, events: seq<Event>): Snapshot
    decreases |events|
  {
    if events == [] then s
    else
      var s' := match events[0]
        case Transitioned(t, added, v) => Step(s, t, added, v).next
        case Synced(c) => SyncCommitRule(s, c);
      Run(s', events[1..])
  }

  /** Every transition of the run saw certificates for the height the machine was at. */
  predicate HeightConsistentRun(s: Snapshot, events: seq<Event>)
    decreases |events|
  {
    if events == [] then true
    else
      match events[0]
      case Transitioned(t, added, v) =>
        ForHeight(v, s.height) && HeightConsistentRun(Step(s, t, added, v).next, events[1..])
      case Synced(c) => HeightConsistentRun(SyncCommitRule(s, c), events[1..])
  }

  /**
   * Over any run, the lock stays paired, the height never decreases, and within
   * a height the round never decreases.
   */
  lemma {:induction false} RunMovesForward(s: Snapshot, events: seq<Event>)
    requires s.LockPaired()
    requires HeightConsistentRun(s, events)
    ensures Run(s, events).LockPaired()
    ensures NotBefore(s, Run(s, events))
    decreases |events|
  {
    if events != [] {
      var s' := match events[0]
        case Transitioned(t, added, v) => Step(s, t, added, v).next
        case Synced(c) => SyncCommitRule(s, c);
      assert NotBefore(s, s');
      RunMovesForward(s', events[1..]);
    }
  }

  /**
   * At height 0, round 0, with the builders' answers given at each step: a
   * proposal of `a` is prevoted; a polka for `a` is precommitted and locks
   * onto `a`; a commit for `a` decides height 0 and unlocks.
   */
  lemma DecisionScenario(a: SignedBlock, prevote: SignedPreVote, precommit: SignedPreCommit)
    requires a.height == 0
    ensures var s0 := Snapshot(WaitingForPropose, 0, 0, None, None);
      var polka := Polka(0, 0, Some(a));
      var o1 := Step(s0, Proposed(a, 0), true, View(None, None, None, None));
      var o2 := Step(o1.next, PreVoted(prevote), true, View(Some(polka), Some(0), None, None));
      var o3 := Step(o2.next, PreCommitted(precommit), true, View(Some(polka), Some(0), Some(Commit(polka)), Some(0)));
      && o1 == Outcome(Snapshot(WaitingForPolka, 0, 0, None, None), Some(PreVoteAction(PreVote(Some(a), 0, 0))))
      && o2 == Outcome(Snapshot(WaitingForCommit, 0, 0, Some(0), Some(a)), Some(PreCommitAction(PreCommit(polka))))
      && o3 == Outcome(Snapshot(WaitingForPropose, 1, 0, None, None), Some(CommitAction(Commit(polka))))
  {
  }

  /** A nil polka is precommitted and leaves the machine unlocked. */
  lemma NilPolkaScenario(prevote: SignedPreVote)
    ensures var s := Snapshot(WaitingForPolka, 0, 0, None, None);
      var polka := Polka(0, 0, None);
      Step(s, PreVoted(prevote), true, View(Some(polka), Some(0), None, None))
        == Outcome(Snapshot(WaitingForCommit, 0, 0, None, None), Some(PreCommitAction(PreCommit(polka))))
  {
  }

  /** A timeout while waiting for a polka, with no polka formed, does nothing. */
  lemma TimeoutWithoutPolkaScenario(s: Snapshot, v: View)
    requires s.state == WaitingForPolka && v.polkaRound.None?
    ensures Step(s, TimedOut, true, v) == Outcome(s, None)
  {
  }

  /** The vote a transition carries to its builder, if any. */
  function AddedVote(t: Transition, prevotes: set<SignedPreVote>, precommits: set<SignedPreCommit>): bool
  {
    match t
    case PreVoted(vote) => vote !in prevotes
    case PreCommitted(vote) => vote !in precommits
    case _ => true
  }

  function WithPrevote(t: Transition, prevotes: set<SignedPreVote>): set<SignedPreVote>
  {
    if t.PreVoted? then prevotes + {t.preVote} else prevotes
  }

  function WithPrecommit(t: Transition, precommits: set<SignedPreCommit>): set<SignedPreCommit>
  {
    if t.PreCommitted? then precommits + {t.preCommit} else precommits
  }

  class Machine {
    var state: State
    var height: Height
    var round: Round
    var lockedRound: Option<Round>
    var lockedBlock: Option<SignedBlock>

    const polkaBuilder: PolkaBuilder
    const commitBuilder: CommitBuilder
    const consensusThreshold: int

    ghost predicate Valid()
      reads this
    {
      polkaBuilder.Valid() && commitBuilder.Valid() && Snap().LockPaired()
    }

    function Snap(): Snapshot
      reads this
    {
      Snapshot(state, height, round, lockedRound, lockedBlock)
    }

    /** What the builders currently answer for `h` at the machine's threshold. */
    ghost function Observed(h: Height): (v: View)
      reads polkaBuilder, commitBuilder
      ensures polkaBuilder.Valid() && commitBuilder.Valid() ==> ForHeight(v, h)
    {
      View(polkaBuilder.Answer(h, consensusThreshold).0, polkaBuilder.Answer(h, consensusThreshold).1,
           commitBuilder.Answer(h, consensusThreshold).0, commitBuilder.Answer(h, consensusThreshold).1)
    }

    constructor (state: State, polkaBuilder: PolkaBuilder, commitBuilder: CommitBuilder, consensusThreshold: int)
      requires polkaBuilder.Valid() && commitBuilder.Valid()
      ensures Valid()
      ensures Snap() == Snapshot(state, 0, 0, None, None)
      ensures this.polkaBuilder == polkaBuilder && this.commitBuilder == commitBuilder
      ensures this.consensusThreshold == consensusThreshold
    {
      this.state := state;
      this.polkaBuilder := polkaBuilder;
      this.commitBuilder := commitBuilder;
      this.consensusThreshold := consensusThreshold;
      height := 0;
      round := 0;
      lockedRound := None;
      lockedBlock := None;
    }

    method InsertPrevote(vote: SignedPreVote)
      modifies polkaBuilder
      ensures polkaBuilder.votes == old(polkaBuilder.votes) + {vote}
    {
      var added := polkaBuilder.Insert(vote);
    }

    method InsertPrecommit(vote: SignedPreCommit)
      modifies commitBuilder
      ensures commitBuilder.votes == old(commitBuilder.votes) + {vote}
    {
      var added := commitBuilder.Insert(vote);
    }

    method SyncCommit(commit: Commit)
      requires Valid()
      modifies this
      ensures Valid()
      ensures Snap() == SyncCommitRule(old(Snap()), commit)
    {
      if commit.polka.height > height {
        state := WaitingForPropose;
        height := commit.polka.height + 1;
        round := 0;
        lockedBlock := None;
        lockedRound := None;
      }
    }

    /** Forgets the builders' votes at the current height and below. */
    method Drop()
      modifies polkaBuilder, commitBuilder
      ensures polkaBuilder.votes == set v | v in old(polkaBuilder.votes) && v.preVote.height > height
      ensures commitBuilder.votes == set v | v in old(commitBuilder.votes) && v.preCommit.polka.height > height
    {
      polkaBuilder.Drop(height);
      commitBuilder.Drop(height);
    }

    method Transition(t: Transition) returns (action: Option<Action>)
      requires Valid()
      modifies this, polkaBuilder, commitBuilder
      ensures Valid()
      ensures polkaBuilder.votes == WithPrevote(t, old(polkaBuilder.votes))
      ensures commitBuilder.votes == WithPrecommit(t, old(commitBuilder.votes))
      ensures Outcome(Snap(), action)
        == Step(old(Snap()), t, AddedVote(t, old(polkaBuilder.votes), old(commitBuilder.votes)), Observed(old(height)))
      ensures StepsForward(old(Snap()), Snap())
      ensures RoundMoves(old(Snap()), Snap(), Observed(old(height)))
    {
      match state
      case WaitingForPropose =>
        action := WaitForPropose(t);
      case WaitingForPolka =>
        action := WaitForPolka(t);
      case WaitingForCommit =>
        action := WaitForCommit(t);
    }

    method WaitForPropose(t: Transition) returns (action: Option<Action>)
      requires Valid() && state == WaitingForPropose
      modifies this, polkaBuilder, commitBuilder
      ensures Valid()
      ensures polkaBuilder.votes == WithPrevote(t, old(polkaBuilder.votes))
      ensures commitBuilder.votes == WithPrecommit(t, old(commitBuilder.votes))
      ensures Outcome(Snap(), action) == ProposeStep(old(Snap()), t, Observed(old(height)))
    {
      match t {
        case Proposed(block, _) =>
          state := WaitingForPolka;
          var a := PreVote(Some(block));
          return Some(a);
        case PreVoted(vote) =>
          var added := polkaBuilder.Insert(vote);
        case PreCommitted(vote) =>
          var added := commitBuilder.Insert(vote);
        case TimedOut =>
          state := WaitingForPolka;
          var a := PreVote(None);
          return Some(a);
      }
      action := CheckCommonExitConditions();
    }

    method WaitForPolka(t: Transition) returns (action: Option<Action>)
      requires Valid() && state == WaitingForPolka
      modifies this, polkaBuilder, commitBuilder
      ensures Valid()
      ensures polkaBuilder.votes == WithPrevote(t, old(polkaBuilder.votes))
      ensures commitBuilder.votes == WithPrecommit(t, old(commitBuilder.votes))
      ensures Outcome(Snap(), action)
        == PolkaStep(old(Snap()), t, AddedVote(t, old(polkaBuilder.votes), old(commitBuilder.votes)), Observed(old(height)))
    {
      match t {
        case Proposed(_, _) =>
        case PreVoted(vote) =>
          var added := polkaBuilder.Insert(vote);
          if !added {
            return None;
          }
          var polka, preVotingRound := polkaBuilder.Polka(height, consensusThreshold);
          if polka.Some? && polka.value.round == round {
            state := WaitingForCommit;
            var a := PreCommit();
            return Some(a);
          }
        case PreCommitted(vote) =>
          var added := commitBuilder.Insert(vote);
          if !added {
            return None;
          }
        case TimedOut =>
          var polka, preVotingRound := polkaBuilder.Polka(height, consensusThreshold);
          if preVotingRound.None? {
            return None;
          }
          state := WaitingForCommit;
          var a := PreCommit();
          return Some(a);
      }
      action := CheckCommonExitConditions();
    }

    method WaitForCommit(t: Transition) returns (action: Option<Action>)
      requires Valid() && state == WaitingForCommit
      modifies this, polkaBuilder, commitBuilder
      ensures Valid()
      ensures polkaBuilder.votes == WithPrevote(t, old(polkaBuilder.votes))
      ensures commitBuilder.votes == WithPrecommit(t, old(commitBuilder.votes))
      ensures Outcome(Snap(), action)
        == CommitStep(old(Snap()), t, AddedVote(t, old(polkaBuilder.votes), old(commitBuilder.votes)), Observed(old(height)))
    {
      match t {
        case Proposed(_, _) =>
        case PreVoted(vote) =>
          var added := polkaBuilder.Insert(vote);
        case PreCommitted(vote) =>
          var added := commitBuilder.Insert(vote);
          if !added {
            return None;
          }
          var commit, preCommittingRound := commitBuilder.Commit(height, consensusThreshold);
          if commit.Some? && commit.value.polka.block.None? && commit.value.polka.round == round {
            state := WaitingForPropose;
            round := round + 1;
            return Some(CommitAction(Block.Commit(Polka(height, round, None))));
          }
        case TimedOut =>
          var commit, preCommittingRound := commitBuilder.Commit(height, consensusThreshold);
          if preCommittingRound.None? {
            return None;
          }
          state := WaitingForPropose;
          round := round + 1;
          return Some(CommitAction(Block.Commit(Polka(height, round, None))));
      }
      action := CheckCommonExitConditions();
    }

    method PreVote(proposedBlock: Option<SignedBlock>) returns (action: Action)
      requires Valid()
      modifies this
      ensures Valid()
      ensures Outcome(Snap(), Some(action)) == PreVoteRule(old(Snap()), Observed(height), proposedBlock)
    {
      var polka, preVotingRound := polkaBuilder.Polka(height, consensusThreshold);
      if lockedRound.Some? && polka.Some? {
        if lockedRound.value < polka.value.round {
          lockedRound := None;
          lockedBlock := None;
        }
      }
      if lockedRound.Some? {
        return PreVoteAction(Block.PreVote(lockedBlock, height, round));
      }
      if proposedBlock.Some? && proposedBlock.value.height == height {
        return PreVoteAction(Block.PreVote(proposedBlock, height, round));
      }
      return PreVoteAction(Block.PreVote(None, height, round));
    }

    method PreCommit() returns (action: Action)
      requires Valid()
      modifies this
      ensures Valid()
      ensures Outcome(Snap(), Some(action)) == PreCommitRule(old(Snap()), Observed(height))
    {
      var polka, preVotingRound := polkaBuilder.Polka(height, consensusThreshold);
      if polka.Some? {
        if polka.value.block.Some? {
          lockedRound := Some(polka.value.round);
          lockedBlock := polka.value.block;
          return PreCommitAction(Block.PreCommit(polka.value));
        }
        lockedRound := None;
        lockedBlock := None;
        return PreCommitAction(Block.PreCommit(polka.value));
      }
      return PreCommitAction(Block.PreCommit(Polka(height, round, None)));
    }

    method CheckCommonExitConditions() returns (action: Option<Action>)
      requires Valid()
      modifies this
      ensures Valid()
      ensures Outcome(Snap(), action) == ExitRule(old(Snap()), Observed(old(height)))
    {
      var commit, preCommittingRound := commitBuilder.Commit(height, consensusThreshold);
      if commit.Some? && commit.value.polka.block.Some? {
        state := WaitingForPropose;
        height := commit.value.polka.height + 1;
        round := 0;
        lockedBlock := None;
        lockedRound := None;
        return Some(CommitAction(commit.value));
      }
      var polka, preVotingRound := polkaBuilder.Polka(height, consensusThreshold);
      if preVotingRound.Some? && preVotingRound.value > round {
        round := preVotingRound.value;
        var a := PreVote(None);
        return Some(a);
      }
      if preCommittingRound.Some? && preCommittingRound.value > round {
        state := WaitingForCommit;
        round := preCommittingRound.value;
        var a := PreCommit();
        return Some(a);
      }
      return None;
    }
  }
}
