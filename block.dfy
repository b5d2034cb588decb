/**
 * The value types shared by the message layer and the state machine (the
 * `block` and `id` packages of the system), and the two quorum builders.
 *
 * Hashes, signatories and signatures are opaque byte strings. The builders'
 * aggregation rule is not part of this model: each builder stores the votes
 * it is given and answers its query through a function supplied when it is
 * built, about which only one thing is assumed (`PolkaHeightConsistent`,
 * `CommitHeightConsistent`).
 */
module Block {
  import opened Wrappers

  /** Heights and rounds are unbounded naturals. */
  type Height = nat
  type Round = nat

  type Hash = seq<bv8>
  type Signatory = seq<bv8>
  type Signature = seq<bv8>

  /** A proposed block; its content beyond its height and hash is opaque. */
  datatype SignedBlock = SignedBlock(height: Height, hash: Hash)

  /** A quorum certificate over prevotes; `block == None` is a nil quorum. */
  datatype Polka = Polka(height: Height, round: Round, block: Option<SignedBlock>)

  /** A quorum certificate over precommits on a polka. */
  datatype Commit = Commit(polka: Polka)

  datatype PreVote = PreVote(block: Option<SignedBlock>, height: Height, round: Round)
  datatype SignedPreVote = SignedPreVote(preVote: PreVote, signatory: Signatory, sig: Signature)

  datatype PreCommit = PreCommit(polka: Polka)
  datatype SignedPreCommit = SignedPreCommit(preCommit: PreCommit, signatory: Signatory, sig: Signature)

  /** What `PolkaBuilder.Polka(height, threshold)` answers. */
  type PolkaRule = (set<SignedPreVote>, Height, int) -> (Option<Polka>, Option<Round>)

  /** What `CommitBuilder.Commit(height, threshold)` answers. */
  type CommitRule = (set<SignedPreCommit>, Height, int) -> (Option<Commit>, Option<Round>)

  /** The one assumption made of the polka builder: a polka it returns is for the queried height. */
  ghost predicate PolkaHeightConsistent(rule: PolkaRule)
  {
    forall votes, h, t :: rule(votes, h, t).0.Some? ==> rule(votes, h, t).0.value.height == h
  }

  /** The one assumption made of the commit builder: a commit it returns is for the queried height. */
  ghost predicate CommitHeightConsistent(rule: CommitRule)
  {
    forall votes, h, t :: rule(votes, h, t).0.Some? ==> rule(votes, h, t).0.value.polka.height == h
  }

  /** Collects prevotes and answers polka queries through `rule`. */
  class PolkaBuilder {
    var votes: set<SignedPreVote>
    const rule: PolkaRule

    ghost predicate Valid()
    {
      PolkaHeightConsistent(rule)
    }

    constructor (rule: PolkaRule)
      requires PolkaHeightConsistent(rule)
      ensures Valid() && this.rule == rule && votes == {}
    {
      this.rule := rule;
      votes := {};
    }

    /** Stores `vote`; reports whether it was new. */
    method Insert(vote: SignedPreVote) returns (added: bool)
      modifies this
      ensures added == (vote !in old(votes))
      ensures votes == old(votes) + {vote}
    {
      added := vote !in votes;
      votes := votes + {vote};
    }

    ghost function Answer(height: Height, threshold: int): (Option<Polka>, Option<Round>)
      reads this
    {
      rule(votes, height, threshold)
    }

    method Polka(height: Height, threshold: int) returns (polka: Option<Polka>, round: Option<Round>)
      requires Valid()
      ensures (polka, round) == Answer(height, threshold)
      ensures polka.Some? ==> polka.value.height == height
    {
      polka, round := rule(votes, height, threshold).0, rule(votes, height, threshold).1;
    }

    /** Forgets every vote at `height` or below. */
    method Drop(height: Height)
      modifies this
      ensures votes == set v | v in old(votes) && v.preVote.height > height
    {
      votes := set v | v in votes && v.preVote.height > height;
    }
  }

  /** Collects precommits and answers commit queries through `rule`. */
  class CommitBuilder {
    var votes: set<SignedPreCommit>
    const rule: CommitRule

    ghost predicate Valid()
    {
      CommitHeightConsistent(rule)
    }

    constructor (rule: CommitRule)
      requires CommitHeightConsistent(rule)
      ensures Valid() && this.rule == rule && votes == {}
    {
      this.rule := rule;
      votes := {};
    }

    /** Stores `vote`; reports whether it was new. */
    method Insert(vote: SignedPreCommit) returns (added: bool)
      modifies this
      ensures added == (vote !in old(votes))
      ensures votes == old(votes) + {vote}
    {
      added := vote !in votes;
      votes := votes + {vote};
    }

    ghost function Answer(height: Height, threshold: int): (Option<Commit>, Option<Round>)
      reads this
    {
      rule(votes, height, threshold)
    }

    method Commit(height: Height, threshold: int) returns (commit: Option<Commit>, round: Option<Round>)
      requires Valid()
      ensures (commit, round) == Answer(height, threshold)
      ensures commit.Some? ==> commit.value.polka.height == height
    {
      commit, round := rule(votes, height, threshold).0, rule(votes, height, threshold).1;
    }

    /** Forgets every vote at `height` or below. */
    method Drop(height: Height)
      modifies this
      ensures votes == set v | v in old(votes) && v.preCommit.polka.height > height
    {
      votes := set v | v in votes && v.preCommit.polka.height > height;
    }
  }
}
