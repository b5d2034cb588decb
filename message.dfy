/**
 * The message layer (`process` package): the three signed vote kinds and the
 * `Inbox` that collects them by height, round and signatory and reports the
 * moments at which a round's count first crosses its thresholds.
 */
module Process {
  import opened Wrappers
  import opened Block

  /** A proposer's block, with the content the message layer needs: its hash. */
  datatype ProposedBlock = ProposedBlock(hash: Hash)

  /**
   * A signed message. `signatory` and `sig` are the values the signing layer
   * filled in; this model treats them as opaque.
   */
  datatype Msg =
    | Propose(signatory: Signatory, sig: Signature, height: Height, round: Round,
              block: ProposedBlock, validRound: Round)
    | Prevote(signatory: Signatory, sig: Signature, height: Height, round: Round, blockHash: Hash)
    | Precommit(signatory: Signatory, sig: Signature, height: Height, round: Round, blockHash: Hash)
  {
    /** The hash the message votes for: the proposed block's hash for a proposal. */
    function BlockHash(): Hash
    {
      match this
      case Propose(_, _, _, _, b, _) => b.hash
      case Prevote(_, _, _, _, x) => x
      case Precommit(_, _, _, _, x) => x
    }
  }

  /**
   * The unsigned messages the constructors build: signatory and signature are
   * left empty until signing, and the accessors read back what was given.
   */
  function NewPropose(height: Height, round: Round, block: ProposedBlock, validRound: Round): (m: Msg)
    ensures m.Propose? && m.signatory == [] && m.sig == []
    ensures m.height == height && m.round == round && m.BlockHash() == block.hash
    ensures m.block == block && m.validRound == validRound
  {
    Propose([], [], height, round, block, validRound)
  }

  function NewPrevote(height: Height, round: Round, blockHash: Hash): (m: Msg)
    ensures m.Prevote? && m.signatory == [] && m.sig == []
    ensures m.height == height && m.round == round && m.BlockHash() == blockHash
  {
    Prevote([], [], height, round, blockHash)
  }

  function NewPrecommit(height: Height, round: Round, blockHash: Hash): (m: Msg)
    ensures m.Precommit? && m.signatory == [] && m.sig == []
    ensures m.height == height && m.round == round && m.BlockHash() == blockHash
  {
    Precommit([], [], height, round, blockHash)
  }

  /** The messages of one (height, round), by signatory. */
  type Bucket = map<Signatory, Msg>

  /** True when an insert that took a bucket from `before` to `after` entries first pushed it above `t`. */
  predicate Crosses(t: int, before: int, after: int)
  {
    before <= t < after
  }

  /** The signatories in `b` whose message votes for `blockHash`. */
  ghost function VotersFor(b: Bucket, blockHash: Hash): set<Signatory>
  {
    set s | s in b && b[s].BlockHash() == blockHash
  }

  /** The bucket after inserting the messages of `ms` one by one. */
  function Fill(b: Bucket, ms: seq<Msg>): (r: Bucket)
    ensures |r| >= |b|
    decreases |ms|
  {
    if ms == [] then b else Fill(b[ms[0].signatory := ms[0]], ms[1..])
  }

  /** How many of the inserts of `ms` into `b` reported a crossing of `t`. */
  function Reports(t: int, b: Bucket, ms: seq<Msg>): nat
    decreases |ms|
  {
    if ms == [] then 0
    else
      var b' := b[ms[0].signatory := ms[0]];
      (if Crosses(t, |b|, |b'|) then 1 else 0) + Reports(t, b', ms[1..])
  }

  /** The signatories of `ms`. */
  function SignatoriesOf(ms: seq<Msg>): (r: set<Signatory>)
    ensures forall i :: 0 <= i < |ms| ==> ms[i].signatory in r
    decreases |ms|
  {
    if ms == [] then {} else {ms[0].signatory} + SignatoriesOf(ms[1..])
  }

  /**
   * Whatever the order and repetition of the inserts at one (height, round),
   * a threshold crossing is reported once if the count ends above the
   * threshold having started at or below it, and never otherwise.
   */
  lemma {:induction false} CrossingReportedOnce(t: int, b: Bucket, ms: seq<Msg>)
    ensures Reports(t, b, ms) == if |b| <= t < |Fill(b, ms)| then 1 else 0
    decreases |ms|
  {
    if ms != [] {
      var b' := b[ms[0].signatory := ms[0]];
      CrossingReportedOnce(t, b', ms[1..]);
      assert |b'| <= |b| + 1;
    }
  }

  /** The signatories in a bucket after a sequence of inserts: those before and those inserted, in any order. */
  lemma {:induction false} FillSignatories(b: Bucket, ms: seq<Msg>)
    ensures Fill(b, ms).Keys == b.Keys + SignatoriesOf(ms)
    decreases |ms|
  {
    if ms != [] {
      FillSignatories(b[ms[0].signatory := ms[0]], ms[1..]);
    }
  }

  /** A round's count never exceeds the number of validators when only validators insert. */
  lemma FillBounded(b: Bucket, ms: seq<Msg>, validators: set<Signatory>)
    requires b.Keys <= validators
    requires SignatoriesOf(ms) <= validators
    ensures |Fill(b, ms)| <= |validators|
  {
    FillSignatories(b, ms);
    SubsetCard(Fill(b, ms).Keys, validators);
  }

  lemma {:induction false} SubsetCard<T>(a: set<T>, b: set<T>)
    requires a <= b
    ensures |a| <= |b|
    decreases |a|
  {
    if a != {} {
      var x :| x in a;
      SubsetCard(a - {x}, b - {x});
    }
  }

  type Store = map<Height, map<Round, Bucket>>

  function BucketOf(m: Store, height: Height, round: Round): Bucket
  {
    if height in m && round in m[height] then m[height][round] else map[]
  }

  /** Every message of `b` is at `height` and `round` and is filed under its own signatory. */
  ghost predicate Filed(b: Bucket, height: Height, round: Round)
  {
    forall s :: s in b ==> b[s].height == height && b[s].round == round && b[s].signatory == s
  }

  /** Replacing the bucket at (height, round) leaves every other bucket as it was. */
  lemma StoreBucket(m: Store, height: Height, round: Round, b: Bucket)
    requires height in m && round in m[height]
    ensures var row: map<Round, Bucket> := m[height][round := b];
      var m': Store := m[height := row];
      && BucketOf(m', height, round) == b
      && forall h, r :: (h != height || r != round) ==> BucketOf(m', h, r) == BucketOf(m, h, r)
  {
  }

  /**
   * The inbox. `f` is the tolerated number of faulty signatories; `messages`
   * holds at most one message per (height, round, signatory).
   */
  class Inbox {
    const f: int
    var messages: Store

    /** Every stored message sits under its own height, round and signatory. */
    ghost predicate Valid()
      reads this
    {
      forall h, r :: Filed(BucketOf(messages, h, r), h, r)
    }

    /** The messages at (height, round); empty when either key is absent. */
    ghost function BucketAt(height: Height, round: Round): Bucket
      reads this
    {
      BucketOf(messages, height, round)
    }

    constructor (f: int)
      ensures Valid() && this.f == f
      ensures forall h, r :: BucketAt(h, r) == map[]
    {
      this.f := f;
      messages := map[];
    }

    method Insert(message: Msg) returns (n: int, firstTime: bool, firstTimeExceedingF: bool, firstTimeExceeding2F: bool)
      requires Valid()
      modifies this
      ensures Valid()
      ensures BucketAt(message.height, message.round) == old(BucketAt(message.height, message.round))[message.signatory := message]
      ensures forall h, r :: (h != message.height || r != message.round) ==> BucketAt(h, r) == old(BucketAt(h, r))
      ensures n == |BucketAt(message.height, message.round)|
      ensures var before := old(BucketAt(message.height, message.round));
        && n == (if message.signatory in before then |before| else |before| + 1)
        && firstTime == (before == map[])
        && firstTimeExceedingF == (message.signatory !in before && |before| == f)
        && firstTimeExceeding2F == (message.signatory !in before && |before| == 2 * f)
      ensures var before := old(|BucketAt(message.height, message.round)|);
        && firstTime == Crosses(0, before, n)
        && firstTimeExceedingF == Crosses(f, before, n)
        && firstTimeExceeding2F == Crosses(2 * f, before, n)
    {
      var height, round := message.height, message.round;
      ghost var m0 := messages;
      if height !in messages {
        messages := messages[height := map[]];
      }
      if round !in messages[height] {
        messages := messages[height := messages[height][round := map[]]];
      }
      ghost var m1 := messages;
      assert forall h, r :: BucketOf(m1, h, r) == BucketOf(m0, h, r);
      var previousN := |messages[height][round]|;
      messages := messages[height := messages[height][round := messages[height][round][message.signatory := message]]];
      StoreBucket(m1, height, round, messages[height][round]);
      assert Filed(BucketOf(m1, height, round), height, round);
      assert Filed(messages[height][round], height, round);
      assert forall h, r :: (h != height || r != round) ==> BucketOf(messages, h, r) == BucketOf(m0, h, r);
      n := |messages[height][round]|;
      firstTime := previousN == 0 && n == 1;
      firstTimeExceedingF := previousN < f + 1 && n > f;
      firstTimeExceeding2F := previousN < 2 * f + 1 && n > 2 * f;
    }

    /** The number of signatories at (height, round) whose message votes for `blockHash`. */
    method QueryByHeightRoundBlockHash(height: Height, round: Round, blockHash: Hash) returns (n: int)
      ensures (height !in messages || round !in messages[height]) ==> n == 0
      ensures n == |VotersFor(BucketAt(height, round), blockHash)|
      ensures n <= |BucketAt(height, round)|
    {
      n := 0;
      if height !in messages {
        return;
      }
      if round !in messages[height] {
        return;
      }
      var bucket := messages[height][round];
      var todo := bucket.Keys;
      ghost var done: set<Signatory> := {};
      while todo != {}
        invariant todo + done == bucket.Keys && todo !! done
        invariant n == |set s | s in done && s in bucket && bucket[s].BlockHash() == blockHash|
        decreases |todo|
      {
        var s :| s in todo;
        ghost var counted := set s' | s' in done && s' in bucket && bucket[s'].BlockHash() == blockHash;
        if bucket[s].BlockHash() == blockHash {
          n := n + 1;
          assert (set s' | s' in done + {s} && s' in bucket && bucket[s'].BlockHash() == blockHash) == counted + {s};
        } else {
          assert (set s' | s' in done + {s} && s' in bucket && bucket[s'].BlockHash() == blockHash) == counted;
        }
        todo := todo - {s};
        done := done + {s};
      }
      assert (set s | s in done && s in bucket && bucket[s].BlockHash() == blockHash) == VotersFor(bucket, blockHash);
      SubsetCard(VotersFor(bucket, blockHash), bucket.Keys);
    }

    /** The message of `signatory` at (height, round), if any. */
    method QueryByHeightRoundSignatory(height: Height, round: Round, signatory: Signatory) returns (m: Option<Msg>)
      requires Valid()
      ensures (height !in messages || round !in messages[height]) ==> m.None?
      ensures m.Some? <==> signatory in BucketAt(height, round)
      ensures m.Some? ==> m.value == BucketAt(height, round)[signatory]
      ensures m.Some? ==> m.value.height == height && m.value.round == round && m.value.signatory == signatory
    {
      if height !in messages {
        return None;
      }
      if round !in messages[height] {
        return None;
      }
      if signatory in messages[height][round] {
        m := Some(messages[height][round][signatory]);
      } else {
        m := None;
      }
    }

    /** The number of distinct signatories at (height, round). */
    method QueryByHeightRound(height: Height, round: Round) returns (n: int)
      ensures n == |BucketAt(height, round).Keys|
      ensures (height !in messages || round !in messages[height]) ==> n == 0
    {
      n := 0;
      if height !in messages {
        return;
      }
      if round !in messages[height] {
        return;
      }
      n := |messages[height][round]|;
    }
  }
}
