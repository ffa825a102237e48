/** Collecting consensus votes and catching validators that vote twice (core/src/consensus/vote_collector.rs). */
module Votes {
  import opened Prelude
  import opened BitSets

  type Round = nat
  type Signature = nat

  /** A vote for a block, or for none. */
  datatype Message = Message(round: Round, signer: nat, block: Option<H256>, signature: Signature)

  datatype DoubleVote = DoubleVote(author: nat, one: Message, two: Message)

  // ----- what a list of messages says -----

  function FirstBy(log: Log<Message>, i: nat): Option<Message> {
    match log
    case Empty => None
    case Push(init, m) => if FirstBy(init, i).None? && m.signer == i then Some(m) else FirstBy(init, i)
  }

  function LastBy(log: Log<Message>, i: nat): Option<Message> {
    match log
    case Empty => None
    case Push(init, m) => if m.signer == i then Some(m) else LastBy(init, i)
  }

  function CountBy(log: Log<Message>, i: nat): nat {
    match log
    case Empty => 0
    case Push(init, m) => CountBy(init, i) + if m.signer == i then 1 else 0
  }

  predicate Contains(log: Log<Message>, m: Message) {
    match log
    case Empty => false
    case Push(init, last) => last == m || Contains(init, m)
  }

  function ReportsOn(reports: Log<DoubleVote>, i: nat): nat {
    match reports
    case Empty => 0
    case Push(init, d) => ReportsOn(init, i) + if d.author == i then 1 else 0
  }

  lemma {:induction false} SignerKnown(log: Log<Message>, i: nat)
    ensures FirstBy(log, i).Some? <==> LastBy(log, i).Some?
    ensures FirstBy(log, i).Some? <==> CountBy(log, i) > 0
    ensures LastBy(log, i).Some? ==> Contains(log, LastBy(log, i).value) && LastBy(log, i).value.signer == i
    ensures FirstBy(log, i).Some? ==> Contains(log, FirstBy(log, i).value) && FirstBy(log, i).value.signer == i
  {
    if log.Push? {
      SignerKnown(log.init, i);
    }
  }

  /** Every report names two different messages of its author, both of them received. */
  ghost predicate SoundReports(reports: Log<DoubleVote>, log: Log<Message>) {
    match reports
    case Empty => true
    case Push(init, d) =>
      && SoundReports(init, log) && d.one != d.two && d.one.signer == d.two.signer == d.author
      && Contains(log, d.one) && Contains(log, d.two)
  }

  lemma {:induction false} SoundLater(reports: Log<DoubleVote>, log: Log<Message>, m: Message)
    requires SoundReports(reports, log)
    ensures SoundReports(reports, Push(log, m))
  {
    if reports.Push? {
      SoundLater(reports.init, log, m);
    }
  }

  // ----- one round -----

  type BlockVotes = map<Option<H256>, map<nat, Signature>>

  predicate HasVote(votes: BlockVotes, block: Option<H256>, i: nat) { block in votes && i in votes[block] }

  /** The recorded votes are the signers' first messages. */
  ghost predicate CountsFirst(votes: BlockVotes, log: Log<Message>) {
    forall block, i :: HasVote(votes, block, i) <==> FirstBy(log, i).Some? && FirstBy(log, i).value.block == block
  }

  ghost predicate SignedFirst(votes: BlockVotes, log: Log<Message>) {
    forall block, i :: HasVote(votes, block, i) && FirstBy(log, i).Some? ==> votes[block][i] == FirstBy(log, i).value.signature
  }

  ghost predicate KnowsLast(voted: map<nat, Message>, log: Log<Message>) {
    forall i :: if i in voted then LastBy(log, i) == Some(voted[i]) else LastBy(log, i).None?
  }

  ghost predicate SmallSigners(log: Log<Message>) {
    forall i: nat :: FirstBy(log, i).Some? ==> i < MAX_VALIDATOR_SIZE
  }

  ghost predicate Remembers(messages: set<Message>, log: Log<Message>) {
    forall m :: m in messages <==> Contains(log, m)
  }

  /** A signer with k different messages has been reported k - 1 times. */
  ghost predicate Tallied(reports: Log<DoubleVote>, log: Log<Message>) {
    forall i: nat :: CountBy(log, i) == ReportsOn(reports, i) + if LastBy(log, i).Some? then 1 else 0
  }

  lemma PushMessage(messages: set<Message>, voted: map<nat, Message>, log: Log<Message>, m: Message)
    requires Remembers(messages, log) && KnowsLast(voted, log) && SmallSigners(log) && m.signer < MAX_VALIDATOR_SIZE
    ensures Remembers(messages + {m}, Push(log, m)) && KnowsLast(voted[m.signer := m], Push(log, m)) && SmallSigners(Push(log, m))
  {
  }

  lemma PushReport(reports: Log<DoubleVote>, log: Log<Message>, m: Message)
    requires Tallied(reports, log) && SoundReports(reports, log) && !Contains(log, m)
    ensures LastBy(log, m.signer).None? ==> Tallied(reports, Push(log, m)) && SoundReports(reports, Push(log, m))
    ensures LastBy(log, m.signer).Some? ==>
              var reports' := Push(reports, DoubleVote(m.signer, LastBy(log, m.signer).value, m));
              Tallied(reports', Push(log, m)) && SoundReports(reports', Push(log, m))
  {
    SignerKnown(log, m.signer);
    SoundLater(reports, log, m);
  }

  class StepCollector {
    var voted: map<nat, Message>
    var blockVotes: BlockVotes
    var messages: set<Message>

    /** The different messages received, and what was reported, in order. */
    ghost var log: Log<Message>
    ghost var reports: Log<DoubleVote>

    constructor ()
      ensures Valid() && log == Empty && reports == Empty
    {
      voted, blockVotes, messages := map[], map[], {};
      log, reports := Empty, Empty;
    }

    ghost predicate Valid()
      reads this
    {
      && Remembers(messages, log)
      && KnowsLast(voted, log) && CountsFirst(blockVotes, log) && SignedFirst(blockVotes, log) && SmallSigners(log)
      && Tallied(reports, log) && SoundReports(reports, log)
    }

    /** Takes a vote. A message that was not seen before makes a double vote together with the signer's
        last one; the first one counts. */
    method Insert(m: Message) returns (r: Option<DoubleVote>)
      requires Valid() && m.signer < MAX_VALIDATOR_SIZE
      modifies this
      ensures Valid()
      ensures log == if old(m in messages) then old(log) else Push(old(log), m)
      ensures r == if old(m in messages) || LastBy(old(log), m.signer).None? then None
                   else Some(DoubleVote(m.signer, LastBy(old(log), m.signer).value, m))
      ensures reports == if r.Some? then Push(old(reports), r.value) else old(reports)
    {
      hide Remembers, KnowsLast, CountsFirst, SignedFirst, SmallSigners, Tallied, SoundReports, FirstBy, LastBy;
      r := None;
      KnownLast(messages, voted, log, m);
      if m in messages {
        return;
      }
      SignerKnown(log, m.signer);
      PushMessage(messages, voted, log, m);
      PushReport(reports, log, m);
      messages := messages + {m};
      var previous := if m.signer in voted then Some(voted[m.signer]) else None;
      voted := voted[m.signer := m];
      if previous.Some? {
        r := Some(DoubleVote(m.signer, previous.value, m));
        reports := Push(reports, r.value);
        FirstStays(blockVotes, log, m);
      } else {
        FirstCounts(blockVotes, log, m);
        var votes := if m.block in blockVotes then blockVotes[m.block] else map[];
        blockVotes := blockVotes[m.block := votes[m.signer := m.signature]];
      }
      log := Push(log, m);
    }

    lemma Known(m: Message)
      requires Valid()
      ensures m in messages <==> Contains(log, m)
    {
    }

    /** The validators whose vote counts for the block. */
    ghost function Voters(block: Option<H256>): set<nat>
      reads this
    {
      if block in blockVotes then blockVotes[block].Keys else {}
    }

    method CountBlock(block: Option<H256>) returns (r: BitSet)
      requires Valid()
      ensures r.Valid() && fresh(r) && fresh(r.bytes) && r.Contents() == Voters(block)
    {
      hide Valid;
      r := new BitSet();
      if block in blockVotes {
        forall i | i in blockVotes[block] ensures i < MAX_VALIDATOR_SIZE {
          VoterSmall(block, i);
        }
        SetAll(r, blockVotes[block].Keys);
      }
    }

    static method SetAll(r: BitSet, indices: set<nat>)
      requires r.Valid() && forall i :: i in indices ==> i < MAX_VALIDATOR_SIZE
      modifies r.bytes
      ensures r.Contents() == old(r.Contents()) + indices
    {
      var rest := indices;
      while rest != {}
        invariant rest <= indices && r.Contents() == old(r.Contents()) + (indices - rest)
        decreases |rest|
      {
        var index :| index in rest;
        r.Set(index);
        rest := rest - {index};
      }
    }

    lemma VoterSmall(block: Option<H256>, i: nat)
      requires Valid() && block in blockVotes && i in blockVotes[block]
      ensures i < MAX_VALIDATOR_SIZE && FirstBy(log, i).Some? && FirstBy(log, i).value.block == block
    {
      assert HasVote(blockVotes, block, i);
    }

    /** Everyone who voted. No validator is counted for two blocks. */
    method Count() returns (r: BitSet)
      requires Valid()
      ensures r.Valid() && fresh(r) && fresh(r.bytes) && r.Contents() == voted.Keys
    {
      r := new BitSet();
      var blocks := blockVotes.Keys;
      while blocks != {}
        invariant r.Valid() && blocks <= blockVotes.Keys
        invariant forall i :: i in r.Contents() <==> exists b :: b !in blocks && HasVote(blockVotes, b, i)
        decreases |blocks|
      {
        var block :| block in blocks;
        CountInto(r, block, blocks);
        blocks := blocks - {block};
      }
      VotersAreVoted();
    }

    method CountInto(r: BitSet, block: Option<H256>, ghost blocks: set<Option<H256>>)
      requires Valid() && r.Valid() && block in blockVotes && block in blocks
      requires forall i :: i in r.Contents() <==> exists b :: b !in blocks && HasVote(blockVotes, b, i)
      modifies r.bytes
      ensures forall i :: i in r.Contents() <==> exists b :: b !in blocks - {block} && HasVote(blockVotes, b, i)
    {
      hide Valid;
      ghost var before := r.Contents();
      var rest := blockVotes[block].Keys;
      while rest != {}
        invariant rest <= blockVotes[block].Keys && r.Contents() == before + (blockVotes[block].Keys - rest)
        decreases |rest|
      {
        var index :| index in rest;
        VotesOnce(block, index, blocks);
        var twice := r.IsSet(index);
        assert !twice;
        r.Set(index);
        rest := rest - {index};
      }
      forall i ensures i in r.Contents() <==> exists b :: b !in blocks - {block} && HasVote(blockVotes, b, i) {
        if i in blockVotes[block] {
          assert block !in blocks - {block} && HasVote(blockVotes, block, i);
        }
        if b :| b !in blocks - {block} && HasVote(blockVotes, b, i) {
          assert b == block || b !in blocks;
        }
      }
    }

    lemma VotesOnce(block: Option<H256>, i: nat, blocks: set<Option<H256>>)
      requires Valid() && block in blockVotes && i in blockVotes[block] && block in blocks
      ensures i < MAX_VALIDATOR_SIZE && !exists b :: b !in blocks && HasVote(blockVotes, b, i)
    {
      VoterSmall(block, i);
    }

    lemma VotersAreVoted()
      requires Valid()
      ensures forall i :: i in voted <==> exists b :: HasVote(blockVotes, b, i)
    {
      forall i ensures i in voted <==> exists b :: HasVote(blockVotes, b, i) {
        SignerKnown(log, i);
        if i in voted {
          assert HasVote(blockVotes, FirstBy(log, i).value.block, i);
        }
        if b :| HasVote(blockVotes, b, i) {
          assert FirstBy(log, i).Some?;
        }
      }
    }
  }

  lemma KnownLast(messages: set<Message>, voted: map<nat, Message>, log: Log<Message>, m: Message)
    requires Remembers(messages, log) && KnowsLast(voted, log)
    ensures m in messages <==> Contains(log, m)
    ensures LastBy(log, m.signer) == if m.signer in voted then Some(voted[m.signer]) else None
  {
  }

  lemma FirstStays(votes: BlockVotes, log: Log<Message>, m: Message)
    requires CountsFirst(votes, log) && SignedFirst(votes, log) && FirstBy(log, m.signer).Some?
    ensures CountsFirst(votes, Push(log, m)) && SignedFirst(votes, Push(log, m))
  {
    assert forall i: nat :: FirstBy(Push(log, m), i) == FirstBy(log, i);
  }

  lemma FirstCounts(votes: BlockVotes, log: Log<Message>, m: Message)
    requires CountsFirst(votes, log) && SignedFirst(votes, log) && FirstBy(log, m.signer).None?
    ensures var row := if m.block in votes then votes[m.block] else map[];
            var votes' := votes[m.block := row[m.signer := m.signature]];
            CountsFirst(votes', Push(log, m)) && SignedFirst(votes', Push(log, m))
  {
    var row := if m.block in votes then votes[m.block] else map[];
    var votes' := votes[m.block := row[m.signer := m.signature]];
    forall block, i ensures HasVote(votes', block, i) <==> HasVote(votes, block, i) || (block == m.block && i == m.signer) {
    }
    forall block, i | HasVote(votes', block, i)
      ensures votes'[block][i] == if block == m.block && i == m.signer then m.signature else votes[block][i]
    {
      assert (block == m.block && i == m.signer) || HasVote(votes, block, i);
    }
  }

  // ----- what the counts mean -----

  /** A validator counts for one block: that of its first message. */
  lemma OneBlockEach(c: StepCollector, i: nat, a: Option<H256>, b: Option<H256>)
    requires c.Valid() && i in c.Voters(a) && i in c.Voters(b)
    ensures a == b && i in c.voted && FirstBy(c.log, i).Some? && FirstBy(c.log, i).value.block == a
  {
    assert HasVote(c.blockVotes, a, i) && HasVote(c.blockVotes, b, i);
    c.VotersAreVoted();
  }

  /** Two blocks cannot both have more than half of the votes. */
  lemma NoTwoMajorities(c: StepCollector, a: Option<H256>, b: Option<H256>)
    requires c.Valid() && a != b
    ensures |c.Voters(a)| + |c.Voters(b)| <= |c.voted|
    ensures !(2 * |c.Voters(a)| > |c.voted| && 2 * |c.Voters(b)| > |c.voted|)
  {
    var va, vb := c.Voters(a), c.Voters(b);
    forall i | i in va && i in vb ensures false {
      OneBlockEach(c, i, a, b);
    }
    forall i | i in va + vb ensures i in c.voted {
      c.VotersAreVoted();
      assert HasVote(c.blockVotes, if i in va then a else b, i);
    }
    SubsetSize(va + vb, c.voted.Keys);
    assert |va + vb| == |va| + |vb|;
  }

  // ----- all rounds -----

  class VoteCollector {
    var votes: map<Round, StepCollector>

    /** Starts with an empty entry for the first round. */
    constructor ()
      ensures Valid() && fresh(votes.Values) && votes.Keys == {0} && Log(0) == Empty
    {
      var first := new StepCollector();
      votes := map[0 := first];
    }

    ghost predicate Valid()
      reads this, votes.Values
    {
      && (forall r :: r in votes ==> votes[r].Valid() && OfRound(votes[r].log, r))
      && (forall r, s :: r in votes && s in votes && votes[r] == votes[s] ==> r == s)
    }

    /** The different messages received in a round. */
    ghost function Log(r: Round): Log<Message>
      reads this, votes.Values
    {
      if r in votes then votes[r].log else Empty
    }

    method Vote(m: Message) returns (d: Option<DoubleVote>)
      requires Valid() && m.signer < MAX_VALIDATOR_SIZE
      modifies this, votes.Values
      ensures Valid() && fresh(votes.Values - old(votes.Values)) && votes.Keys == old(votes.Keys) + {m.round}
      ensures Log(m.round) == if Contains(old(Log(m.round)), m) then old(Log(m.round)) else Push(old(Log(m.round)), m)
      ensures forall r :: r != m.round ==> Log(r) == old(Log(r))
      ensures d == if Contains(old(Log(m.round)), m) || LastBy(old(Log(m.round)), m.signer).None? then None
                   else Some(DoubleVote(m.signer, LastBy(old(Log(m.round)), m.signer).value, m))
    {
      hide StepCollector.Valid, LastBy;
      if m.round !in votes {
        Enter(m.round);
      }
      var c := votes[m.round];
      c.Known(m);
      d := c.Insert(m);
    }

    /** Makes an empty entry for a round. */
    method Enter(r: Round)
      requires Valid() && r !in votes
      modifies this
      ensures Valid() && r in votes && fresh(votes[r]) && votes[r].log == Empty && votes == old(votes)[r := votes[r]]
    {
      hide StepCollector.Valid;
      var c := new StepCollector();
      votes := votes[r := c];
    }

    /** Whether a message has been received, or belongs to a round before all recorded ones. */
    method IsOldOrKnown(m: Message) returns (r: bool)
      requires Valid()
      ensures r <==> Contains(Log(m.round), m) || forall round :: round in votes ==> m.round < round
    {
      hide StepCollector.Valid;
      if m.round in votes {
        votes[m.round].Known(m);
        return m in votes[m.round].messages;
      }
      r := forall round :: round in votes ==> m.round < round;
    }

    /** Forgets the rounds before the given one; some round must be left. */
    method ThrowOutOld(round: Round)
      requires Valid() && exists r :: r in votes && round <= r
      modifies this
      ensures Valid() && votes.Values <= old(votes.Values) && votes != map[]
      ensures forall r: Round :: Log(r) == if r < round then Empty else old(Log(r))
      ensures forall r :: r in votes <==> r in old(votes) && round <= r
    {
      hide StepCollector.Valid;
      var newer := map r | r in votes && round <= r :: votes[r];
      ghost var r :| r in votes && round <= r;
      assert r in newer;
      votes := newer;
    }

    method RoundVotes(round: Round) returns (r: BitSet)
      requires Valid()
      ensures r.Valid() && fresh(r) && fresh(r.bytes)
      ensures forall i: nat :: i in r.Contents() <==> FirstBy(Log(round), i).Some?
    {
      if round in votes {
        r := votes[round].Count();
        forall i: nat ensures i in votes[round].voted <==> FirstBy(Log(round), i).Some? {
          SignerKnown(votes[round].log, i);
        }
      } else {
        r := new BitSet();
      }
    }

    method BlockRoundVotes(round: Round, block: Option<H256>) returns (r: BitSet)
      requires Valid()
      ensures r.Valid() && fresh(r) && fresh(r.bytes)
      ensures forall i: nat :: i in r.Contents() <==> FirstBy(Log(round), i).Some? && FirstBy(Log(round), i).value.block == block
    {
      if round in votes {
        r := votes[round].CountBlock(block);
        forall i: nat
          ensures i in votes[round].Voters(block) <==> FirstBy(Log(round), i).Some? && FirstBy(Log(round), i).value.block == block
        {
          assert i in votes[round].Voters(block) <==> HasVote(votes[round].blockVotes, block, i);
        }
      } else {
        r := new BitSet();
      }
    }
  }

  ghost predicate OfRound(log: Log<Message>, r: Round) {
    match log
    case Empty => true
    case Push(init, m) => m.round == r && OfRound(init, r)
  }
}
