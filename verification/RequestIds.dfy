/** The ids that requesters and surveyors put on what they send: a 32-bit counter with its top bit set. */
module RequestIds {
  import opened Core
  import opened Contexts
  import opened Backtrace

  /** The counter with its top bit set. */
  function IdOf(seqNo: nat): (id: nat)
    ensures TWO31 <= id < TWO32
  {
    seqNo % TWO31 + TWO31
  }

  /** The counter after `n` sends. */
  function SeqAfter(seed: nat, n: nat): (r: nat)
    ensures r < TWO32
  {
    (seed + n) % TWO32
  }

  lemma ModOfMod(v: nat)
    ensures v % TWO32 % TWO31 == v % TWO31
  {
    var q, r := v % TWO32 / TWO31, v % TWO32 % TWO31;
    assert v == (v / TWO32 * 2 + q) * TWO31 + r;
    ModIsUnique(v, TWO31, v / TWO32 * 2 + q, r);
  }

  lemma SameRemainderIff(a: nat, b: nat)
    requires a <= b
    ensures a % TWO31 == b % TWO31 <==> (b - a) % TWO31 == 0
  {
    var q := b / TWO31 - a / TWO31;
    var r := b % TWO31 - a % TWO31;
    assert b - a == q * TWO31 + r;
    if r >= 0 {
      ModIsUnique(b - a, TWO31, q, r);
    } else {
      ModIsUnique(b - a, TWO31, q - 1, r + TWO31);
    }
  }

  /** Two sends get the same id exactly when they are a multiple of 2^31 sends apart, whether or not the counter wraps. */
  lemma IdsCollideIff(seed: nat, i: nat, j: nat)
    requires i <= j
    ensures IdOf(SeqAfter(seed, i)) == IdOf(SeqAfter(seed, j)) <==> (j - i) % TWO31 == 0
    ensures i < j < i + TWO31 ==> IdOf(SeqAfter(seed, i)) != IdOf(SeqAfter(seed, j))
  {
    ModOfMod(seed + i);
    ModOfMod(seed + j);
    SameRemainderIff(seed + i, seed + j);
  }

  /** Every id has its top bit set, so that it is the bottom of a backtrace, and survives the wire. */
  lemma IdIsBottom(seqNo: nat)
    ensures TopBit(BE32(IdOf(seqNo))) && ReadBigEndian(BE32(IdOf(seqNo))) == IdOf(seqNo)
  {
    TopBitOfWord(IdOf(seqNo));
    Word32(IdOf(seqNo));
  }

  /** What the `k`-th send of a run puts on the wire. */
  function Request(seed: nat, submitted: seq<Message>, k: nat): (r: Message)
    requires 1 <= k <= |submitted|
  {
    Encode(submitted[k - 1], IdOf(SeqAfter(seed, k)))
  }

  predicate IsRequest(seed: nat, submitted: seq<Message>, msg: Message) {
    exists k :: 1 <= k <= |submitted| && msg == Request(seed, submitted, k)
  }

  /** Nothing but requests of the user is on the wire. */
  ghost predicate OnlyRequests(seed: nat, c: Ctx) {
    forall i :: 0 <= i < |c.sent| ==> IsRequest(seed, c.submitted, c.sent[i].1)
  }

  lemma NextSeq(seed: nat, n: nat)
    ensures (SeqAfter(seed, n) + 1) % TWO32 == SeqAfter(seed, n + 1)
  {
  }

  /** Old requests keep their ids. */
  lemma SubmitKeepsRequests(seed: nat, c: Ctx, msg: Message, timeout: Timeout)
    requires OnlyRequests(seed, c)
    ensures OnlyRequests(seed, Submit(c, msg, timeout))
  {
    var c' := Submit(c, msg, timeout);
    forall i | 0 <= i < |c.sent|
      ensures IsRequest(seed, c'.submitted, c.sent[i].1)
    {
      assert IsRequest(seed, c.submitted, c.sent[i].1);
      var k: nat :| 1 <= k <= |c.submitted| && c.sent[i].1 == Request(seed, c.submitted, k);
      assert c'.submitted[k - 1] == c.submitted[k - 1];
      assert c.sent[i].1 == Request(seed, c'.submitted, k);
    }
  }
}
