/** The hash chain of the event ledger (persistence/event_store.py): what a verified
    chain pins down, and what it leaves open.

    The digest function is a parameter. Its only assumed property is the fixed length of
    its results, which is what keeps the first link apart from later ones. No digest
    function on strings is injective, so the theorems assume only that no two of the
    finitely many strings hashed for the ledgers at hand collide. */
module HashChain {
  import opened Wrappers
  import opened Events

  /** A SHA-256 hex digest: 64 characters. */
  type Digest = s: string | |s| == 64 witness seq(64, _ => '0')

  /** `dumps` is the canonical JSON text of a payload and `sha` the hex digest of a text. */
  datatype Crypto = Crypto(dumps: Payload -> string, sha: string -> Digest)

  function PayloadText(c: Crypto, e: Event): string {
    c.dumps(e.record.payload)
  }

  /** The text whose digest is an event hash: the previous hash, if any, and the payload hash. */
  function LinkText(previous: Option<string>, payloadHash: string): string {
    (if previous.Some? then previous.value else "") + payloadHash
  }

  /** The previous-hash field that the event at index `i` of an intact ledger holds. */
  function Previous(ledger: seq<Event>, i: nat): Option<string>
    requires i <= |ledger|
  {
    if i == 0 then None else Some(ledger[i - 1].eventHash)
  }

  /** The event `e`, numbered and sealed as the successor of an event with hash `previous`. */
  function Seal(c: Crypto, previous: Option<string>, sequence: int, record: Record): Event {
    var payloadHash := c.sha(c.dumps(record.payload));
    Event(sequence, record, payloadHash, previous, c.sha(LinkText(previous, payloadHash)))
  }

  ghost predicate LinkOk(c: Crypto, ledger: seq<Event>, i: nat)
    requires i < |ledger|
  {
    var e := ledger[i];
    && e.payloadHash == c.sha(PayloadText(c, e))
    && e.previousHash == Previous(ledger, i)
    && e.eventHash == c.sha(LinkText(e.previousHash, e.payloadHash))
  }

  ghost predicate Chained(c: Crypto, ledger: seq<Event>) {
    forall i :: 0 <= i < |ledger| ==> LinkOk(c, ledger, i)
  }

  /** Every text that verifying `ledger` hashes. */
  ghost function Hashed(c: Crypto, ledger: seq<Event>): set<string> {
    (set i | 0 <= i < |ledger| :: PayloadText(c, ledger[i])) +
    (set i | 0 <= i < |ledger| :: LinkText(ledger[i].previousHash, ledger[i].payloadHash))
  }

  ghost predicate NoCollision(c: Crypto, texts: set<string>) {
    forall a, b :: a in texts && b in texts && c.sha(a) == c.sha(b) ==> a == b
  }

  lemma ChainedPrefix(c: Crypto, ledger: seq<Event>, n: nat)
    requires Chained(c, ledger) && n <= |ledger|
    ensures Chained(c, ledger[..n]) && Hashed(c, ledger[..n]) <= Hashed(c, ledger)
  {
    forall i | 0 <= i < n ensures LinkOk(c, ledger[..n], i) {
      assert LinkOk(c, ledger, i);
    }
  }

  lemma ChainedAppend(c: Crypto, ledger: seq<Event>, sequence: int, record: Record)
    requires Chained(c, ledger)
    ensures Chained(c, ledger + [Seal(c, Previous(ledger, |ledger|), sequence, record)])
  {
    var extended := ledger + [Seal(c, Previous(ledger, |ledger|), sequence, record)];
    forall i | 0 <= i < |extended| ensures LinkOk(c, extended, i) {
      if i < |ledger| {
        assert LinkOk(c, ledger, i);
      }
    }
  }

  lemma HashedAt(c: Crypto, ledger: seq<Event>, i: nat)
    requires i < |ledger|
    ensures PayloadText(c, ledger[i]) in Hashed(c, ledger)
    ensures LinkText(ledger[i].previousHash, ledger[i].payloadHash) in Hashed(c, ledger)
  {
  }

  /** Two links with the same hash have the same previous hash and the same payload text. */
  lemma SameHashSameLink(c: Crypto, l1: seq<Event>, i: nat, l2: seq<Event>, j: nat)
    requires Chained(c, l1) && Chained(c, l2)
    requires NoCollision(c, Hashed(c, l1) + Hashed(c, l2))
    requires i < |l1| && j < |l2| && l1[i].eventHash == l2[j].eventHash
    ensures i == 0 <==> j == 0
    ensures l1[i].previousHash == l2[j].previousHash
    ensures PayloadText(c, l1[i]) == PayloadText(c, l2[j])
  {
    var a, b := l1[i], l2[j];
    HashedAt(c, l1, i);
    HashedAt(c, l2, j);
    assert LinkOk(c, l1, i) && LinkOk(c, l2, j);
    if i > 0 { assert LinkOk(c, l1, i - 1); }
    if j > 0 { assert LinkOk(c, l2, j - 1); }
    var s, t := LinkText(a.previousHash, a.payloadHash), LinkText(b.previousHash, b.payloadHash);
    assert s == t;
    assert a.payloadHash == s[|s| - 64..] && b.payloadHash == t[|t| - 64..];
    if i > 0 && j > 0 {
      assert a.previousHash.value == s[..64] && b.previousHash.value == t[..64];
    }
  }

  /** Equal hashes somewhere in two verified ledgers mean equal histories up to there. */
  lemma {:induction false} HashCommits(c: Crypto, l1: seq<Event>, i: nat, l2: seq<Event>, j: nat)
    requires Chained(c, l1) && Chained(c, l2)
    requires NoCollision(c, Hashed(c, l1) + Hashed(c, l2))
    requires i < |l1| && j < |l2| && l1[i].eventHash == l2[j].eventHash
    ensures i == j
    ensures forall k :: 0 <= k <= i ==>
      PayloadText(c, l1[k]) == PayloadText(c, l2[k]) && l1[k].eventHash == l2[k].eventHash
  {
    SameHashSameLink(c, l1, i, l2, j);
    if i > 0 {
      assert LinkOk(c, l1, i) && LinkOk(c, l2, j);
      HashCommits(c, l1, i - 1, l2, j - 1);
    }
  }

  /** Conversely, the payload texts determine every hash, whatever the other fields are. */
  lemma {:induction false} PayloadsDetermineHashes(c: Crypto, l1: seq<Event>, l2: seq<Event>, i: nat)
    requires Chained(c, l1) && Chained(c, l2) && i < |l1| && i < |l2|
    requires forall k :: 0 <= k <= i ==> PayloadText(c, l1[k]) == PayloadText(c, l2[k])
    ensures l1[i].eventHash == l2[i].eventHash && l1[i].previousHash == l2[i].previousHash
  {
    assert LinkOk(c, l1, i) && LinkOk(c, l2, i);
    if i > 0 {
      PayloadsDetermineHashes(c, l1, l2, i - 1);
    }
  }

  /** The last hash commits to the whole history: verified ledgers end in the same event
      hash exactly when they have equally many events with pairwise equal payload texts. */
  lemma LastHashCommits(c: Crypto, l1: seq<Event>, l2: seq<Event>)
    requires Chained(c, l1) && Chained(c, l2) && l1 != [] && l2 != []
    requires NoCollision(c, Hashed(c, l1) + Hashed(c, l2))
    ensures l1[|l1| - 1].eventHash == l2[|l2| - 1].eventHash <==>
      && |l1| == |l2|
      && forall k :: 0 <= k < |l1| ==> PayloadText(c, l1[k]) == PayloadText(c, l2[k])
  {
    var m, n := |l1| - 1, |l2| - 1;
    if l1[m].eventHash == l2[n].eventHash {
      HashCommits(c, l1, m, l2, n);
    }
    if m == n && forall k :: 0 <= k <= m ==> PayloadText(c, l1[k]) == PayloadText(c, l2[k]) {
      PayloadsDetermineHashes(c, l1, l2, m);
    }
  }

  /** The same without any assumption on the hash function: verified ledgers that end in the same
      hash but differ in their payload texts contain two different texts with the same hash. */
  lemma SameEndOrCollision(c: Crypto, l1: seq<Event>, l2: seq<Event>) returns (a: string, b: string)
    requires Chained(c, l1) && Chained(c, l2) && l1 != [] && l2 != []
    requires l1[|l1| - 1].eventHash == l2[|l2| - 1].eventHash
    requires |l1| != |l2| || exists k :: 0 <= k < |l1| && PayloadText(c, l1[k]) != PayloadText(c, l2[k])
    ensures a != b && c.sha(a) == c.sha(b)
    ensures a in Hashed(c, l1) + Hashed(c, l2) && b in Hashed(c, l1) + Hashed(c, l2)
  {
    var texts := Hashed(c, l1) + Hashed(c, l2);
    if NoCollision(c, texts) {
      LastHashCommits(c, l1, l2);
      assert false;
    }
    a, b :| a in texts && b in texts && c.sha(a) == c.sha(b) && a != b;
  }

  /** No event hash occurs twice in a verified ledger. */
  lemma {:induction false} HashesDistinct(c: Crypto, ledger: seq<Event>, i: nat, j: nat)
    requires Chained(c, ledger) && NoCollision(c, Hashed(c, ledger))
    requires i < j < |ledger|
    ensures ledger[i].eventHash != ledger[j].eventHash
  {
    if ledger[i].eventHash == ledger[j].eventHash {
      assert Hashed(c, ledger) + Hashed(c, ledger) == Hashed(c, ledger);
      SameHashSameLink(c, ledger, i, ledger, j);
      assert LinkOk(c, ledger, i) && LinkOk(c, ledger, j);
      HashesDistinct(c, ledger, i - 1, j - 1);
    }
  }

  /** Dropping, reordering or repeating events of a verified ledger is detected: a sequence
      drawn from it verifies exactly when it is a prefix of it. */
  lemma DrawnVerifiesIffPrefix(c: Crypto, ledger: seq<Event>, drawn: seq<Event>)
    requires Chained(c, ledger) && NoCollision(c, Hashed(c, ledger))
    requires forall e :: e in drawn ==> e in ledger
    ensures Chained(c, drawn) <==> drawn <= ledger
  {
    if drawn <= ledger {
      ChainedPrefix(c, ledger, |drawn|);
      assert ledger[..|drawn|] == drawn;
    }
    if Chained(c, drawn) {
      DrawnIsPrefix(c, ledger, drawn);
    }
  }

  lemma {:induction false} DrawnIsPrefix(c: Crypto, ledger: seq<Event>, drawn: seq<Event>)
    requires Chained(c, ledger) && NoCollision(c, Hashed(c, ledger))
    requires forall e :: e in drawn ==> e in ledger
    requires Chained(c, drawn)
    ensures drawn <= ledger
  {
    if drawn != [] {
      var n := |drawn| - 1;
      ChainedPrefix(c, drawn, n);
      DrawnIsPrefix(c, ledger, drawn[..n]);
      assert drawn[n] in drawn;
      var k :| 0 <= k < |ledger| && ledger[k] == drawn[n];
      assert LinkOk(c, drawn, n) && LinkOk(c, ledger, k);
      if 0 < n {
        assert drawn[..n][n - 1] == ledger[n - 1];
        if k < n {
          HashesDistinct(c, ledger, k - 1, n - 1);
        } else if n < k {
          HashesDistinct(c, ledger, n - 1, k - 1);
        }
      }
      assert k == n;
      assert drawn == drawn[..n] + [drawn[n]];
    }
  }

  /** Nothing but the payloads and the three hash fields is checked: task ids, event types
      and sequence numbers can be exchanged in a verified ledger without detection. */
  lemma UncheckedFields(c: Crypto, ledger: seq<Event>, other: seq<Event>)
    requires |ledger| == |other|
    requires forall i :: 0 <= i < |ledger| ==>
      && other[i].record.payload == ledger[i].record.payload
      && other[i].payloadHash == ledger[i].payloadHash
      && other[i].previousHash == ledger[i].previousHash
      && other[i].eventHash == ledger[i].eventHash
    ensures Chained(c, ledger) <==> Chained(c, other)
  {
    SameLinksSameVerdict(c, ledger, other);
  }

  /** The two events agree in everything that the verification of a chain looks at. */
  predicate SameLink(c: Crypto, a: Event, b: Event) {
    && PayloadText(c, a) == PayloadText(c, b)
    && a.payloadHash == b.payloadHash
    && a.previousHash == b.previousHash
    && a.eventHash == b.eventHash
  }

  lemma SameLinksSameVerdict(c: Crypto, ledger: seq<Event>, other: seq<Event>)
    requires |ledger| == |other|
    requires forall i :: 0 <= i < |ledger| ==> SameLink(c, ledger[i], other[i])
    ensures Chained(c, ledger) <==> Chained(c, other)
  {
    forall i | 0 <= i < |ledger| ensures LinkOk(c, ledger, i) <==> LinkOk(c, other, i) {
      assert SameLink(c, ledger[i], other[i]);
      if i > 0 {
        assert SameLink(c, ledger[i - 1], other[i - 1]);
      }
    }
  }

  /** What a kept last hash protects: a ledger put in the place of a verified one, of the same
      length and with the same last event hash, verifies exactly when it agrees with it in every
      payload text and every hash. */
  lemma KeptHashProtects(c: Crypto, ledger: seq<Event>, other: seq<Event>)
    requires Chained(c, ledger) && |ledger| == |other| > 0
    requires NoCollision(c, Hashed(c, ledger) + Hashed(c, other))
    requires ledger[|ledger| - 1].eventHash == other[|other| - 1].eventHash
    ensures Chained(c, other) <==> forall i :: 0 <= i < |ledger| ==> SameLink(c, ledger[i], other[i])
  {
    if Chained(c, other) {
      HashCommits(c, ledger, |ledger| - 1, other, |other| - 1);
      forall i | 0 <= i < |ledger| ensures SameLink(c, ledger[i], other[i]) {
        assert LinkOk(c, ledger, i) && LinkOk(c, other, i);
      }
    }
    if forall i :: 0 <= i < |ledger| ==> SameLink(c, ledger[i], other[i]) {
      SameLinksSameVerdict(c, ledger, other);
    }
  }

  /** When a modification of one event goes unnoticed: exactly when it leaves the payload text and
      the three hashes alone, or the event is the last one and has been sealed again. */
  lemma ModificationUnnoticed(c: Crypto, ledger: seq<Event>, i: nat, e: Event)
    requires Chained(c, ledger) && i < |ledger|
    requires NoCollision(c, Hashed(c, ledger) + Hashed(c, ledger[i := e]))
    ensures Chained(c, ledger[i := e]) <==>
      SameLink(c, ledger[i], e) || (i == |ledger| - 1 && LinkOk(c, ledger[i := e], i))
  {
    var other := ledger[i := e];
    if Chained(c, other) {
      assert LinkOk(c, other, i) && LinkOk(c, ledger, i);
      if i < |ledger| - 1 {
        assert LinkOk(c, other, i + 1) && LinkOk(c, ledger, i + 1);
        SameHashSameLink(c, ledger, i, other, i);
      }
    }
    if SameLink(c, ledger[i], e) {
      SameLinksSameVerdict(c, ledger, other);
    }
    if i == |ledger| - 1 && LinkOk(c, other, i) {
      ResealedLast(c, ledger, e);
    }
  }

  /** The last event can be replaced by any event that is sealed on the one before it. */
  lemma ResealedLast(c: Crypto, ledger: seq<Event>, e: Event)
    requires Chained(c, ledger) && ledger != []
    requires LinkOk(c, ledger[|ledger| - 1 := e], |ledger| - 1)
    ensures Chained(c, ledger[|ledger| - 1 := e])
  {
    var other := ledger[|ledger| - 1 := e];
    forall k | 0 <= k < |other| ensures LinkOk(c, other, k) {
      assert LinkOk(c, ledger, k);
    }
  }

  /** So the last event can be replaced by one with any content at all. */
  lemma LastIsReplaceable(c: Crypto, ledger: seq<Event>, sequence: int, record: Record)
    requires Chained(c, ledger) && ledger != []
    ensures Chained(c, ledger[|ledger| - 1 := Seal(c, Previous(ledger, |ledger| - 1), sequence, record)])
  {
    ResealedLast(c, ledger, Seal(c, Previous(ledger, |ledger| - 1), sequence, record));
  }
}
