/** The append-only event ledger (persistence/event_store.py). */
module EventStores {
  import opened Wrappers
  import opened Events
  import opened HashChain
  import opened Journals

  /** Why `verify_chain` rejects a ledger, with the stored sequence number of the event. */
  datatype ChainError =
    | PayloadHashMismatch(sequence: int)
    | ChainBroken(sequence: int)
    | EventHashMismatch(sequence: int)

  /** The ledger invariant: an intact chain, numbered from 0. */
  ghost predicate WellFormed(c: Crypto, ledger: seq<Event>) {
    Chained(c, ledger) && forall i :: 0 <= i < |ledger| ==> ledger[i].sequence == i
  }

  lemma WellFormedAppend(c: Crypto, ledger: seq<Event>, record: Record)
    requires WellFormed(c, ledger)
    ensures WellFormed(c, ledger + [Seal(c, Previous(ledger, |ledger|), |ledger|, record)])
  {
    ChainedAppend(c, ledger, |ledger|, record);
  }

  /** What the first failing check at index `i` reports. */
  ghost predicate Reports(c: Crypto, ledger: seq<Event>, i: nat, error: ChainError)
    requires i < |ledger|
  {
    var e := ledger[i];
    if e.payloadHash != c.sha(PayloadText(c, e)) then error == PayloadHashMismatch(e.sequence)
    else if e.previousHash != Previous(ledger, i) then error == ChainBroken(e.sequence)
    else !LinkOk(c, ledger, i) && error == EventHashMismatch(e.sequence)
  }

  function LedgerIn(files: map<WorkflowId, seq<Event>>, w: WorkflowId): seq<Event> {
    if w in files then files[w] else []
  }

  /** The value `_rebuild_sequence` reads from a ledger. */
  function StoredSequence(ledger: seq<Event>): int {
    if ledger == [] then -1 else ledger[|ledger| - 1].sequence
  }

  /** Every ledger is well formed and every cached counter is what a rebuild would read. */
  ghost predicate Consistent(c: Crypto, files: map<WorkflowId, seq<Event>>, sequences: map<WorkflowId, int>) {
    && (forall w :: w in files ==> WellFormed(c, files[w]))
    && (forall w :: w in sequences ==> sequences[w] == StoredSequence(LedgerIn(files, w)))
  }

  lemma AppendKeepsConsistent(c: Crypto, files: map<WorkflowId, seq<Event>>, sequences: map<WorkflowId, int>,
                              w: WorkflowId, record: Record)
    requires Consistent(c, files, sequences)
    ensures
      var ledger := LedgerIn(files, w);
      var sealed := Seal(c, Previous(ledger, |ledger|), |ledger|, record);
      StoredSequence(ledger) == |ledger| - 1 &&
      (w in sequences ==> sequences[w] == |ledger| - 1) &&
      Consistent(c, files[w := ledger + [sealed]], sequences[w := |ledger|])
  {
    WellFormedAppend(c, LedgerIn(files, w), record);
  }

  /** `files` is on disk; `sequences` is the in-memory counter cache of one process. */
  class EventStore {
    const crypto: Crypto
    const journal: Journal
    var files: map<WorkflowId, seq<Event>>
    var sequences: map<WorkflowId, int>

    /** A process start: whatever is on disk, with an empty cache. */
    constructor (crypto: Crypto, journal: Journal, files: map<WorkflowId, seq<Event>>)
      ensures this.crypto == crypto && this.journal == journal && this.files == files && sequences == map[]
      ensures (forall w :: w in files ==> WellFormed(crypto, files[w])) ==> Valid()
    {
      this.crypto, this.journal, this.files, this.sequences := crypto, journal, files, map[];
    }

    function Ledger(w: WorkflowId): seq<Event>
      reads this
    {
      LedgerIn(files, w)
    }

    /** The value the next append counts from. */
    function LatestSequence(w: WorkflowId): int
      reads this
    {
      if w in sequences then sequences[w] else StoredSequence(Ledger(w))
    }

    ghost predicate Valid()
      reads this
    {
      Consistent(crypto, files, sequences)
    }

    method RebuildSequence(w: WorkflowId) returns (sequence: int)
      modifies this`sequences
      ensures sequence == StoredSequence(Ledger(w)) && sequences == old(sequences)[w := sequence]
    {
      var lines := Ledger(w);
      if |lines| == 0 {
        sequence := -1;
      } else {
        sequence := lines[|lines| - 1].sequence;
      }
      sequences := sequences[w := sequence];
    }

    method GetLatestSequence(w: WorkflowId) returns (sequence: int)
      modifies this`sequences
      ensures sequence == old(LatestSequence(w))
      ensures LatestSequence(w) == sequence
      ensures forall v :: v != w ==> LatestSequence(v) == old(LatestSequence(v))
      ensures old(Valid()) ==> Valid() && sequence == |Ledger(w)| - 1
    {
      if w in sequences {
        sequence := sequences[w];
      } else {
        sequence := RebuildSequence(w);
      }
    }

    /** Numbers, seals and appends `event`, whatever its number and hash fields were. Only the
        ledger of `w` changes, and only at its end; a valid store stays valid. */
    method Append(w: WorkflowId, event: Event) returns (sealed: Event)
      modifies this, journal
      ensures journal.entries == old(journal.entries) + [EventWrite(event.record)]
      ensures files == old(files)[w := old(Ledger(w)) + [sealed]]
      ensures sealed == Seal(crypto, Previous(old(Ledger(w)), |old(Ledger(w))|),
                             old(LatestSequence(w)) + 1, event.record)
      ensures LatestSequence(w) == sealed.sequence
      ensures forall v :: v != w ==> Ledger(v) == old(Ledger(v)) && LatestSequence(v) == old(LatestSequence(v))
      ensures old(Valid()) ==> Valid() && sealed.sequence == |old(Ledger(w))|
    {
      hide Consistent;
      if w !in sequences {
        var _ := RebuildSequence(w);
      }
      var nextSequence := sequences[w] + 1;
      var e := event;
      if e.sequence != nextSequence {
        e := e.(sequence := nextSequence);
      }
      var previousHash: Option<string> := None;
      var lines := Ledger(w);
      if |lines| > 0 {
        previousHash := Some(lines[|lines| - 1].eventHash);
      }
      var payloadHash := crypto.sha(crypto.dumps(e.record.payload));
      var eventHash := crypto.sha(LinkText(previousHash, payloadHash));
      e := e.(payloadHash := payloadHash, previousHash := previousHash, eventHash := eventHash);
      files := files[w := lines + [e]];
      journal.entries := journal.entries + [EventWrite(event.record)];
      sequences := sequences[w := e.sequence];
      sealed := e;
      assert sequences == old(sequences)[w := e.sequence];
      if old(Valid()) {
        AppendKeepsConsistent(crypto, old(files), old(sequences), w, event.record);
      }
    }

    /** Accepts exactly the intact chains, and otherwise names the first event that fails. */
    method VerifyChain(w: WorkflowId) returns (error: Option<ChainError>)
      ensures error == None <==> Chained(crypto, Ledger(w))
      ensures error.Some? ==>
        exists i :: 0 <= i < |Ledger(w)| && Chained(crypto, Ledger(w)[..i]) && Reports(crypto, Ledger(w), i, error.value)
    {
      var events := Ledger(w);
      var previousHash: Option<string> := None;
      var i := 0;
      while i < |events|
        invariant 0 <= i <= |events|
        invariant previousHash == Previous(events, i)
        invariant forall k :: 0 <= k < i ==> LinkOk(crypto, events, k)
      {
        assert Chained(crypto, events[..i]) by {
          forall k | 0 <= k < i ensures LinkOk(crypto, events[..i], k) {
            assert LinkOk(crypto, events, k);
          }
        }
        var event := events[i];
        var computedPayload := crypto.sha(crypto.dumps(event.record.payload));
        if computedPayload != event.payloadHash {
          error := Some(PayloadHashMismatch(event.sequence));
          assert !LinkOk(crypto, events, i) && Reports(crypto, events, i, error.value);
          return;
        }
        if event.previousHash != previousHash {
          error := Some(ChainBroken(event.sequence));
          assert !LinkOk(crypto, events, i) && Reports(crypto, events, i, error.value);
          return;
        }
        var computedEvent := crypto.sha(LinkText(previousHash, computedPayload));
        if computedEvent != event.eventHash {
          error := Some(EventHashMismatch(event.sequence));
          assert !LinkOk(crypto, events, i) && Reports(crypto, events, i, error.value);
          return;
        }
        previousHash := Some(event.eventHash);
        i := i + 1;
      }
      error := None;
    }
  }
}
