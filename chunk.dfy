/**
 * The transaction pool's chunk queue: an insertion-ordered map from proposal
 * short ids to entries, plus a one-slot memo `front` holding the entry last
 * popped until it is cleaned.
 */
module Chunk {
  import opened Ints

  /** The queue counts as full once it holds more than this many entries. */
  const DEFAULT_MAX_CHUNK_TRANSACTIONS: nat := 100

  /** A transaction, opaque to the queue. */
  type TransactionView = seq<bv8>

  /** The short id a transaction is proposed under. */
  type ProposalShortId = seq<bv8>

  type Cycle = u64

  type PeerIndex = nat

  datatype Option<+T> = None | Some(value: T)

  /** A queued transaction, with the verification cycles and peer it was relayed by, if any. */
  datatype Entry = Entry(tx: TransactionView, remote: Option<(Cycle, PeerIndex)>)

  /** Entries are equal when their transactions are; the remote part is not compared. */
  predicate EntryEq(a: Entry, b: Entry) {
    a.tx == b.tx
  }

  lemma EntryEqIgnoresRemote(tx: TransactionView, r1: Option<(Cycle, PeerIndex)>, r2: Option<(Cycle, PeerIndex)>)
    ensures EntryEq(Entry(tx, r1), Entry(tx, r2))
  {
  }

  lemma EntryEqIsEquivalence(a: Entry, b: Entry, c: Entry)
    ensures EntryEq(a, a)
    ensures EntryEq(a, b) <==> EntryEq(b, a)
    ensures EntryEq(a, b) && EntryEq(b, c) ==> EntryEq(a, c)
  {
  }

  // ---------------------------------------------------------------------------
  // The ordered map, as a sequence of (key, entry) pairs, oldest first

  type Slot = (ProposalShortId, Entry)

  function KeySet(s: seq<Slot>): set<ProposalShortId> {
    if s == [] then {} else {s[0].0} + KeySet(s[1..])
  }

  /** No key occurs twice. */
  ghost predicate Distinct(s: seq<Slot>) {
    s == [] || (s[0].0 !in KeySet(s[1..]) && Distinct(s[1..]))
  }

  /** Every key is the short id of its entry's transaction. */
  ghost predicate WellKeyed(s: seq<Slot>, shortId: TransactionView -> ProposalShortId) {
    forall p :: p in s ==> p.0 == shortId(p.1.tx)
  }

  /** The entry stored under `id`. */
  function Lookup(s: seq<Slot>, id: ProposalShortId): (r: Option<Entry>)
    ensures r.Some? <==> id in KeySet(s)
    ensures r.Some? ==> (id, r.value) in s
  {
    if s == [] then None
    else if s[0].0 == id then Some(s[0].1)
    else Lookup(s[1..], id)
  }

  /** The map with the keys in `ids` removed; the other pairs keep their order. */
  function Without(s: seq<Slot>, ids: set<ProposalShortId>): (r: seq<Slot>)
    ensures KeySet(r) == KeySet(s) - ids
    ensures forall p :: p in r ==> p in s
  {
    if s == [] then []
    else if s[0].0 in ids then Without(s[1..], ids)
    else
      var rest := Without(s[1..], ids);
      assert ([s[0]] + rest)[1..] == rest;
      [s[0]] + rest
  }

  lemma {:induction false} KeySetAppend(s: seq<Slot>, x: Slot)
    ensures KeySet(s + [x]) == KeySet(s) + {x.0}
  {
    if s != [] {
      assert (s + [x])[1..] == s[1..] + [x];
      KeySetAppend(s[1..], x);
    }
  }

  lemma {:induction false} DistinctAppend(s: seq<Slot>, x: Slot)
    requires Distinct(s) && x.0 !in KeySet(s)
    ensures Distinct(s + [x])
  {
    if s == [] {
      assert KeySet([x][1..]) == {};
    } else {
      assert (s + [x])[1..] == s[1..] + [x];
      DistinctAppend(s[1..], x);
      KeySetAppend(s[1..], x);
    }
  }

  /** With distinct keys, the number of pairs is the number of keys. */
  lemma {:induction false} DistinctLength(s: seq<Slot>)
    requires Distinct(s)
    ensures |KeySet(s)| == |s|
  {
    if s != [] {
      DistinctLength(s[1..]);
    }
  }

  lemma {:induction false} WithoutDistinct(s: seq<Slot>, ids: set<ProposalShortId>)
    requires Distinct(s)
    ensures Distinct(Without(s, ids))
  {
    if s != [] {
      WithoutDistinct(s[1..], ids);
      if s[0].0 !in ids {
        var rest := Without(s[1..], ids);
        assert ([s[0]] + rest)[1..] == rest;
      }
    }
  }

  /** Removal distributes over concatenation, so the relative order of the remaining pairs is kept. */
  lemma {:induction false} WithoutAppend(s: seq<Slot>, t: seq<Slot>, ids: set<ProposalShortId>)
    ensures Without(s + t, ids) == Without(s, ids) + Without(t, ids)
  {
    if s != [] {
      assert (s + t)[1..] == s[1..] + t;
      WithoutAppend(s[1..], t, ids);
    } else {
      assert s + t == t;
    }
  }

  /** Removing keys absent from the map changes nothing. */
  lemma {:induction false} WithoutAbsent(s: seq<Slot>, ids: set<ProposalShortId>)
    requires KeySet(s) !! ids
    ensures Without(s, ids) == s
  {
    if s != [] {
      WithoutAbsent(s[1..], ids);
      assert s == [s[0]] + s[1..];
    }
  }

  /** Removing two key sets one after the other is removing their union. */
  lemma {:induction false} WithoutUnion(s: seq<Slot>, a: set<ProposalShortId>, b: set<ProposalShortId>)
    ensures Without(Without(s, a), b) == Without(s, a + b)
  {
    if s != [] {
      WithoutUnion(s[1..], a, b);
      if s[0].0 !in a {
        var rest := Without(s[1..], a);
        assert ([s[0]] + rest)[1..] == rest;
      }
    }
  }

  /** The ids listed in `ids`. */
  function Elements(ids: seq<ProposalShortId>): (r: set<ProposalShortId>)
    ensures forall id :: id in r <==> id in ids
  {
    if ids == [] then {} else Elements(ids[..|ids| - 1]) + {ids[|ids| - 1]}
  }

  // ---------------------------------------------------------------------------

  class ChunkQueue {
    /** The short id of a transaction, fixed for the queue's lifetime. */
    const shortId: TransactionView -> ProposalShortId
    var inner: seq<Slot>
    /** The last popped entry, kept until `CleanFront`. */
    var front: Option<Entry>

    /**
     * The keys are distinct and each is its transaction's short id, and the
     * entry held in `front` is no longer in the map.
     */
    ghost predicate Valid()
      reads this
    {
      && Distinct(inner)
      && WellKeyed(inner, shortId)
      && (front.Some? ==> shortId(front.value.tx) !in KeySet(inner))
    }

    /** The ids the queue reports as contained: the map's keys and the short id of `front`. */
    ghost function Ids(): set<ProposalShortId>
      reads this
    {
      KeySet(inner) + (if front.Some? then {shortId(front.value.tx)} else {})
    }

    constructor (shortId: TransactionView -> ProposalShortId)
      ensures Valid()
      ensures this.shortId == shortId && inner == [] && front == None
    {
      this.shortId := shortId;
      inner := [];
      front := None;
    }

    /** The number of entries in the map; an entry held only in `front` is not counted. */
    function Len(): (n: nat)
      reads this
      requires Valid()
      ensures n == |KeySet(inner)|
    {
      DistinctLength(inner);
      |inner|
    }

    function IsEmpty(): (r: bool)
      reads this
      requires Valid()
      ensures r <==> KeySet(inner) == {}
    {
      |inner| == 0
    }

    function IsFull(): (r: bool)
      reads this
      requires Valid()
      ensures r <==> |KeySet(inner)| > DEFAULT_MAX_CHUNK_TRANSACTIONS
    {
      Len() > DEFAULT_MAX_CHUNK_TRANSACTIONS
    }

    function ContainsKey(id: ProposalShortId): (r: bool)
      reads this
      ensures r <==> id in Ids()
    {
      (front.Some? && shortId(front.value.tx) == id) || Lookup(inner, id).Some?
    }

    method CleanFront()
      requires Valid()
      modifies this
      ensures Valid()
      ensures front == None && inner == old(inner)
      ensures Ids() == KeySet(inner)
    {
      front := None;
    }

    /**
     * Returns the entry held in `front` if there is one, changing nothing;
     * otherwise moves the oldest entry of the map into `front` and returns it.
     * The set of contained ids never changes.
     */
    method PopFront() returns (popped: Option<Entry>)
      requires Valid()
      modifies this
      ensures Valid()
      ensures Ids() == old(Ids())
      ensures old(front).Some? ==> popped == old(front) && front == old(front) && inner == old(inner)
      ensures old(front).None? && old(inner) != [] ==>
                popped == Some(old(inner)[0].1) && front == popped && inner == old(inner)[1..]
      ensures old(front).None? && old(inner) == [] ==> popped == None && front == None && inner == []
    {
      if front.Some? {
        popped := front;
      } else if inner != [] {
        var entry := inner[0].1;
        assert inner[0] in inner;
        inner := inner[1..];
        front := Some(entry);
        popped := Some(entry);
      } else {
        popped := None;
      }
    }

    /** Removes `id` from the map only; `front` is untouched. */
    method RemoveChunkTx(id: ProposalShortId) returns (removed: Option<Entry>)
      requires Valid()
      modifies this
      ensures Valid()
      ensures removed == Lookup(old(inner), id)
      ensures inner == Without(old(inner), {id}) && front == old(front)
      ensures front.Some? && id == shortId(front.value.tx) ==> removed == None && ContainsKey(id)
    {
      removed := Lookup(inner, id);
      WithoutDistinct(inner, {id});
      inner := Without(inner, {id});
    }

    method RemoveChunkTxs(ids: seq<ProposalShortId>)
      requires Valid()
      modifies this
      ensures Valid()
      ensures inner == Without(old(inner), Elements(ids)) && front == old(front)
    {
      ghost var start := inner;
      WithoutAbsent(start, {});
      assert Elements(ids[..0]) == {};
      var i := 0;
      while i < |ids|
        invariant 0 <= i <= |ids|
        invariant Valid()
        invariant inner == Without(start, Elements(ids[..i]))
        invariant front == old(front)
      {
        ghost var done := Elements(ids[..i]);
        var _ := RemoveChunkTx(ids[i]);
        WithoutUnion(start, done, {ids[i]});
        assert ids[..i + 1][..i] == ids[..i];
        assert Elements(ids[..i + 1]) == done + {ids[i]};
        i := i + 1;
      }
      assert ids[..i] == ids;
    }

    /**
     * Appends a relayed transaction unless the queue is over capacity or its
     * id is already contained (in the map or in `front`).
     */
    method AddRemoteTx(tx: TransactionView, remote: (Cycle, PeerIndex))
      requires Valid()
      modifies this
      ensures Valid()
      ensures front == old(front)
      ensures old(Len()) > DEFAULT_MAX_CHUNK_TRANSACTIONS || old(ContainsKey(shortId(tx))) ==> inner == old(inner)
      ensures !(old(Len()) > DEFAULT_MAX_CHUNK_TRANSACTIONS || old(ContainsKey(shortId(tx)))) ==>
                inner == old(inner) + [(shortId(tx), Entry(tx, Some(remote)))]
      ensures old(Len()) <= DEFAULT_MAX_CHUNK_TRANSACTIONS + 1 ==> Len() <= DEFAULT_MAX_CHUNK_TRANSACTIONS + 1
    {
      if Len() > DEFAULT_MAX_CHUNK_TRANSACTIONS {
        return;
      }
      if ContainsKey(shortId(tx)) {
        return;
      }
      Append(shortId(tx), Entry(tx, Some(remote)));
    }

    /** Appends a local transaction; returns whether its id was absent from both the map and `front`. */
    method AddTx(tx: TransactionView) returns (added: bool)
      requires Valid()
      modifies this
      ensures Valid()
      ensures front == old(front)
      ensures added == !old(ContainsKey(shortId(tx)))
      ensures added ==> inner == old(inner) + [(shortId(tx), Entry(tx, None))]
      ensures !added ==> inner == old(inner)
      ensures Ids() == old(Ids()) + {shortId(tx)}
    {
      if ContainsKey(shortId(tx)) {
        return false;
      }
      Append(shortId(tx), Entry(tx, None));
      added := true;
    }

    /** Inserts a key known to be absent at the back of the map. */
    method Append(id: ProposalShortId, entry: Entry)
      requires Valid()
      requires id == shortId(entry.tx) && id !in Ids()
      modifies this
      ensures Valid()
      ensures inner == old(inner) + [(id, entry)] && front == old(front)
      ensures Ids() == old(Ids()) + {id}
    {
      DistinctAppend(inner, (id, entry));
      KeySetAppend(inner, (id, entry));
      DistinctLength(inner + [(id, entry)]);
      inner := inner + [(id, entry)];
    }

    method Clear()
      requires Valid()
      modifies this
      ensures Valid()
      ensures inner == [] && front == None
      ensures Ids() == {}
    {
      inner := [];
      CleanFront();
    }
  }

  /**
   * The module's `basic` test: add a transaction, pop it (twice, to see that a
   * pop is repeatable), find it still contained, fail to add it again, clean
   * the front and find it gone.
   */
  method BasicScenario(shortId: TransactionView -> ProposalShortId, tx: TransactionView)
    returns (added: bool, popped: Option<Entry>, poppedAgain: Option<Entry>, containedAfterPop: bool,
             addedAgain: bool, containedAfterClean: bool)
    ensures added && !addedAgain
    ensures popped == Some(Entry(tx, None)) && popped == poppedAgain
    ensures containedAfterPop && !containedAfterClean
  {
    var queue := new ChunkQueue(shortId);
    var id := shortId(tx);
    added := queue.AddTx(tx);
    popped := queue.PopFront();
    poppedAgain := queue.PopFront();
    containedAfterPop := queue.ContainsKey(id);
    addedAgain := queue.AddTx(tx);
    queue.CleanFront();
    containedAfterClean := queue.ContainsKey(id);
  }
}
