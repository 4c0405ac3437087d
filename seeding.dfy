/** What the three seeding scripts share: Firestore's batched writes, committed every
    500 writes and once more for the remainder, and the generated codes. The database is
    a `Store` that records each committed batch; a batch being filled is a local list. */
module Seeding {
  import opened Wrappers
  import opened Text

  /** Firestore accepts at most 500 writes in one batch. */
  const BatchSize: nat := 500

  /** A document of the `items` collection as the scripts create it. The expiry date is
      kept as the number of whole days after the moment of creation; `addedDate` is the
      server's timestamp and is not modelled. */
  datatype ItemRecord = ItemRecord(itemId: string, householdId: string, productName: string, janCode: string,
                                   category: string, quantity: int, unit: string, expiryDaysAhead: int,
                                   status: string, barcode: string, price: int, manufacturer: string,
                                   imageUrl: Option<string>, addedBy: string, deletedAt: Option<string>)

  /** One write of a batch: a document set under an id, or a document deleted. */
  datatype Write<T> = Set(id: string, doc: T) | Delete(id: string)

  /** The collections the scripts write to, as the sequence of batches committed. */
  class Store<T> {
    var committed: seq<seq<Write<T>>>

    constructor()
      ensures committed == []
    {
      committed := [];
    }

    /** `batch.commit()`: the whole batch is applied at once. */
    method Commit(batch: seq<Write<T>>)
      requires |batch| <= BatchSize
      modifies this
      ensures committed == old(committed) + [batch]
    {
      committed := committed + [batch];
    }
  }

  /** The batches a run commits for `xs`: full batches of 500 in order, then the
      remainder if there is one. */
  function Chunks<T>(xs: seq<T>): seq<seq<T>>
    decreases |xs|
  {
    if |xs| == 0 then []
    else if |xs| <= BatchSize then [xs]
    else [xs[..BatchSize]] + Chunks(xs[BatchSize..])
  }

  function Flatten<T>(xss: seq<seq<T>>): seq<T> {
    if |xss| == 0 then [] else xss[0] + Flatten(xss[1..])
  }

  /** A batch that is full after a whole number of full batches is the next chunk. */
  lemma {:induction false} ChunksAppend<T>(xs: seq<T>, ys: seq<T>)
    requires |xs| % BatchSize == 0 && 0 < |ys| <= BatchSize
    ensures Chunks(xs + ys) == Chunks(xs) + [ys]
    decreases |xs|
  {
    if |xs| == 0 {
      assert xs + ys == ys;
    } else {
      assert (xs + ys)[..BatchSize] == xs[..BatchSize];
      assert (xs + ys)[BatchSize..] == xs[BatchSize..] + ys;
      ChunksAppend(xs[BatchSize..], ys);
    }
  }

  /** Committing the chunks in order writes exactly the given list. */
  lemma {:induction false} ChunksFlatten<T>(xs: seq<T>)
    ensures Flatten(Chunks(xs)) == xs
    decreases |xs|
  {
    if |xs| > BatchSize {
      ChunksFlatten(xs[BatchSize..]);
      assert ([xs[..BatchSize]] + Chunks(xs[BatchSize..]))[1..] == Chunks(xs[BatchSize..]);
      assert xs[..BatchSize] + xs[BatchSize..] == xs;
    } else if |xs| > 0 {
      assert [xs][1..] == [];
      assert xs + [] == xs;
    }
  }

  /** There are ceil(n / 500) commits; every batch holds between 1 and 500 writes, and
      all but the last exactly 500. */
  lemma {:induction false} ChunksShape<T>(xs: seq<T>)
    ensures |Chunks(xs)| == (|xs| + BatchSize - 1) / BatchSize
    ensures forall k :: 0 <= k < |Chunks(xs)| ==> 0 < |Chunks(xs)[k]| <= BatchSize
    ensures forall k :: 0 <= k < |Chunks(xs)| - 1 ==> |Chunks(xs)[k]| == BatchSize
    decreases |xs|
  {
    if |xs| > BatchSize {
      ChunksShape(xs[BatchSize..]);
      var cs := Chunks(xs);
      assert forall k :: 1 <= k < |cs| ==> cs[k] == Chunks(xs[BatchSize..])[k - 1];
    }
  }

  /** The state of a batched run part-way: `done` are the writes made so far; those
      before the open `batch` are committed, in chunks, after `base`. */
  ghost predicate Pending<T>(committed: seq<seq<Write<T>>>, base: seq<seq<Write<T>>>, done: seq<Write<T>>,
                             batch: seq<Write<T>>)
  {
    |batch| == |done| % BatchSize
    && batch == done[|done| - |batch|..]
    && committed == base + Chunks(done[..|done| - |batch|])
  }

  lemma PendingStart<T>(base: seq<seq<Write<T>>>)
    ensures Pending(base, base, [], [])
  {
    assert base + Chunks<Write<T>>([]) == base;
  }

  /** A write that does not fill the batch leaves it open. */
  lemma {:induction false} PendingAdd<T>(committed: seq<seq<Write<T>>>, base: seq<seq<Write<T>>>, done: seq<Write<T>>,
                      batch: seq<Write<T>>, w: Write<T>)
    requires Pending(committed, base, done, batch) && (|done| + 1) % BatchSize != 0
    ensures Pending(committed, base, done + [w], batch + [w])
  {
    assert (done + [w])[..|done| + 1 - |batch + [w]|] == done[..|done| - |batch|];
  }

  /** A write that fills the batch is followed by a commit of 500 writes and a fresh
      batch. */
  lemma {:induction false} PendingFull<T>(committed: seq<seq<Write<T>>>, base: seq<seq<Write<T>>>, done: seq<Write<T>>,
                       batch: seq<Write<T>>, w: Write<T>)
    requires Pending(committed, base, done, batch) && (|done| + 1) % BatchSize == 0
    ensures |batch + [w]| == BatchSize
    ensures Pending(committed + [batch + [w]], base, done + [w], [])
  {
    var all := done + [w];
    var before := done[..|done| - |batch|];
    assert before + (batch + [w]) == all;
    assert |before| % BatchSize == 0;
    ChunksAppend(before, batch + [w]);
    assert all[..|all| - 0] == all;
  }

  /** After the loop, the remainder is committed exactly when there is one, and then
      the run has committed the chunks of everything it wrote. */
  lemma {:induction false} PendingFinish<T>(committed: seq<seq<Write<T>>>, base: seq<seq<Write<T>>>, done: seq<Write<T>>,
                         batch: seq<Write<T>>)
    requires Pending(committed, base, done, batch)
    ensures |batch| <= BatchSize
    ensures |done| % BatchSize != 0 ==> committed + [batch] == base + Chunks(done)
    ensures |done| % BatchSize == 0 ==> committed == base + Chunks(done)
  {
    var before := done[..|done| - |batch|];
    if |done| % BatchSize != 0 {
      assert before + batch == done;
      assert |before| % BatchSize == 0;
      ChunksAppend(before, batch);
    } else {
      assert before == done;
    }
  }

  /** The writes that store each record under its own item id, in order. */
  function ItemWrites(records: seq<ItemRecord>): (ws: seq<Write<ItemRecord>>)
    ensures |ws| == |records|
    ensures forall k :: 0 <= k < |records| ==> ws[k] == Set(records[k].itemId, records[k])
  {
    seq(|records|, k requires 0 <= k < |records| => Set(records[k].itemId, records[k]))
  }

  /** `f"49{random.randint(10000000000, 99999999999)}"`. */
  function JanCode(n: nat): string {
    "49" + NatToString(n)
  }

  /** `f"{random.randint(1000000000000, 9999999999999)}"`. */
  function Barcode(n: nat): string {
    NatToString(n)
  }

  /** The generated JAN codes and barcodes have thirteen digits, as JAN codes do. */
  lemma CodesHaveThirteenDigits(jan: nat, barcode: nat)
    requires 10000000000 <= jan <= 99999999999
    requires 1000000000000 <= barcode <= 9999999999999
    ensures |JanCode(jan)| == 13 && JanCode(jan)[..2] == "49"
    ensures |Barcode(barcode)| == 13
    ensures forall k :: 0 <= k < 13 ==> IsDigit(JanCode(jan)[k]) && IsDigit(Barcode(barcode)[k])
  {
    assert Pow10(10) == 10000000000 && Pow10(11) == 100000000000;
    NatToStringLength(jan, 11);
    assert Pow10(12) == 1000000000000 && Pow10(13) == 10000000000000;
    NatToStringLength(barcode, 13);
    var code := JanCode(jan);
    assert forall k :: 2 <= k < 13 ==> code[k] == NatToString(jan)[k - 2];
  }
}
