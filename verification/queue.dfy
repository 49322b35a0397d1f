/**
 * The in-memory thumbnail queue (server/utils/thumbnailQueue.ts): items are
 * appended, counted and looked up by thumbnail id; processing is a stub that
 * takes nothing off the queue.
 */
module Queue {

  /** A queued request. The untyped `config` field is not modelled. */
  datatype Item = Item(thumbnailId: string, userId: string, prompt: string, timestamp: nat)

  datatype Queue = Queue(items: seq<Item>, processing: bool)

  const Empty: Queue := Queue([], false)

  /** `addToQueue`: append at the end. */
  function Add(q: Queue, item: Item): (r: Queue)
    ensures |r.items| == |q.items| + 1 && r.items[|q.items|] == item
    ensures r.items[..|q.items|] == q.items && r.processing == q.processing
  {
    Queue(q.items + [item], q.processing)
  }

  /** Adding each item of `items` in order. */
  function AddAll(q: Queue, items: seq<Item>): Queue
    decreases |items|
  {
    if |items| == 0 then q else AddAll(Add(q, items[0]), items[1..])
  }

  /** `getQueueLength`. */
  function Length(q: Queue): nat
  {
    |q.items|
  }

  /**
   * `getQueuePosition`: one more than the index of the first item with this
   * id, and 0 when there is none (`findIndex` gives -1).
   */
  function Position(items: seq<Item>, id: string): (p: nat)
    ensures p <= |items|
    ensures p == 0 <==> forall i :: 0 <= i < |items| ==> items[i].thumbnailId != id
    ensures p > 0 ==> items[p - 1].thumbnailId == id && forall j :: 0 <= j < p - 1 ==> items[j].thumbnailId != id
    decreases |items|
  {
    if |items| == 0 then 0
    else if items[0].thumbnailId == id then 1
    else
      var p := Position(items[1..], id);
      if p == 0 then 0 else p + 1
  }

  /** The same lookup as a loop over the queue. */
  method FindPosition(q: Queue, id: string) returns (p: nat)
    ensures p == Position(q.items, id)
  {
    var i := 0;
    while i < |q.items|
      invariant 0 <= i <= |q.items|
      invariant forall j :: 0 <= j < i ==> q.items[j].thumbnailId != id
    {
      if q.items[i].thumbnailId == id {
        PositionIsFirst(q.items, id, i);
        return i + 1;
      }
      i := i + 1;
    }
    return 0;
  }

  /** A position is pinned down by the first index holding the id. */
  lemma PositionIsFirst(items: seq<Item>, id: string, i: nat)
    requires i < |items| && items[i].thumbnailId == id
    requires forall j :: 0 <= j < i ==> items[j].thumbnailId != id
    ensures Position(items, id) == i + 1
  {
    var p := Position(items, id);
    assert p != 0 by { assert items[i].thumbnailId == id; }
    assert items[p - 1].thumbnailId == id;
    assert p - 1 == i;
  }

  /** `getQueueLength` grows by one per added item, and the items sit in the order added. */
  lemma {:induction false} LengthCountsAdds(q: Queue, items: seq<Item>)
    ensures Length(AddAll(q, items)) == Length(q) + |items|
    ensures AddAll(q, items).items == q.items + items
    decreases |items|
  {
    if |items| > 0 {
      LengthCountsAdds(Add(q, items[0]), items[1..]);
      assert q.items + [items[0]] + items[1..] == q.items + items;
    }
  }

  /** First in, first out: adding an item moves no queued id. */
  lemma AddKeepsPositions(q: Queue, item: Item, id: string)
    requires Position(q.items, id) > 0
    ensures Position(Add(q, item).items, id) == Position(q.items, id)
  {
    var p := Position(q.items, id);
    var r := Add(q, item).items;
    assert r[p - 1] == q.items[p - 1];
    assert forall j :: 0 <= j < p - 1 ==> r[j] == q.items[j];
    PositionIsFirst(r, id, p - 1);
  }

  /** An item added for an id not yet queued is found at the end. */
  lemma AddedFoundLast(q: Queue, item: Item)
    requires Position(q.items, item.thumbnailId) == 0
    ensures Position(Add(q, item).items, item.thumbnailId) == Length(q) + 1
  {
    var r := Add(q, item).items;
    assert forall j :: 0 <= j < |q.items| ==> r[j] == q.items[j];
    PositionIsFirst(r, item.thumbnailId, |q.items|);
  }

  /**
   * `processQueue`: returns at once when already processing or empty;
   * otherwise sets the flag and clears it again with nothing done. The items
   * never change, and a queue that was not processing is left not processing.
   */
  function Process(q: Queue): (r: Queue)
    ensures r.items == q.items
    ensures !q.processing ==> !r.processing
    ensures q.processing ==> r.processing
  {
    if q.processing || |q.items| == 0 then q
    else
      var busy := Queue(q.items, true);
      Queue(busy.items, false)
  }

}
