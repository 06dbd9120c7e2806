/** The queue on Go slices (broadway/concurrent_queue.go), at the level of backing arrays: a batch taken from the
    queue shares its array with what stays behind, with the capacity to write over it, and giving the
    batch back does write there. */
module SliceQueue {
  /** A slice: a window on a backing array. Its capacity is what the array has from the offset on. */
  datatype Slice<!T> = Slice(arr: array<T>, off: nat, len: nat)

  ghost predicate Fits<T>(s: Slice<T>) {
    s.off + s.len <= s.arr.Length
  }

  ghost function View<T>(s: Slice<T>): seq<T>
    requires Fits(s)
    reads s.arr
  {
    s.arr[s.off..s.off + s.len]
  }

  /** a ends before b starts, if they share an array. */
  ghost predicate Before<T>(a: Slice<T>, b: Slice<T>) {
    a.arr == b.arr ==> a.off + a.len <= b.off
  }

  /** append(s, items...): in place if the capacity allows it, otherwise in a new array with room to spare. */
  method Append<T(0)>(s: Slice<T>, items: seq<T>) returns (r: Slice<T>)
    requires Fits(s)
    modifies s.arr
    ensures Fits(r) && View(r) == old(View(s)) + items
    ensures r.arr == s.arr ==> r.off == s.off
    ensures r.arr != s.arr ==> fresh(r.arr)
    ensures forall i :: 0 <= i < s.arr.Length && i < s.off + s.len ==> s.arr[i] == old(s.arr[i])
  {
    var n := s.len + |items|;
    if s.off + n <= s.arr.Length {
      Write(s.arr, s.off + s.len, items);
      return Slice(s.arr, s.off, n);
    }
    var spare: int := *;
    if spare < 0 {
      spare := 0;
    }
    var arr := new T[n + spare];
    ghost var view := View(s);
    Write(arr, 0, s.arr[s.off..s.off + s.len]);
    Write(arr, s.len, items);
    r := Slice(arr, 0, n);
    assert arr[..s.len] == view;
  }

  /** copy: the source is read before anything is written, even where the two overlap. */
  method Write<T>(arr: array<T>, at: nat, items: seq<T>)
    requires at + |items| <= arr.Length
    modifies arr
    ensures arr[at..at + |items|] == items
    ensures forall i :: 0 <= i < arr.Length && !(at <= i < at + |items|) ==> arr[i] == old(arr[i])
  {
    for i := 0 to |items|
      invariant arr[at..at + i] == items[..i]
      invariant forall j :: 0 <= j < arr.Length && !(at <= j < at + i) ==> arr[j] == old(arr[j])
    {
      arr[at + i] := items[i];
    }
  }

  class ConcurrentQueue<T(0)> {
    var queue: Slice<T>

    /** The batches handed out and not given back. */
    ghost var handed: set<Slice<T>>

    constructor ()
      ensures Valid() && Contents() == [] && handed == {}
    {
      var none := new T[0];
      queue := Slice(none, 0, 0);
      handed := {};
    }

    ghost predicate Valid()
      reads this
    {
      Fits(queue) && forall h <- handed :: Fits(h) && Before(h, queue)
    }

    ghost function Contents(): seq<T>
      requires Fits(queue)
      reads this, queue.arr
    {
      View(queue)
    }

    method Enqueue(items: seq<T>)
      requires Valid()
      modifies this, queue.arr
      ensures Valid() && handed == old(handed)
      ensures Contents() == old(Contents()) + items
      ensures queue.arr == old(queue.arr) || fresh(queue.arr)
      ensures queue.arr == old(queue.arr) ==> queue.off == old(queue.off)
      ensures forall h <- handed :: View(h) == old(View(h))
    {
      queue := Append(queue, items);
    }

    /** Hands out up to `total` items; what stays keeps sharing the array unless nothing can be told apart. */
    method Dequeue(total: nat) returns (items: Slice<T>, ok: bool)
      requires Valid()
      modifies this
      ensures Valid() && Fits(items) && items.arr == old(queue.arr)
      ensures var n := if |old(Contents())| < total then |old(Contents())| else total;
              View(items) == old(Contents())[..n] && Contents() == old(Contents())[n..] && (ok <==> n > 0)
      ensures View(items) + Contents() == old(Contents())
      ensures handed == old(handed) + {items} && Last(items)
      ensures queue.arr == old(queue.arr) || fresh(queue.arr)
    {
      if queue.len < total {
        items := queue;
        var none := new T[0];
        queue := Slice(none, 0, 0);
      } else {
        items := Slice(queue.arr, queue.off, total);
        queue := Slice(queue.arr, queue.off + total, queue.len - total);
      }
      handed := handed + {items};
      ok := items.len > 0;
    }

    method DequeueAll() returns (items: Slice<T>, ok: bool)
      requires Valid()
      modifies this
      ensures Valid() && Fits(items) && items.arr == old(queue.arr)
      ensures View(items) == old(Contents()) && Contents() == [] && (ok <==> old(Contents()) != [])
      ensures handed == old(handed) + {items} && Last(items)
      ensures queue.arr == old(queue.arr) || fresh(queue.arr)
    {
      items := queue;
      var none := new T[0];
      queue := Slice(none, 0, 0);
      handed := handed + {items};
      ok := items.len > 0;
    }

    /** No other batch is out of the same array from its offset on: true of the batch taken last, and of any
        slice the caller made itself. */
    ghost predicate Last(items: Slice<T>)
      reads this
    {
      forall h <- handed :: h != items ==> Before(h, items)
    }

    /** append(items, queue...): the batch's own array is written behind the batch if it is long enough. */
    method Prepend(items: Slice<T>)
      requires Valid() && Fits(items) && Last(items)
      modifies this, items.arr
      ensures Valid() && handed == old(handed) - {items}
      ensures Contents() == old(View(items)) + old(Contents())
      ensures queue.arr == items.arr || fresh(queue.arr)
      ensures forall h <- handed :: View(h) == old(View(h))
    {
      handed := handed - {items};
      ghost var out := handed;
      queue := Append(items, queue.arr[queue.off..queue.off + queue.len]);
      forall h | h in out ensures View(h) == old(View(h)) && Before(h, queue) {
        assert Before(h, items);
      }
    }

    /** A batch is taken, messages arrive meanwhile, nobody accepts the batch and it is put back: the queue is
        as if the batch had never left, whether or not an arrival made the queue move to a new array in
        between; and no batch handed out before has been touched. */
    method TakeAndGiveBack(total: nat, arrivals: seq<seq<T>>)
      requires Valid()
      modifies this, queue.arr
      ensures Valid()
      ensures Contents() == old(Contents()) + Concat(arrivals)
      ensures forall h :: h in old(handed) && h in handed ==> View(h) == old(View(h))
    {
      ghost var before := Contents();
      var items, ok := Dequeue(total);
      ghost var batch, rest := View(items), Contents();
      EnqueueEach(items, arrivals);
      Prepend(items);
      Rejoined(before, batch, rest, Concat(arrivals));
    }

    /** Arrivals while a batch is out. */
    method EnqueueEach(ghost items: Slice<T>, arrivals: seq<seq<T>>)
      requires Valid() && items in handed && Last(items)
      modifies this, queue.arr
      ensures Valid() && handed == old(handed) && Last(items)
      ensures Contents() == old(Contents()) + Concat(arrivals)
      ensures queue.arr == old(queue.arr) || fresh(queue.arr)
      ensures forall h <- handed :: View(h) == old(View(h))
    {
      for i := 0 to |arrivals|
        invariant Valid() && handed == old(handed)
        invariant queue.arr == old(queue.arr) || fresh(queue.arr)
        invariant Contents() == old(Contents()) + Concat(arrivals[..i])
        invariant forall h <- handed :: View(h) == old(View(h))
      {
        assert arrivals[..i + 1][..i] == arrivals[..i];
        Enqueue(arrivals[i]);
      }
      assert arrivals[..|arrivals|] == arrivals;
    }
  }

  lemma Rejoined<T>(all: seq<T>, front: seq<T>, back: seq<T>, more: seq<T>)
    requires front + back == all
    ensures front + (back + more) == all + more
  {
  }

  function Concat<T>(parts: seq<seq<T>>): seq<T> {
    if parts == [] then [] else Concat(parts[..|parts| - 1]) + parts[|parts| - 1]
  }
}
