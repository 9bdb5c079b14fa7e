/**
 * The binary min-heap of backend/app/utils/custom_algorithms.py (class
 * CustomMinHeap): a list of (priority, data) pairs kept so that every
 * element's priority is at least its parent's.
 */
module MinHeap {
  import opened Wrappers

  /** One heap entry: the source's (priority, data) tuple. */
  datatype Item<T> = Item(priority: real, data: T)

  /** The IndexError the source raises on an empty heap. */
  datatype HeapError = IndexError(message: string)

  const EmptyHeapMessage := "Heap is empty"

  // ---------------------------------------------------------------- index arithmetic

  /** parent(i) = (i - 1) // 2; Python floors, and so does Dafny for a positive divisor. */
  function Parent(i: int): (p: int)
    ensures i > 0 ==> 0 <= p < i
    ensures i == 0 ==> p == -1
  {
    (i - 1) / 2
  }

  function LeftChild(i: int): int { 2 * i + 1 }

  function RightChild(i: int): int { 2 * i + 2 }

  /** Parent inverts both child functions, and the two children are the only nodes with that parent. */
  lemma ChildrenOfParent(i: int, k: int)
    requires i >= 0 && k > 0
    ensures Parent(LeftChild(i)) == i && Parent(RightChild(i)) == i
    ensures Parent(k) == i <==> k == LeftChild(i) || k == RightChild(i)
  {}

  // ---------------------------------------------------------------- heap shapes

  /** The min-heap property: no element has a smaller priority than its parent. */
  ghost predicate IsMinHeap<T>(h: seq<Item<T>>) {
    forall k | 0 < k < |h| :: h[Parent(k)].priority <= h[k].priority
  }

  /**
   * The state inside bubble_up: the heap property holds except possibly
   * between i and its parent, and i's parent is no larger than i's children.
   */
  ghost predicate HeapExceptUp<T>(h: seq<Item<T>>, i: nat) {
    && i < |h|
    && (forall k | 0 < k < |h| && k != i :: h[Parent(k)].priority <= h[k].priority)
    && (forall k | 0 < k < |h| && i > 0 && Parent(k) == i :: h[Parent(i)].priority <= h[k].priority)
  }

  /**
   * The state inside bubble_down: the heap property holds except possibly
   * between i and its children, and i's parent is no larger than i's children.
   */
  ghost predicate HeapExceptDown<T>(h: seq<Item<T>>, i: nat) {
    && i < |h|
    && (forall k | 0 < k < |h| && Parent(k) != i :: h[Parent(k)].priority <= h[k].priority)
    && (forall k | 0 < k < |h| && i > 0 && Parent(k) == i :: h[Parent(i)].priority <= h[k].priority)
  }

  function Swapped<T>(h: seq<Item<T>>, i: nat, j: nat): (r: seq<Item<T>>)
    requires i < |h| && j < |h|
    ensures |r| == |h| && r[i] == h[j] && r[j] == h[i]
    ensures forall k | 0 <= k < |h| && k != i && k != j :: r[k] == h[k]
    ensures multiset(r) == multiset(h)
  {
    h[i := h[j]][j := h[i]]
  }

  /** One step of bubble_up: swapping a too-small element with its parent moves the defect up. */
  lemma BubbleUpStep<T>(h: seq<Item<T>>, i: nat)
    requires HeapExceptUp(h, i) && i > 0
    requires h[i].priority < h[Parent(i)].priority
    ensures HeapExceptUp(Swapped(h, i, Parent(i)), Parent(i))
  {
    var p := Parent(i);
    var s := Swapped(h, i, p);
    forall k | 0 < k < |s| && k != p
      ensures s[Parent(k)].priority <= s[k].priority
    {
      if k != i && Parent(k) == i {
        assert s[Parent(k)] == h[p];
      } else if k != i && Parent(k) == p {
        assert s[Parent(k)] == h[i];
      }
    }
    forall k | 0 < k < |s| && p > 0 && Parent(k) == p
      ensures s[Parent(p)].priority <= s[k].priority
    {
      assert s[Parent(p)] == h[Parent(p)];
      if k != i {
        assert h[Parent(p)].priority <= h[p].priority <= h[k].priority;
      }
    }
  }

  /** One step of bubble_down: swapping with the smaller, too-small child moves the defect down. */
  lemma BubbleDownStep<T>(h: seq<Item<T>>, i: nat, c: nat)
    requires HeapExceptDown(h, i)
    requires c < |h| && Parent(c) == i && c > 0
    requires h[c].priority < h[i].priority
    requires forall k | 0 < k < |h| && Parent(k) == i :: h[c].priority <= h[k].priority
    ensures HeapExceptDown(Swapped(h, i, c), c)
  {
    var s := Swapped(h, i, c);
    forall k | 0 < k < |s| && Parent(k) != c
      ensures s[Parent(k)].priority <= s[k].priority
    {
      if k == i {
        assert s[Parent(k)] == h[Parent(i)];
      } else if Parent(k) == i {
        assert s[Parent(k)] == h[c];
      }
    }
  }

  /** When no child is smaller, bubble_down's defect is gone. */
  lemma BubbleDownDone<T>(h: seq<Item<T>>, i: nat)
    requires HeapExceptDown(h, i)
    requires forall k | 0 < k < |h| && Parent(k) == i :: h[i].priority <= h[k].priority
    ensures IsMinHeap(h)
  {}

  /** In a min-heap the root has the smallest priority. */
  lemma {:induction false} RootIsMin<T>(h: seq<Item<T>>, k: nat)
    requires IsMinHeap(h) && k < |h|
    ensures h[0].priority <= h[k].priority
    decreases k
  {
    if k > 0 {
      RootIsMin(h, Parent(k));
    }
  }

  /** Removing the root and moving the last element to the front leaves a defect only at the root. */
  lemma MoveLastToRoot<T>(h: seq<Item<T>>)
    requires IsMinHeap(h) && |h| >= 2
    ensures HeapExceptDown(h[..|h| - 1][0 := h[|h| - 1]], 0)
    ensures multiset(h[..|h| - 1][0 := h[|h| - 1]]) == multiset(h) - multiset{h[0]}
  {
    var n := |h|;
    var t := h[..n - 1];
    assert h == [h[0]] + h[1..n - 1] + [h[n - 1]];
    assert t == [h[0]] + h[1..n - 1];
    assert t[0 := h[n - 1]] == [h[n - 1]] + h[1..n - 1];
  }

  // ---------------------------------------------------------------- the heap object

  class CustomMinHeap<T> {
    var heap: seq<Item<T>>

    ghost predicate Valid()
      reads this
    {
      IsMinHeap(heap)
    }

    constructor ()
      ensures heap == [] && Valid()
    {
      heap := [];
    }

    function Size(): (n: nat)
      reads this
      ensures n == |multiset(heap)|
    {
      |heap|
    }

    function IsEmpty(): (b: bool)
      reads this
      ensures b <==> multiset(heap) == multiset{}
    {
      |heap| == 0
    }

    method Swap(i: nat, j: nat)
      requires i < |heap| && j < |heap|
      modifies this
      ensures heap == Swapped(old(heap), i, j)
    {
      var hi, hj := heap[i], heap[j];
      heap := heap[i := hj][j := hi];
    }

    method BubbleUp(i0: nat)
      requires HeapExceptUp(heap, i0)
      modifies this
      ensures IsMinHeap(heap)
      ensures multiset(heap) == multiset(old(heap)) && |heap| == |old(heap)|
    {
      var i: nat := i0;
      while i > 0
        invariant HeapExceptUp(heap, i)
        invariant multiset(heap) == multiset(old(heap)) && |heap| == |old(heap)|
        decreases i
      {
        var parentIdx := Parent(i);
        if heap[i].priority < heap[parentIdx].priority {
          BubbleUpStep(heap, i);
          Swap(i, parentIdx);
          i := parentIdx;
        } else {
          break;
        }
      }
    }

    method BubbleDown(i0: nat)
      requires HeapExceptDown(heap, i0)
      modifies this
      ensures IsMinHeap(heap)
      ensures multiset(heap) == multiset(old(heap)) && |heap| == |old(heap)|
    {
      var n := |heap|;
      var i: nat := i0;
      while true
        invariant |heap| == n
        invariant HeapExceptDown(heap, i)
        invariant multiset(heap) == multiset(old(heap))
        decreases n - i
      {
        var smallest := i;
        var left, right := LeftChild(i), RightChild(i);
        ChildrenOfParent(i, left);
        if left < n && heap[left].priority < heap[smallest].priority {
          smallest := left;
        }
        if right < n && heap[right].priority < heap[smallest].priority {
          smallest := right;
        }
        forall k | 0 < k < n && Parent(k) == i
          ensures heap[smallest].priority <= heap[k].priority
        {
          ChildrenOfParent(i, k);
        }
        if smallest != i {
          BubbleDownStep(heap, i, smallest);
          Swap(i, smallest);
          i := smallest;
        } else {
          BubbleDownDone(heap, i);
          break;
        }
      }
    }

    /** insert: append, then bubble the new element up. */
    method Insert(priority: real, data: T)
      requires Valid()
      modifies this
      ensures Valid()
      ensures multiset(heap) == multiset(old(heap)) + multiset{Item(priority, data)}
      ensures |heap| == |old(heap)| + 1
    {
      heap := heap + [Item(priority, data)];
      BubbleUp(|heap| - 1);
    }

    /**
     * extract_min: the root, after moving the last element to the root and
     * bubbling it down; IndexError on an empty heap.
     */
    method ExtractMin() returns (r: Result<Item<T>, HeapError>)
      requires Valid()
      modifies this
      ensures Valid()
      ensures old(heap) == [] ==> r == Err(IndexError(EmptyHeapMessage)) && heap == old(heap)
      ensures old(heap) != [] ==> r == Ok(old(heap)[0])
      ensures old(heap) != [] ==> multiset(heap) == multiset(old(heap)) - multiset{old(heap)[0]}
      ensures old(heap) != [] ==> |heap| == |old(heap)| - 1
      ensures r.Ok? ==> forall x | x in old(heap) :: r.value.priority <= x.priority
    {
      if |heap| == 0 {
        return Err(IndexError(EmptyHeapMessage));
      }
      forall x | x in heap ensures heap[0].priority <= x.priority {
        var k :| 0 <= k < |heap| && heap[k] == x;
        RootIsMin(heap, k);
      }
      if |heap| == 1 {
        r := Ok(heap[0]);
        heap := [];
        return;
      }
      var minItem := heap[0];
      MoveLastToRoot(heap);
      heap := heap[..|heap| - 1][0 := heap[|heap| - 1]];
      BubbleDown(0);
      return Ok(minItem);
    }

    /** peek: the root without removing it; IndexError on an empty heap. */
    method Peek() returns (r: Result<Item<T>, HeapError>)
      requires Valid()
      ensures heap == [] ==> r == Err(IndexError(EmptyHeapMessage))
      ensures heap != [] ==> r == Ok(heap[0])
      ensures r.Ok? ==> forall x | x in heap :: r.value.priority <= x.priority
    {
      if |heap| == 0 {
        return Err(IndexError(EmptyHeapMessage));
      }
      forall x | x in heap ensures heap[0].priority <= x.priority {
        var k :| 0 <= k < |heap| && heap[k] == x;
        RootIsMin(heap, k);
      }
      return Ok(heap[0]);
    }
  }
}
