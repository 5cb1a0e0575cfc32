/** The fixed pool of `common/src/mem_pool.rs`: a storage array and a stack of free slots. */
module MemPool {
  import opened Types

  ghost predicate Distinct<T>(s: seq<T>) {
    forall i, j | 0 <= i < j < |s| :: s[i] != s[j]
  }

  ghost function Elements<T>(s: seq<T>): set<T> {
    set x | x in s
  }

  ghost function UpTo(n: nat): (s: set<nat>)
    ensures forall i: nat :: i in s <==> i < n
    ensures |s| == n
  {
    if n == 0 then {} else UpTo(n - 1) + {n - 1}
  }

  lemma {:induction false} DistinctSize<T>(s: seq<T>)
    requires Distinct(s)
    ensures |Elements(s)| == |s|
  {
    if s == [] {
    } else {
      var t := s[..|s| - 1];
      DistinctSize(t);
      assert s == t + [s[|s| - 1]];
      assert Elements(s) == Elements(t) + {s[|s| - 1]};
    }
  }

  /** A stack of distinct slots below n that misses one of them is not full. */
  lemma StackHasRoom(s: seq<nat>, n: nat, slot: nat)
    requires Distinct(s) && (forall i | 0 <= i < |s| :: s[i] < n)
    requires slot < n && slot !in s
    ensures |s| < n
  {
    DistinctSize(s);
    assert Elements(s) + {slot} <= UpTo(n);
    SubsetSize(Elements(s) + {slot}, UpTo(n));
  }

  lemma {:induction false} SubsetSize<T>(a: set<T>, b: set<T>)
    requires a <= b
    ensures |a| <= |b|
    decreases |a|
  {
    if a == {} {
    } else {
      var x :| x in a;
      SubsetSize(a - {x}, b - {x});
    }
  }

  class MemPool<T> {
    const n: nat
    const storage: array<Option<T>>
    const freeList: array<nat>
    var freeCount: nat

    ghost function Repr(): set<object> {
      {this, storage, freeList}
    }

    /** The free stack, bottom first. */
    ghost function Stack(): seq<nat>
      reads this, freeList
      requires freeCount <= freeList.Length
    {
      freeList[..freeCount]
    }

    ghost predicate Valid()
      reads this, freeList
    {
      && n > 0 && storage.Length == n && freeList.Length == n && freeCount <= n
      && Distinct(Stack()) && forall i | 0 <= i < freeCount :: Stack()[i] < n
    }

    constructor (n: nat)
      requires n > 0
      ensures Valid() && this.n == n && fresh(Repr())
      ensures freeCount == n && forall i: nat | i < n :: i in Stack()
      ensures forall i | 0 <= i < n :: storage[i] == None
    {
      this.n := n;
      storage := new Option<T>[n](_ => None);
      freeList := new nat[n];
      freeCount := n;
      new;
      var i := 0;
      while i < n
        invariant 0 <= i <= n && freeCount == n
        invariant forall j | 0 <= j < i :: freeList[j] == j
        invariant forall j | 0 <= j < n :: storage[j] == None
      {
        freeList[i] := i;
        i := i + 1;
      }
      ghost var stack := Stack();
      assert forall j | 0 <= j < n :: stack[j] == j;
      assert forall j | 0 <= j < n :: j in stack by {
        forall j | 0 <= j < n ensures j in stack { assert stack[j] == j; }
      }
    }

    /** Takes a free slot, which then is not free any more; fails only when none is. */
    method Allocate() returns (slot: Option<nat>)
      requires Valid()
      modifies this
      ensures Valid()
      ensures slot.None? <==> old(freeCount) == 0
      ensures slot.None? ==> freeCount == old(freeCount)
      ensures slot.Some? ==>
        && slot.value < n && slot.value !in Stack()
        && freeCount == old(freeCount) - 1 && old(Stack()) == Stack() + [slot.value]
    {
      if freeCount == 0 {
        return None;
      }
      ghost var before := Stack();
      freeCount := freeCount - 1;
      assert before == Stack() + [freeList[freeCount]] && before[freeCount] == freeList[freeCount];
      return Some(freeList[freeCount]);
    }

    /** Gives back a slot that is in use. */
    method DeallocateByIndex(slot: nat)
      requires Valid() && slot < n && slot !in Stack()
      modifies this, freeList
      ensures Valid()
      ensures freeCount == old(freeCount) + 1 && Stack() == old(Stack()) + [slot]
    {
      StackHasRoom(Stack(), n, slot);
      freeList[freeCount] := slot;
      freeCount := freeCount + 1;
      assert Stack() == old(Stack()) + [slot];
    }

    /** Writes a slot, in use or not; only that slot changes. */
    method Write(slot: nat, value: T)
      requires Valid() && slot < n
      modifies storage
      ensures Valid()
      ensures storage[..] == old(storage[..])[slot := Some(value)]
    {
      storage[slot] := Some(value);
    }
  }
}
