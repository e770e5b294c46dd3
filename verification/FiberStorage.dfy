/** Fiber-local storage: a bitmap of allocated slots and an array of values, seen as one partial map. */
module FiberStorage {
  import opened Common

  const MAX_FLS := 4096

  type Slots = map<nat, int>

  /** The least free slot from i on, MAX_FLS if there is none. */
  function FirstFree(m: Slots, i: nat): (r: nat)
    requires i <= MAX_FLS
    ensures i <= r <= MAX_FLS && (r < MAX_FLS ==> r !in m) && forall j :: i <= j < r ==> j in m
    decreases MAX_FLS - i
  {
    if i == MAX_FLS || i !in m then i else FirstFree(m, i + 1)
  }

  /** FLSALLOC: the slot handed out, -1 if none is free. */
  function Alloc(m: Slots): (Slots, int) {
    var i := FirstFree(m, 0);
    if i == MAX_FLS then (m, -1) else (m[i := 0], i)
  }

  /** FLSFREE: slot 0 is never freed. */
  function Free(m: Slots, index: int): (Slots, bool) {
    if 0 < index < MAX_FLS then (m - {index as nat}, true) else (m, false)
  }

  /** FLSGETVALUE, with the driver's error for a slot that is not allocated. */
  function Get(m: Slots, index: nat): Option<int> {
    if index in m then Some(m[index]) else None
  }

  /** FLSSETVALUE: nothing happens to a slot that is not allocated. */
  function Set(m: Slots, index: nat, value: int): Slots {
    if index in m then m[index := value] else m
  }

  /** Alloc gives the least free slot, with value 0, and leaves the others alone; it fails
      exactly when every slot is taken. */
  lemma AllocIsLeast(m: Slots)
    ensures var (m', i) := Alloc(m);
            && (i == -1 <==> forall j: nat :: j < MAX_FLS ==> j in m)
            && (i == -1 ==> m' == m)
            && (i != -1 ==> 0 <= i < MAX_FLS && i !in m && (forall j: nat :: j < i ==> j in m)
                            && Get(m', i) == Some(0) && forall j: nat :: j != i ==> Get(m', j) == Get(m, j))
  {
    var i := FirstFree(m, 0);
    if i < MAX_FLS {
      assert i !in m;
    }
  }

  /** A freed slot is free again: the next alloc gives it or a lower one. */
  lemma FreedIsReusable(m: Slots, index: nat)
    requires 0 < index < MAX_FLS
    ensures var m' := Free(m, index).0;
            Get(m', index) == None && 0 <= Alloc(m').1 <= index
            && forall j: nat :: j != index ==> Get(m', j) == Get(m, j)
  {
    var m' := Free(m, index).0;
    AllocIsLeast(m');
    assert index !in m';
  }

  /** What is set is read back, and nothing else changes: for an allocated slot; any other stays
      unallocated. */
  lemma SetThenGet(m: Slots, index: nat, value: int)
    ensures forall j: nat ::
              Get(Set(m, index, value), j) == if j == index && index in m then Some(value) else Get(m, j)
  {
  }

  /** The storage of one fiber. */
  class Storage {
    const bitmap: array<bool>
    const values: array<int>

    ghost predicate Valid() {
      bitmap.Length == MAX_FLS && values.Length == MAX_FLS
    }

    ghost function View(): (m: Slots)
      requires Valid()
      reads bitmap, values
      ensures forall i: nat :: i in m <==> i < MAX_FLS && bitmap[i]
      ensures forall i: nat :: i in m ==> m[i] == values[i]
    {
      map i: nat | i < MAX_FLS && bitmap[i] :: values[i]
    }

    constructor ()
      ensures Valid() && View() == map[] && fresh(bitmap) && fresh(values)
    {
      bitmap := new bool[MAX_FLS](_ => false);
      values := new int[MAX_FLS](_ => 0);
    }

    /** find_first_zero_bit. */
    method FindFirstZero() returns (index: nat)
      requires Valid()
      ensures index == FirstFree(View(), 0)
    {
      index := 0;
      while index < MAX_FLS && bitmap[index]
        invariant index <= MAX_FLS && FirstFree(View(), 0) == FirstFree(View(), index)
      {
        index := index + 1;
      }
    }

    /** change_bit on a clear bit, and value 0. */
    method Take(index: nat)
      requires Valid() && index < MAX_FLS && !bitmap[index]
      modifies bitmap, values
      ensures View() == old(View())[index := 0]
    {
      bitmap[index] := !bitmap[index];
      values[index] := 0;
    }

    method FlsAlloc() returns (index: int)
      requires Valid()
      modifies bitmap, values
      ensures (View(), index) == Alloc(old(View()))
    {
      var i := FindFirstZero();
      index := i;
      if i == MAX_FLS {
        index := -1;
      } else {
        Take(i);
      }
    }

    method FlsFree(index: int) returns (freed: bool)
      requires Valid()
      modifies bitmap
      ensures (View(), freed) == Free(old(View()), index)
    {
      freed := 0 < index < MAX_FLS;
      if freed {
        bitmap[index] := false;
        assert View() == old(View()) - {index as nat};
      }
    }

    /** The driver tests the bit of any index it is given; only slot numbers have one. */
    method FlsGetValue(index: nat) returns (r: Option<int>)
      requires Valid() && index < MAX_FLS
      ensures r == Get(View(), index)
    {
      r := if bitmap[index] then Some(values[index]) else None;
    }

    method FlsSetValue(index: nat, value: int)
      requires Valid() && index < MAX_FLS
      modifies values
      ensures View() == Set(old(View()), index, value)
    {
      if bitmap[index] {
        values[index] := value;
        assert View() == old(View())[index := value];
      }
    }
  }
}
