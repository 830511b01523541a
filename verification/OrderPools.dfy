/** The fixed-capacity order pool: a free list used as a stack and a 16-bit generation per slot. */
module OrderPools {
  import opened OrderIds
  import opened Orders

  /** What `Acquire` leaves in a slot. */
  const BLANK := Order(OrderId(0, 0, 0, 0), 0, Buy, 0, 0, 0, 0, New, false, false, 0, [0, 0, 0, 0], false)

  class OrderPool {
    const capacity: nat
    const orders: array<Order>
    const generation: array<nat>
    const taken: array<bool>
    var freeList: seq<nat>
    var inUse: nat
    ghost var recycles: seq<nat>   // how often each slot was released

    ghost predicate Valid()
      reads this, generation, taken
    {
      && orders.Length == generation.Length == taken.Length == |recycles| == capacity
      && 0 < capacity <= MAX_SLOTS
      && generation != (orders as object) && taken != (orders as object) && taken != (generation as object)
      && inUse + |freeList| == capacity
      && (forall k :: 0 <= k < capacity ==> generation[k] == recycles[k] % GENERATIONS)
      && (forall j :: 0 <= j < |freeList| ==> freeList[j] < capacity && !taken[freeList[j]])
      && (forall j, l :: 0 <= j < l < |freeList| ==> freeList[j] != freeList[l])
      && (forall k :: 0 <= k < capacity && !taken[k] ==> k in freeList)
    }

    constructor (capacity: nat)
      requires 0 < capacity <= MAX_SLOTS
      ensures Valid() && fresh(orders) && fresh(generation) && fresh(taken)
      ensures this.capacity == capacity && inUse == 0
      ensures freeList == seq(capacity, i => capacity - 1 - i)
      ensures recycles == seq(capacity, _ => 0)
      ensures forall k :: 0 <= k < capacity ==> !taken[k]
    {
      this.capacity := capacity;
      orders := new Order[capacity](_ => BLANK);
      generation := new nat[capacity](_ => 0);
      taken := new bool[capacity](_ => false);
      inUse := 0;
      recycles := seq(capacity, _ => 0);
      // Descending, so that the first acquire hands out slot 0.
      freeList := seq(capacity, i => capacity - 1 - i);
      new;
      forall k | 0 <= k < capacity ensures k in freeList {
        assert freeList[capacity - 1 - k] == k;
      }
    }

    /** Take the slot on top of the free list and blank it; the caller has checked it is not empty. */
    method Acquire() returns (slot: nat)
      requires Valid() && |freeList| > 0
      modifies this`freeList, this`inUse, orders, taken
      ensures Valid()
      ensures slot == old(freeList[|freeList| - 1]) && freeList == old(freeList[..|freeList| - 1])
      ensures inUse == old(inUse) + 1
      ensures orders[slot] == BLANK && taken[slot]
      ensures forall k :: 0 <= k < capacity && k != slot ==> orders[k] == old(orders[k])
      ensures forall k :: 0 <= k < capacity && k != slot ==> taken[k] == old(taken[k])
    {
      slot := freeList[|freeList| - 1];
      freeList := freeList[..|freeList| - 1];
      taken[slot] := true;
      inUse := inUse + 1;
      orders[slot] := BLANK;
      forall k | 0 <= k < capacity && !taken[k] ensures k in freeList {
        var j :| 0 <= j < old(|freeList|) && old(freeList)[j] == k;
        assert freeList[j] == k;
      }
    }

    /** Return a slot; bumping its generation makes every id minted for it stale. */
    method Release(slot: nat)
      requires Valid() && slot < capacity && taken[slot]
      modifies this`freeList, this`inUse, this`recycles, generation, taken
      ensures Valid()
      ensures freeList == old(freeList) + [slot] && inUse == old(inUse) - 1
      ensures recycles == old(recycles)[slot := old(recycles)[slot] + 1]
      ensures !taken[slot]
      ensures forall k :: 0 <= k < capacity && k != slot ==> taken[k] == old(taken[k])
    {
      InUsePositive(slot);
      taken[slot] := false;
      generation[slot] := (generation[slot] + 1) % GENERATIONS;
      inUse := inUse - 1;
      freeList := freeList + [slot];
      recycles := recycles[slot := recycles[slot] + 1];
      forall k | 0 <= k < capacity && !taken[k] ensures k in freeList {
        assert freeList[|old(freeList)|] == slot;
        assert k in old(freeList) ==> k in freeList;
      }
    }

    /** Fewer distinct free orders than orders while one is taken. */
    lemma InUsePositive(slot: nat)
      requires Valid() && slot < capacity && taken[slot]
      ensures inUse > 0
    {
      DistinctBelow(freeList, capacity, slot);
    }

    predicate IsCurrent(id: OrderId)
      requires Valid()
      reads this, generation, taken
    {
      id.slot < capacity && taken[id.slot] && generation[id.slot] == id.generation
    }
  }

  function Below(n: nat): (r: set<nat>)
    ensures |r| == n && forall x: nat :: x in r <==> x < n
  {
    if n == 0 then {} else Below(n - 1) + {n - 1}
  }

  /** Distinct numbers below n that all avoid `gap < n` are fewer than n. */
  lemma DistinctBelow(s: seq<nat>, n: nat, gap: nat)
    requires gap < n && forall j :: 0 <= j < |s| ==> s[j] < n && s[j] != gap
    requires forall j, l :: 0 <= j < l < |s| ==> s[j] != s[l]
    ensures |s| < n
  {
    Fits(s, Below(n) - {gap});
  }

  lemma {:induction false} Fits(s: seq<nat>, within: set<nat>)
    requires forall j :: 0 <= j < |s| ==> s[j] in within
    requires forall j, l :: 0 <= j < l < |s| ==> s[j] != s[l]
    ensures |s| <= |within|
  {
    if |s| > 0 {
      Fits(s[..|s| - 1], within - {s[|s| - 1]});
    }
  }
}
