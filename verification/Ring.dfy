/** Index arithmetic of a ring buffer and the list of values it stands for. */
module Ring {

  lemma ScaledGap(d: int, cap: nat)
    ensures d >= 1 ==> d * cap >= cap
    ensures d <= -1 ==> d * cap + cap <= 0
  {
  }

  lemma ModUnique(x: nat, q: nat, r: nat, cap: nat)
    requires r < cap && x == q * cap + r
    ensures x % cap == r
  {
    var q' := x / cap;
    assert x == q' * cap + x % cap;
    assert (q' - q) * cap == q' * cap - q * cap;
    ScaledGap(q' - q, cap);
  }

  lemma ModMultiple(x: nat, k: nat, cap: nat)
    requires cap > 0
    ensures (x + k * cap) % cap == x % cap
  {
    var q := x / cap;
    assert x == q * cap + x % cap;
    assert (q + k) * cap == q * cap + k * cap;
    ModUnique(x + k * cap, q + k, x % cap, cap);
  }

  /** Reducing an index early makes no difference. */
  lemma ModAdd(a: nat, i: nat, cap: nat)
    requires cap > 0
    ensures (a % cap + i) % cap == (a + i) % cap
  {
    ModMultiple(a % cap + i, a / cap, cap);
    assert a % cap + i + (a / cap) * cap == a + i;
  }

  /** Fewer than `cap` places apart means different slots. */
  lemma ModDistinct(a: nat, b: nat, cap: nat)
    requires cap > 0 && a < b < a + cap
    ensures a % cap != b % cap
  {
    var r := a % cap;
    ModAdd(a, b - a, cap);
    assert (r + (b - a)) % cap == b % cap;
    if r + (b - a) >= cap {
      ModUnique(r + (b - a), 1, r + (b - a) - cap, cap);
    } else {
      ModUnique(r + (b - a), 0, r + (b - a), cap);
    }
  }

  /** The slot `i` places after `from`. */
  function Slot(from: nat, i: nat, cap: nat): (s: nat)
    requires cap > 0
    ensures s < cap
  {
    (from + i) % cap
  }

  lemma SlotNext(from: nat, i: nat, cap: nat)
    requires cap > 0
    ensures (Slot(from, i, cap) + 1) % cap == Slot(from, i + 1, cap)
    ensures Slot((from + 1) % cap, i, cap) == Slot(from, i + 1, cap)
  {
    ModAdd(from + i, 1, cap);
    ModAdd(from + 1, i, cap);
  }

  lemma SlotsDiffer(from: nat, i: nat, j: nat, cap: nat)
    requires cap > 0 && i < j < i + cap
    ensures Slot(from, i, cap) != Slot(from, j, cap)
  {
    ModDistinct(from + i, from + j, cap);
  }

  /** The live slots from number `lo` on hold `c[lo..]`. */
  predicate Holds(buf: seq<nat>, tail: nat, c: seq<nat>, lo: nat) {
    |buf| > 0 && forall i :: lo <= i < |c| ==> buf[Slot(tail, i, |buf|)] == c[i]
  }

  /** Writing the slot just past the live ones appends; it spoils only what lies
      `cap` places back. */
  lemma HoldsAfterWrite(buf: seq<nat>, tail: nat, c: seq<nat>, lo: nat, m: nat)
    requires Holds(buf, tail, c, lo) && |c| < lo + |buf|
    ensures Holds(buf[Slot(tail, |c|, |buf|) := m], tail, c + [m], lo)
  {
    var cap := |buf|;
    forall i | lo <= i < |c|
      ensures Slot(tail, i, cap) != Slot(tail, |c|, cap)
    {
      SlotsDiffer(tail, i, |c|, cap);
    }
  }

  /** Moving the tail over one slot pops the front. */
  lemma HoldsAfterPop(buf: seq<nat>, tail: nat, c: seq<nat>)
    requires Holds(buf, tail, c, 1) && c != []
    ensures Holds(buf, (tail + 1) % |buf|, c[1..], 0)
  {
    forall i | 0 <= i < |c[1..]|
      ensures buf[Slot((tail + 1) % |buf|, i, |buf|)] == c[1..][i]
    {
      SlotNext(tail, i, |buf|);
    }
  }
}
