/**
 * The "Steps to Apply" tracker (`StepTrackerInner` in `Farmer.jsx`): one
 * checkbox per step item, stored per scheme id and group index, and the
 * percentage of items checked.
 */
module StepTracker {
  import opened Farmer

  /** The stored ticks: scheme id, then group index, then one flag per item. */
  type Ticks = map<string, map<nat, seq<bool>>>

  function Falses(n: nat): (r: seq<bool>)
    ensures |r| == n && forall j :: 0 <= j < n ==> !r[j]
  {
    seq(n, _ => false)
  }

  /** `checked`: the item's stored flag, false when nothing is stored. */
  predicate Checked(t: Ticks, id: string, g: nat, i: nat) {
    id in t && g in t[id] && i < |t[id][g]| && t[id][g][i]
  }

  /** `group[iIdx] = !group[iIdx]`; an index past the end grows the array,
      the gap reading as unchecked. */
  function Flip(group: seq<bool>, i: nat): (r: seq<bool>)
    ensures |r| == if i < |group| then |group| else i + 1
    ensures r[i] == !(i < |group| && group[i])
    ensures forall j :: 0 <= j < |r| && j != i ==> r[j] == (j < |group| && group[j])
  {
    if i < |group| then group[i := !group[i]] else group + Falses(i - |group|) + [true]
  }

  /** The number of items in group `g` of the scheme, 0 when there is none. */
  function ItemCount(s: Scheme, g: nat): nat {
    if g < |s.steps| then |s.steps[g].items| else 0
  }

  /** The ticks stored for a scheme, none when it has no entry. */
  function SchemeTicks(t: Ticks, id: string): map<nat, seq<bool>> {
    if id in t then t[id] else map[]
  }

  /** `toggleItem`: copies the group (or starts an all-false one) and flips
      exactly one checkbox. */
  function ToggleItem(t: Ticks, s: Scheme, g: nat, i: nat): (r: Ticks)
    ensures Checked(r, s.id, g, i) == !Checked(t, s.id, g, i)
    ensures forall id, h, j :: (id != s.id || h != g || j != i) ==>
              Checked(r, id, h, j) == Checked(t, id, h, j)
    ensures forall id :: id != s.id ==> SchemeTicks(r, id) == SchemeTicks(t, id)
    ensures forall h :: h != g && h in SchemeTicks(t, s.id) ==>
              h in SchemeTicks(r, s.id) && SchemeTicks(r, s.id)[h] == SchemeTicks(t, s.id)[h]
    ensures forall h :: h in SchemeTicks(r, s.id) <==> h == g || h in SchemeTicks(t, s.id)
  {
    var ticks := SchemeTicks(t, s.id);
    var group := GroupTicks(ticks, s, g);
    t[s.id := ticks[g := Flip(group, i)]]
  }

  /** Toggling the same checkbox twice restores every checkbox. */
  lemma ToggleTwice(t: Ticks, s: Scheme, g: nat, i: nat, id: string, h: nat, j: nat)
    ensures Checked(ToggleItem(ToggleItem(t, s, g, i), s, g, i), id, h, j) == Checked(t, id, h, j)
  {
  }

  function CountTrue(flags: seq<bool>): (n: nat)
    ensures n <= |flags|
  {
    if flags == [] then 0 else (if flags[0] then 1 else 0) + CountTrue(flags[1..])
  }

  lemma {:induction false} CountFalses(n: nat)
    ensures CountTrue(Falses(n)) == 0
  {
    if n > 0 {
      assert Falses(n)[1..] == Falses(n - 1);
      CountFalses(n - 1);
    }
  }

  /** Flipping one flag changes the count by exactly one. */
  lemma {:induction false} CountFlip(flags: seq<bool>, i: nat)
    requires i < |flags|
    ensures CountTrue(flags[i := !flags[i]]) == if flags[i] then CountTrue(flags) - 1 else CountTrue(flags) + 1
  {
    if i == 0 {
      assert flags[i := !flags[i]][1..] == flags[1..];
    } else {
      assert flags[i := !flags[i]][1..] == flags[1..][i - 1 := !flags[i]];
      CountFlip(flags[1..], i - 1);
    }
  }

  /** The flags counted for group `g`: `schemeProgress[gi] || Array(n).fill(false)`. */
  function GroupTicks(ticks: map<nat, seq<bool>>, s: Scheme, g: nat): seq<bool> {
    if g in ticks then ticks[g] else Falses(ItemCount(s, g))
  }

  /** Checked items in the first `n` groups. */
  function DoneIn(ticks: map<nat, seq<bool>>, s: Scheme, n: nat): nat
    requires n <= |s.steps|
  {
    if n == 0 then 0 else DoneIn(ticks, s, n - 1) + CountTrue(GroupTicks(ticks, s, n - 1))
  }

  /** Items in the first `n` groups. */
  function ItemsIn(s: Scheme, n: nat): nat
    requires n <= |s.steps|
  {
    if n == 0 then 0 else ItemsIn(s, n - 1) + |s.steps[n - 1].items|
  }

  /** Integer division leaves a remainder below the divisor. */
  lemma DivisionBounds(a: nat, m: nat)
    requires m > 0
    ensures m * (a / m) <= a < m * (a / m) + m
  {
  }

  /** Multiplying by a natural number keeps the order. */
  lemma MulMono(m: nat, x: nat, y: nat)
    ensures x <= y ==> m * x <= m * y
    ensures x < y ==> m * x + m <= m * y
  {
    if x <= y {
      var d := y - x;
      assert m * y == m * x + m * d;
    }
  }

  /** A quotient and remainder that rebuild `a` are the ones division gives. */
  lemma DivisionUnique(a: nat, m: nat, q: nat, rem: nat)
    requires rem < m && a == m * q + rem
    ensures a / m == q
  {
    DivisionBounds(a, m);
    MulMono(m, a / m, q);
    MulMono(m, q, a / m);
  }

  lemma QuotientBelow(a: nat, m: nat, k: nat)
    requires m > 0 && a < m * k
    ensures a / m < k
  {
    DivisionBounds(a, m);
    MulMono(m, k, a / m);
  }

  /** `Math.round(done / total * 100)`, 0 when there are no items, on exact
      rationals: the nearest whole percentage, halves rounded up. */
  function Percent(done: nat, total: nat): (r: nat)
    ensures total == 0 ==> r == 0
    ensures total > 0 ==> 2 * total * r <= 200 * done + total < 2 * total * r + 2 * total
    ensures done <= total ==> r <= 100
    ensures total > 0 && done == total ==> r == 100
    ensures done == 0 ==> r == 0
  {
    if total == 0 then 0
    else
      var a, m := 200 * done + total, 2 * total;
      DivisionBounds(a, m);
      if done <= total then
        QuotientBelow(a, m, 101);
        if done == total then
          DivisionUnique(a, m, 100, total);
          a / m
        else if done == 0 then
          DivisionUnique(a, m, 0, total);
          a / m
        else a / m
      else a / m
  }

  /** The percentage shown for a scheme. */
  function Progress(t: Ticks, s: Scheme): (r: nat)
    ensures WellFormed(t, s) ==> r <= 100
    ensures SchemeTicks(t, s.id) == map[] ==> r == 0
  {
    DoneBounds(t, s);
    Percent(DoneIn(SchemeTicks(t, s.id), s, |s.steps|), ItemsIn(s, |s.steps|))
  }

  /** What `toggleItem` keeps true when called from the rendered checkboxes:
      every stored group belongs to the scheme and has one flag per item. */
  predicate WellFormed(t: Ticks, s: Scheme) {
    forall g :: g in SchemeTicks(t, s.id) ==>
      g < |s.steps| && |SchemeTicks(t, s.id)[g]| == |s.steps[g].items|
  }

  lemma {:induction false} DoneAtMostItems(ticks: map<nat, seq<bool>>, s: Scheme, n: nat)
    requires n <= |s.steps|
    requires forall g :: g in ticks ==> g < |s.steps| && |ticks[g]| == |s.steps[g].items|
    ensures DoneIn(ticks, s, n) <= ItemsIn(s, n)
  {
    if n > 0 {
      DoneAtMostItems(ticks, s, n - 1);
    }
  }

  /** On well-formed ticks the percentage never exceeds 100. */
  lemma ProgressAtMost100(t: Ticks, s: Scheme)
    requires WellFormed(t, s)
    ensures Progress(t, s) <= 100
  {
    DoneAtMostItems(SchemeTicks(t, s.id), s, |s.steps|);
  }

  lemma {:induction false} NothingStoredNothingDone(s: Scheme, n: nat)
    requires n <= |s.steps|
    ensures DoneIn(map[], s, n) == 0
  {
    if n > 0 {
      NothingStoredNothingDone(s, n - 1);
      CountFalses(ItemCount(s, n - 1));
    }
  }

  /** The done count is at most the item count on well-formed ticks, and 0
      when nothing is stored. */
  lemma DoneBounds(t: Ticks, s: Scheme)
    ensures WellFormed(t, s) ==> DoneIn(SchemeTicks(t, s.id), s, |s.steps|) <= ItemsIn(s, |s.steps|)
    ensures SchemeTicks(t, s.id) == map[] ==> DoneIn(SchemeTicks(t, s.id), s, |s.steps|) == 0
  {
    if WellFormed(t, s) {
      DoneAtMostItems(SchemeTicks(t, s.id), s, |s.steps|);
    }
    if SchemeTicks(t, s.id) == map[] {
      NothingStoredNothingDone(s, |s.steps|);
    }
  }

  /** A scheme nobody has ticked shows 0%, whether it has no entry or the
      empty entry "Open Steps" creates. */
  lemma UntouchedIsZero(t: Ticks, s: Scheme)
    requires SchemeTicks(t, s.id) == map[]
    ensures Progress(t, s) == 0
  {
    NothingStoredNothingDone(s, |s.steps|);
  }

  /** A change confined to group `g` shifts the totals of the groups after it. */
  lemma {:induction false} DoneInShift(a: map<nat, seq<bool>>, b: map<nat, seq<bool>>, s: Scheme,
                                       g: nat, delta: int, n: nat)
    requires n <= |s.steps|
    requires forall h :: h != g ==> GroupTicks(b, s, h) == GroupTicks(a, s, h)
    requires CountTrue(GroupTicks(b, s, g)) == CountTrue(GroupTicks(a, s, g)) + delta
    ensures DoneIn(b, s, n) == DoneIn(a, s, n) + (if g < n then delta else 0)
  {
    if n > 0 {
      DoneInShift(a, b, s, g, delta, n - 1);
    }
  }

  /** Ticking a rendered checkbox keeps the ticks well formed and moves the
      done count by one: up when it was unchecked, down when it was checked. */
  lemma ToggleCountsOne(t: Ticks, s: Scheme, g: nat, i: nat)
    requires WellFormed(t, s)
    requires g < |s.steps| && i < |s.steps[g].items|
    ensures WellFormed(ToggleItem(t, s, g, i), s)
    ensures DoneIn(SchemeTicks(ToggleItem(t, s, g, i), s.id), s, |s.steps|) ==
              DoneIn(SchemeTicks(t, s.id), s, |s.steps|) + (if Checked(t, s.id, g, i) then -1 else 1)
  {
    var a := SchemeTicks(t, s.id);
    var b := SchemeTicks(ToggleItem(t, s, g, i), s.id);
    var before := GroupTicks(a, s, g);
    assert GroupTicks(b, s, g) == before[i := !before[i]];
    CountFlip(before, i);
    DoneInShift(a, b, s, g, if Checked(t, s.id, g, i) then -1 else 1, |s.steps|);
  }

  /** Toggling one scheme's checkbox leaves every other scheme's
      percentage unchanged. */
  lemma OtherSchemesUnaffected(t: Ticks, s: Scheme, g: nat, i: nat, other: Scheme)
    requires other.id != s.id
    ensures Progress(ToggleItem(t, s, g, i), other) == Progress(t, other)
  {
  }
}
