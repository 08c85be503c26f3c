/**
 * Drag-reorder inside the canvas editor. While an item is dragged over a section, the
 * section's other items are scanned for the one the dragged item should be inserted
 * before: among the items whose vertical middle lies below the pointer, the nearest
 * one, the first of them on a tie. With no such item the dragged one goes to the end.
 * Positions are the items' midpoints, given as integers.
 */
module DragReorder {
  import opened Wrappers

  /**
   * `getDragAfterElement`'s reduce over the first `n` items: the offset of item `i` is
   * `y - mids[i]`, and an item replaces the best so far when its offset is negative and
   * strictly larger. None stands for the starting offset of minus infinity.
   */
  function Closest(y: int, mids: seq<int>, n: nat): (r: Option<nat>)
    requires n <= |mids|
    ensures r.None? <==> forall i :: 0 <= i < n ==> mids[i] <= y
    ensures r.Some? ==> r.value < n && mids[r.value] > y
    ensures r.Some? ==> forall i :: 0 <= i < n && mids[i] > y ==> mids[r.value] <= mids[i]
    ensures r.Some? ==> forall i :: 0 <= i < r.value && mids[i] > y ==> mids[i] > mids[r.value]
    decreases n
  {
    if n == 0 then None
    else
      var best := Closest(y, mids, n - 1);
      var offset := y - mids[n - 1];
      if offset < 0 && (best.None? || offset > y - mids[best.value]) then Some(n - 1) else best
  }

  /** The item to insert before, over all of the section's other items. */
  function DragAfter(y: int, mids: seq<int>): (r: Option<nat>)
    ensures r.Some? ==> r.value < |mids|
  {
    Closest(y, mids, |mids|)
  }

  /**
   * The choice is determined by what it promises: an item below the pointer, no nearer
   * one, and no equally near one before it.
   */
  lemma DragAfterUnique(y: int, mids: seq<int>, k: nat)
    requires k < |mids| && mids[k] > y
    requires forall i :: 0 <= i < |mids| && mids[i] > y ==> mids[k] <= mids[i]
    requires forall i :: 0 <= i < k && mids[i] > y ==> mids[i] > mids[k]
    ensures DragAfter(y, mids) == Some(k)
  {
  }

  /**
   * With the items laid out top to bottom (midpoints strictly increasing), the dragged
   * item goes before the first item whose middle is below the pointer, or to the end.
   */
  lemma DragAfterInLayout(y: int, mids: seq<int>, k: nat)
    requires forall i, j :: 0 <= i < j < |mids| ==> mids[i] < mids[j]
    requires k <= |mids|
    requires forall i :: 0 <= i < k ==> mids[i] <= y
    requires k < |mids| ==> mids[k] > y
    ensures k < |mids| ==> DragAfter(y, mids) == Some(k)
    ensures k == |mids| ==> DragAfter(y, mids) == None
  {
    if k < |mids| {
      assert forall i :: 0 <= i < |mids| && mids[i] > y ==> mids[k] <= mids[i];
      DragAfterUnique(y, mids, k);
    }
  }

  /**
   * The dragover move: `insertBefore(dragged, target)`, or `appendChild(dragged)` when
   * there is no target. `rest` is the section without the dragged item: the item sits at
   * its landing position and taking it out again gives `rest` back.
   */
  function InsertDragged<T>(rest: seq<T>, item: T, target: Option<nat>): (r: seq<T>)
    requires target.Some? ==> target.value < |rest|
    ensures |r| == |rest| + 1
    ensures multiset(r) == multiset(rest) + multiset{item}
    ensures target.None? ==> r[|rest|] == item && r[..|rest|] == rest
    ensures target.Some? ==> r[target.value] == item && r[target.value + 1] == rest[target.value]
    ensures target.Some? ==> r[..target.value] + r[target.value + 1..] == rest
    ensures LandsAt(r, Landing(target, |rest|), item, rest)
  {
    match target
    case None =>
      assert (rest + [item])[..|rest|] + (rest + [item])[|rest| + 1..] == rest;
      rest + [item]
    case Some(j) =>
      InsertedAt(rest, item, j);
      rest[..j] + [item] + rest[j..]
  }

  /** `item` sits at position `p` of `r`, and taking it out leaves `rest` in its order. */
  ghost predicate LandsAt<T>(r: seq<T>, p: nat, item: T, rest: seq<T>) {
    p < |r| && r[p] == item && r[..p] + r[p + 1..] == rest
  }

  /** Where the dragged item ends up: before the chosen item, or last among `n` others. */
  function Landing(target: Option<nat>, n: nat): nat {
    match target
    case Some(j) => j
    case None => n
  }

  lemma InsertedAt<T>(rest: seq<T>, item: T, j: nat)
    requires j < |rest|
    ensures var r := rest[..j] + [item] + rest[j..];
            && |r| == |rest| + 1 && multiset(r) == multiset(rest) + multiset{item}
            && r[j] == item && r[j + 1] == rest[j] && r[..j] + r[j + 1..] == rest
  {
    var r := rest[..j] + [item] + rest[j..];
    assert r[..j] == rest[..j];
    assert r[j + 1..] == rest[j..];
    assert rest == rest[..j] + rest[j..];
  }

  /** `items` without the element at `i`. */
  function Without<T>(items: seq<T>, i: nat): (r: seq<T>)
    requires i < |items|
    ensures |r| == |items| - 1
    ensures multiset(r) + multiset{items[i]} == multiset(items)
    ensures r[..i] == items[..i] && r[i..] == items[i + 1..]
  {
    assert items == items[..i] + [items[i]] + items[i + 1..];
    items[..i] + items[i + 1..]
  }

  /**
   * Dragging item `i` of a section over the same section: it is taken out and put back
   * where `getDragAfterElement` says; `mids` are the midpoints of the other items.
   */
  function MoveWithin<T>(items: seq<T>, i: nat, y: int, mids: seq<int>): (r: seq<T>)
    requires i < |items| && |mids| == |items| - 1
    ensures |r| == |items|
    ensures multiset(r) == multiset(items)
    ensures LandsAt(r, Landing(DragAfter(y, mids), |items| - 1), items[i], Without(items, i))
  {
    InsertDragged(Without(items, i), items[i], DragAfter(y, mids))
  }

  /**
   * Dragging item `i` of section `src` over another section `dst`: the `.dragging`
   * element is looked up in the whole document, so it leaves `src` and joins `dst`.
   */
  function MoveAcross<T>(src: seq<T>, i: nat, dst: seq<T>, y: int, mids: seq<int>): (r: (seq<T>, seq<T>))
    requires i < |src| && |mids| == |dst|
    ensures |r.0| == |src| - 1 && |r.1| == |dst| + 1
    ensures multiset(r.0) + multiset(r.1) == multiset(src) + multiset(dst)
    ensures r.0[..i] == src[..i] && r.0[i..] == src[i + 1..]
    ensures LandsAt(r.1, Landing(DragAfter(y, mids), |dst|), src[i], dst)
  {
    (Without(src, i), InsertDragged(dst, src[i], DragAfter(y, mids)))
  }

  /**
   * Four items laid out top to bottom; the first is dragged to below the third item's
   * middle but above the fourth's: it lands between the third and the fourth.
   */
  lemma DragFirstBelowThird<T>(a: T, b: T, c: T, d: T, y: int, mids: seq<int>)
    requires |mids| == 3 && mids[0] < mids[1] < mids[2]
    requires mids[1] <= y < mids[2]
    ensures MoveWithin([a, b, c, d], 0, y, mids) == [b, c, a, d]
  {
    DragAfterInLayout(y, mids, 2);
    assert Without([a, b, c, d], 0) == [b, c, d];
    InsertThird(a, b, c, d);
  }

  lemma InsertThird<T>(a: T, b: T, c: T, d: T)
    ensures InsertDragged([b, c, d], a, Some(2)) == [b, c, a, d]
  {
    var rest := [b, c, d];
    assert rest[..2] == [b, c] && rest[2..] == [d];
  }
}
