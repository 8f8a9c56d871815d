/**
 What the offset decision of a sticky header guarantees: where the pinned and
 the pushed header end up on screen, how the push grows as the incoming header
 rises, which registry entries can matter, and the worked scenarios.
 */
module OffsetProperties {
  import opened Geometry
  import opened StickyModifier

  /** The entries of `rects` that can push the header: its search window. */
  function Window<K(==)>(id: K, frame: Rect, rects: map<K, Rect>): (w: map<K, Rect>)
    ensures w.Keys <= rects.Keys
    ensures forall k :: k in w ==> w[k] == rects[k] && Incoming(id, frame, k, rects[k])
    ensures forall k :: k in rects && Incoming(id, frame, k, rects[k]) ==> k in w
  {
    map k | k in rects && Incoming(id, frame, k, rects[k]) :: rects[k]
  }

  /** The header's own entry, and an entry whose top edge sits exactly on
      either end of the window, never push. */
  lemma WindowIsStrict<K>(id: K, frame: Rect, key: K, value: Rect)
    requires key == id || value.minY == frame.height || value.minY == frame.minY
    ensures !Incoming(id, frame, key, value)
  {
  }

  /** Only the entries inside the window affect the offset: dropping all the
      others (the header's own entry among them) leaves the allowed offsets
      unchanged. */
  lemma OnlyWindowMatters<K>(id: K, frame: Rect, rects: map<K, Rect>, o: real)
    ensures Allowed(id, frame, Some(rects), o) <==> Allowed(id, frame, Some(Window(id, frame, rects)), o)
  {
  }

  /** The header's own report in the registry never influences its offset. */
  lemma OwnEntryIgnored<K>(id: K, frame: Rect, rects: map<K, Rect>, o: real)
    ensures Allowed(id, frame, Some(rects), o) <==> Allowed(id, frame, Some(rects - {id}), o)
  {
    OnlyWindowMatters(id, frame, rects, o);
    OnlyWindowMatters(id, frame, rects - {id}, o);
    assert Window(id, frame, rects) == Window(id, frame, rects - {id});
  }

  /** A pinned header is drawn flush with the container's top edge. A pushed
      header is drawn above that edge, strictly less far down than the plain
      pin, with its bottom edge exactly on the incoming header's measured top
      edge (the incoming header may itself be sticking and drawn elsewhere). */
  lemma PushedPlacement<K>(id: K, frame: Rect, key: K, other: Rect)
    requires IsSticking(frame) && Incoming(id, frame, key, other)
    ensures DrawnTop(frame, Pinned(frame)) == 0.0
    ensures Pushed(frame, other) < Pinned(frame)
    ensures DrawnTop(frame, Pushed(frame, other)) < 0.0
    ensures DrawnTop(frame, Pushed(frame, other)) + frame.height == other.minY
  {
  }

  /** With the header's own frame fixed and one entry `k` the only candidate
      for the push, the offset never grows as that entry rises: the higher
      entry, at or below the lower one's top edge, gives an offset at least
      as large, even when it has left the window and the plain pin applies. */
  lemma {:induction false} OffsetMonotone<K>(id: K, frame: Rect, rects: map<K, Rect>, k: K,
                                            lower: Rect, higher: Rect, o1: real, o2: real)
    requires k != id && IsSticking(frame)
    requires forall j :: j in rects && j != k ==> !Incoming(id, frame, j, rects[j])
    requires frame.minY < lower.minY < frame.height
    requires lower.minY <= higher.minY <= frame.height
    requires Allowed(id, frame, Some(rects[k := lower]), o1)
    requires Allowed(id, frame, Some(rects[k := higher]), o2)
    ensures o1 <= o2
  {
    var lo, hi := rects[k := lower], rects[k := higher];
    assert Incoming(id, frame, k, lo[k]);
    var j :| j in lo && Incoming(id, frame, j, lo[j]) && o1 == Pushed(frame, lo[j]);
    assert j == k;
    if higher.minY < frame.height {
      assert Incoming(id, frame, k, hi[k]);
      var i :| i in hi && Incoming(id, frame, i, hi[i]) && o2 == Pushed(frame, hi[i]);
      assert i == k;
    } else {
      assert !HasIncoming(id, frame, hi);
      assert o2 == Pinned(frame);
    }
  }

  /** Every allowed offset lies between the push that hides the whole header
      above the container and the plain pin; a header that does not stick,
      or finds no registry, is not moved. */
  lemma AllowedBounds<K>(id: K, frame: Rect, stickyRects: Option<map<K, Rect>>, o: real)
    requires frame.height >= 0.0
    requires Allowed(id, frame, stickyRects, o)
    ensures !IsSticking(frame) || stickyRects.None? ==> o == 0.0
    ensures IsSticking(frame) && stickyRects.Some? ==> -frame.height < o <= Pinned(frame)
    ensures DrawnTop(frame, o) <= 0.0 || o == 0.0
  {
  }

  /** When every entry in the window has the same top edge, the offset does not
      depend on which of them the search meets first. */
  lemma AllowedDeterminedByWindowEdge<K>(id: K, frame: Rect, rects: map<K, Rect>, o1: real, o2: real)
    requires forall k, l :: k in rects && l in rects && Incoming(id, frame, k, rects[k]) && Incoming(id, frame, l, rects[l])
                            ==> rects[k].minY == rects[l].minY
    requires Allowed(id, frame, Some(rects), o1) && Allowed(id, frame, Some(rects), o2)
    ensures o1 == o2
  {
  }

  /** When two entries with different top edges lie in the window, the offset
      depends on the dictionary's iteration order: the push of either one is
      allowed, and the two pushes differ. */
  lemma OrderDependentWhenTwoIncoming<K>(id: K, frame: Rect, rects: map<K, Rect>, k: K, l: K)
    requires IsSticking(frame)
    requires k in rects && l in rects
    requires Incoming(id, frame, k, rects[k]) && Incoming(id, frame, l, rects[l])
    requires rects[k].minY != rects[l].minY
    ensures Allowed(id, frame, Some(rects), Pushed(frame, rects[k]))
    ensures Allowed(id, frame, Some(rects), Pushed(frame, rects[l]))
    ensures Pushed(frame, rects[k]) != Pushed(frame, rects[l])
  {
  }

  /** A concrete registry where the two pushes give offsets 30 and 80. */
  lemma OrderDependentExample()
    ensures Allowed(1, Rect(0.0, -100.0, 0.0, 50.0), Some(map[2 := Rect(0.0, -20.0, 0.0, 50.0), 3 := Rect(0.0, 30.0, 0.0, 50.0)]), 30.0)
    ensures Allowed(1, Rect(0.0, -100.0, 0.0, 50.0), Some(map[2 := Rect(0.0, -20.0, 0.0, 50.0), 3 := Rect(0.0, 30.0, 0.0, 50.0)]), 80.0)
  {
    var own := Rect(0.0, -100.0, 0.0, 50.0);
    var rects := map[2 := Rect(0.0, -20.0, 0.0, 50.0), 3 := Rect(0.0, 30.0, 0.0, 50.0)];
    OrderDependentWhenTwoIncoming(1, own, rects, 2, 3);
  }

  /** The header scrolled 40 points past the top, 50 points tall. */
  const Own: Rect := Rect(0.0, -40.0, 320.0, 50.0)

  /** A lone sticking header is pinned: offset 40. */
  lemma ScenarioPinned(o: real)
    requires Allowed(1, Own, Some(map[1 := Own]), o)
    ensures o == 40.0
  {
  }

  /** The next header at minY 20 pushes: offset 40 - (50 - 20) = 10. */
  lemma ScenarioPushed(o: real)
    requires Allowed(1, Own, Some(map[1 := Own, 2 := Rect(0.0, 20.0, 320.0, 60.0)]), o)
    ensures o == 10.0
  {
    var rects := map[1 := Own, 2 := Rect(0.0, 20.0, 320.0, 60.0)];
    assert Incoming(1, Own, 2, rects[2]);
  }

  /** Just inside the window, at minY 49: offset 40 - (50 - 49) = 39. */
  lemma ScenarioJustInside(o: real)
    requires Allowed(1, Own, Some(map[1 := Own, 2 := Rect(0.0, 49.0, 320.0, 60.0)]), o)
    ensures o == 39.0
  {
    var rects := map[1 := Own, 2 := Rect(0.0, 49.0, 320.0, 60.0)];
    assert Incoming(1, Own, 2, rects[2]);
  }

  /** Exactly on the window's edge, at minY 50: no push, offset 40. */
  lemma ScenarioOnEdge(o: real)
    requires Allowed(1, Own, Some(map[1 := Own, 2 := Rect(0.0, 50.0, 320.0, 60.0)]), o)
    ensures o == 40.0
  {
  }

  /** The own entry and three headers outside the window leave the pin alone. */
  lemma ScenarioUnrelated(o: real)
    requires Allowed(1, Own, Some(map[1 := Own, 2 := Rect(0.0, -60.0, 320.0, 50.0),
                                      3 := Rect(0.0, 50.0, 320.0, 50.0), 4 := Rect(0.0, 400.0, 320.0, 50.0)]), o)
    ensures o == 40.0
  {
  }

  /** Without an enclosing provider a sticking header stays where it is. */
  lemma ScenarioNoProvider(o: real)
    requires Allowed(1, Own, None, o)
    ensures o == 0.0
  {
  }
}
