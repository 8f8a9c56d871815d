/**
 The `Sticky` view modifier: one header's decision whether it sticks to the
 top of the scroll container, which vertical offset it applies, and in which
 paint order it is drawn, from its own frame, its own identity and the
 registry of all headers' frames (absent when no enclosing provider exists).
 */
module StickyModifier {
  import opened Geometry

  /** A header sticks once its top edge has scrolled above the container's. */
  predicate IsSticking(frame: Rect)
  {
    frame.minY < 0.0
  }

  /** The paint order handed to `zIndex`: `.infinity` or a finite level. */
  datatype ZIndex = Infinity | Finite(level: real)

  /** Whether a header with paint order `a` is drawn in front of one with `b`. */
  predicate InFront(a: ZIndex, b: ZIndex)
  {
    match (a, b)
    case (Infinity, Finite(_)) => true
    case (Finite(x), Finite(y)) => x > y
    case _ => false
  }

  /** `.zIndex(isSticking ? .infinity : 0)`. */
  function PaintOrder(frame: Rect): (z: ZIndex)
    ensures z == Infinity <==> IsSticking(frame)
    ensures z != Infinity ==> z == Finite(0.0)
  {
    if IsSticking(frame) then Infinity else Finite(0.0)
  }

  /** A sticking header is drawn in front of every header that does not stick
      and of every sibling at the default level 0. */
  lemma StickingPaintsInFront(s: Rect, t: Rect)
    requires IsSticking(s) && !IsSticking(t)
    ensures InFront(PaintOrder(s), PaintOrder(t))
    ensures InFront(PaintOrder(s), Finite(0.0))
    ensures !InFront(PaintOrder(t), Finite(0.0))
  {
  }

  /** The search condition of `first(where:)`: an entry of another header whose
      top edge lies strictly between this header's top edge and its height. */
  predicate Incoming<K(==)>(id: K, frame: Rect, key: K, value: Rect)
  {
    key != id && value.minY > frame.minY && value.minY < frame.height
  }

  ghost predicate HasIncoming<K>(id: K, frame: Rect, rects: map<K, Rect>)
  {
    exists k :: k in rects && Incoming(id, frame, k, rects[k])
  }

  /** The plain pin `-frame.minY`. */
  function Pinned(frame: Rect): real
  {
    -frame.minY
  }

  /** The pin corrected by the push of an incoming header `other`. */
  function Pushed(frame: Rect, other: Rect): real
  {
    Pinned(frame) - (frame.height - other.minY)
  }

  /** Where the header's top edge is drawn once `offset` is applied. */
  function DrawnTop(frame: Rect, offset: real): real
  {
    frame.minY + offset
  }

  /** The offsets the header may apply. `first(where:)` on a dictionary picks
      the first match in an unspecified iteration order, so when several
      entries qualify any one of them may be the one that pushes. */
  ghost predicate Allowed<K>(id: K, frame: Rect, stickyRects: Option<map<K, Rect>>, o: real)
  {
    if !IsSticking(frame) then o == 0.0
    else match stickyRects
      case None => o == 0.0
      case Some(rects) =>
        if HasIncoming(id, frame, rects) then
          exists k :: k in rects && Incoming(id, frame, k, rects[k]) && o == Pushed(frame, rects[k])
        else
          o == Pinned(frame)
  }

  /** `Dictionary.first(where:)`: the entries are visited in an order the
      dictionary does not specify, and the first one satisfying `p` is
      returned. */
  method FirstWhere<K, V>(d: map<K, V>, p: (K, V) -> bool) returns (r: Option<(K, V)>)
    ensures r.Some? ==> r.value.0 in d && d[r.value.0] == r.value.1 && p(r.value.0, r.value.1)
    ensures r.None? <==> forall k :: k in d ==> !p(k, d[k])
  {
    var pending := d.Keys;
    while pending != {}
      invariant pending <= d.Keys
      invariant forall k :: k in d && k !in pending ==> !p(k, d[k])
      decreases pending
    {
      var k :| k in pending;
      if p(k, d[k]) {
        return Some((k, d[k]));
      }
      pending := pending - {k};
    }
    return None;
  }

  /** One sticky header. `frame` is its `@State`, overwritten whenever layout
      measures the header; `id` is its `@Namespace` identity, supplied by the
      caller and fixed for the header's lifetime. */
  class Sticky<K(==)> {
    const id: K
    var frame: Rect

    constructor (id: K)
      ensures this.id == id && frame == Zero
    {
      this.id := id;
      frame := Zero;
    }

    /** `onAppear { frame = f }` and `onChange(of: f) { frame = $0 }`. */
    method UpdateFrame(f: Rect)
      modifies this`frame
      ensures frame == f
    {
      frame := f;
    }

    /** The preference value the header publishes: `[id: frame]`. */
    function Preference(): (p: map<K, Rect>)
      reads this
      ensures p.Keys == {id} && p[id] == frame
    {
      map[id := frame]
    }

    /** The `offset` property, for the registry `stickyRects` read from the
        environment (`None` when no provider encloses the header). */
    method Offset(stickyRects: Option<map<K, Rect>>) returns (o: real)
      ensures Allowed(id, frame, stickyRects, o)
    {
      if !IsSticking(frame) {
        return 0.0;
      }
      if stickyRects.None? {
        // the source prints a warning here; only the returned value is modelled
        return 0.0;
      }
      var rects := stickyRects.value;
      var me, own := id, frame;
      o := -own.minY;
      var other := FirstWhere(rects, (key, value) => Incoming(me, own, key, value));
      if other.Some? {
        o := o - (own.height - other.value.1.minY);
      }
    }
  }
}
