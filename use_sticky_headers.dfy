/**
 The `UseStickyHeaders` view modifier: it holds the registry of all headers'
 frames as `@State`, replaces it wholesale with every new reduced preference
 value, and hands it to the headers below it.
 */
module UseStickyHeaders {
  import opened Geometry
  import opened FramePreference
  import opened StickyModifier
  import OffsetProperties

  class Provider<K(==)> {
    var frames: map<K, Rect>

    constructor ()
      ensures frames == map[]
    {
      frames := map[];
    }

    /** `onPreferenceChange { frames = $0 }`. */
    method OnPreferenceChange(value: map<K, Rect>)
      modifies this
      ensures frames == value
    {
      frames := value;
    }
  }

  /** One layout pass with two headers under a provider: each header is
      measured and publishes its frame, the reports are reduced into the
      registry, and the upper header, 40 points past the top, is pushed by the
      lower one at minY 20 to offset 10 and drawn in front. */
  method HandOff() returns (o: real, z: ZIndex)
    ensures o == 10.0 && z == Infinity
  {
    var provider := new Provider<int>();
    var upper := new Sticky<int>(1);
    var lower := new Sticky<int>(2);
    upper.UpdateFrame(Rect(0.0, -40.0, 320.0, 50.0));
    lower.UpdateFrame(Rect(0.0, 20.0, 320.0, 60.0));
    var registry := Reduce(map[], upper.Preference());
    registry := Reduce(registry, lower.Preference());
    provider.OnPreferenceChange(registry);
    o := upper.Offset(Some(provider.frames));
    z := PaintOrder(upper.frame);
    assert provider.frames == map[1 := OffsetProperties.Own, 2 := Rect(0.0, 20.0, 320.0, 60.0)];
    OffsetProperties.ScenarioPushed(o);
  }
}
