/** The comfort-level presets of lib/mmod/settings.js: one record of style
    class names and sizes per comfort level of the settings store. */
module Comfort {

  datatype ComfortSettings = ComfortSettings(
    containerStyle: string,
    containerHeight: int,
    buttonStyle: string,
    favoriteSize: int)

  const COMPACT := ComfortSettings("mmod-panel-style-compact", 28, "mmod-panel-button-icon-style-compact", 16)
  const COZY := ComfortSettings("mmod-panel-style-cozy", 36, "mmod-panel-button-icon-style-cozy", 22)
  const COMFORTABLE := ComfortSettings("mmod-panel-style-comfortable", 52, "mmod-panel-button-icon-style-comfortable", 44)

  /** The preset chosen for a comfort level: 0 is compact, 2 comfortable,
      and every other value falls back to cozy. */
  function LoadComfortSettings(level: int): (r: ComfortSettings)
    ensures r in {COMPACT, COZY, COMFORTABLE}
    ensures r == COMPACT <==> level == 0
    ensures r == COMFORTABLE <==> level == 2
  {
    match level
    case 0 => COMPACT
    case 2 => COMFORTABLE
    case _ => COZY
  }

  /** Every preset's favorite icon fits inside its panel container, and a
      larger container always comes with a larger icon and a distinct style
      class, so the style class alone identifies the preset. */
  lemma {:induction false} PresetsOrdered(a: int, b: int)
    ensures var ra, rb := LoadComfortSettings(a), LoadComfortSettings(b);
      0 < ra.favoriteSize < ra.containerHeight &&
      (ra.containerHeight < rb.containerHeight <==> ra.favoriteSize < rb.favoriteSize) &&
      (ra.containerStyle == rb.containerStyle <==> ra == rb)
  {
    var ra, rb := LoadComfortSettings(a), LoadComfortSettings(b);
    assert ra.containerStyle == rb.containerStyle ==> ra == rb by {
      if ra.containerStyle == rb.containerStyle {
        assert ra.containerStyle[19] == rb.containerStyle[19];
        assert ra.containerStyle[20] == rb.containerStyle[20];
      }
    }
  }
}
