/** The DARK and LIGHT directives: a translucent colour drawn over the whole
    scene. A colour's channels are 0..255 and its alpha 0..1; the canvas
    clamps an alpha outside that range, and ignores a colour whose alpha is
    not a number, keeping the fill colour it had. */
module Overlay {
  import opened Wrappers
  import opened Geometry

  datatype Colour = Rgba(r: real, g: real, b: real, a: real)

  /** The fill colour the scene has before any directive: the marker circle's
      cyan. */
  const MarkerCyan := Rgba(0.0, 255.0, 255.0, 1.0)

  /** The overlay colour for a parsed `amount`; `None` keeps the current fill. */
  function Tint(current: Colour, level: real, amount: Option<real>): (c: Colour)
    ensures amount.None? ==> c == current
    ensures amount.Some? ==> c.r == level && c.g == level && c.b == level && 0.0 <= c.a <= 1.0
    ensures amount.Some? && 0.0 <= amount.value <= 1.0 ==> c.a == amount.value
    ensures amount.Some? && amount.value < 0.0 ==> c.a == 0.0
    ensures amount.Some? && amount.value > 1.0 ==> c.a == 1.0
  {
    match amount
    case None => current
    case Some(v) => Rgba(level, level, level, Clamp(v, 0.0, 1.0))
  }

  /** DARK: black at the given opacity. */
  function DarkFill(current: Colour, amount: Option<real>): Colour {
    Tint(current, 0.0, amount)
  }

  /** LIGHT as written: the channels are 1, not 255, so the colour is all
      but black. */
  function LightFillAsWritten(current: Colour, amount: Option<real>): Colour {
    Tint(current, 1.0, amount)
  }

  /** LIGHT as intended: white at the given opacity. */
  function LightFill(current: Colour, amount: Option<real>): Colour {
    Tint(current, 255.0, amount)
  }

  /** One channel of `src` drawn over an opaque background channel `dst`
      (source-over compositing). */
  function Over(src: Colour, level: real, dst: real): real {
    src.a * level + (1.0 - src.a) * dst
  }

  /** The composite lies between the background and the colour's level. */
  lemma OverBetween(src: Colour, level: real, dst: real)
    requires 0.0 <= src.a <= 1.0
    ensures Min(level, dst) <= Over(src, level, dst) <= Max(level, dst)
    ensures src.a == 0.0 ==> Over(src, level, dst) == dst
    ensures src.a == 1.0 ==> Over(src, level, dst) == level
  {
    var a := src.a;
    var o := Over(src, level, dst);
    assert o == dst + a * (level - dst);
    if level <= dst {
      MulNonneg(a, dst - level);
      MulNonneg(1.0 - a, dst - level);
      assert a * (dst - level) <= dst - level by {
        assert (dst - level) - a * (dst - level) == (1.0 - a) * (dst - level);
      }
    } else {
      MulNonneg(a, level - dst);
      MulNonneg(1.0 - a, level - dst);
      assert a * (level - dst) <= level - dst by {
        assert (level - dst) - a * (level - dst) == (1.0 - a) * (level - dst);
      }
    }
  }

  /** DARK never makes a channel brighter. */
  lemma DarkNeverLightens(current: Colour, v: real, dst: real)
    requires 0.0 <= dst <= 255.0
    ensures var c := DarkFill(current, Some(v)); Over(c, c.r, dst) <= dst
  {
    OverBetween(DarkFill(current, Some(v)), 0.0, dst);
  }

  /** DARK at an opacity `v` between 0 and 1 keeps the fraction `1 - v` of
      every channel. */
  lemma DarkOpacity(current: Colour, v: real, dst: real)
    requires 0.0 <= v <= 1.0
    ensures var c := DarkFill(current, Some(v)); Over(c, c.r, dst) == (1.0 - v) * dst
  {
  }

  /** LIGHT as written never makes a channel brighter either, unless the
      channel is already below 1: it darkens the scene. */
  lemma LightAsWrittenNeverLightens(current: Colour, v: real, dst: real)
    requires 1.0 <= dst <= 255.0
    ensures var c := LightFillAsWritten(current, Some(v)); Over(c, c.r, dst) <= dst
  {
    OverBetween(LightFillAsWritten(current, Some(v)), 1.0, dst);
  }

  /** With the default amount, LIGHT as written takes a mid-grey channel
      of 128 down to 64.5. */
  lemma LightAsWrittenExample()
    ensures var c := LightFillAsWritten(MarkerCyan, Some(0.5)); Over(c, c.r, 128.0) == 64.5
  {
  }

  /** LIGHT as intended never makes a channel darker. */
  lemma LightNeverDarkens(current: Colour, v: real, dst: real)
    requires 0.0 <= dst <= 255.0
    ensures var c := LightFill(current, Some(v)); Over(c, c.r, dst) >= dst
  {
    OverBetween(LightFill(current, Some(v)), 255.0, dst);
  }
}
