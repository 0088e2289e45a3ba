/** The LED side of the main loop: the colour table, `adjColor`, and the
    face-to-colour dispatch that drives the single neopixel. */
module Colours {
  import opened Maybe

  /** An RGB triple (the source's tuples and lists of three channel values). */
  type Colour = seq<int>

  const Off: Colour := [0, 0, 0]
  const Red: Colour := [255, 0, 0]
  const Yellow: Colour := [255, 255, 0]
  const Green: Colour := [0, 255, 0]
  const Cyan: Colour := [0, 255, 255]
  const Blue: Colour := [0, 0, 255]
  const Magenta: Colour := [255, 0, 255]

  /** The global dimming factor, "from 0 to 1". */
  const Brightness: real := 0.1

  /** `adjColor(color, brightness)`: every channel scaled by the brightness and
      rounded down (Python's `floor`) to the largest integer not above it. */
  function AdjColor(color: Colour, brightness: real): (c: Colour)
    ensures |c| == |color|
    ensures forall i | 0 <= i < |c| ::
      c[i] as real <= color[i] as real * brightness < c[i] as real + 1.0
  {
    seq(|color|, i requires 0 <= i < |color| => (color[i] as real * brightness).Floor)
  }

  /** The default brightness of `adjColor`, 1.0, leaves a colour unchanged. */
  lemma FullBrightnessIsIdentity(color: Colour)
    ensures AdjColor(color, 1.0) == color
  {
    var c := AdjColor(color, 1.0);
    assert forall i | 0 <= i < |c| :: c[i] == color[i];
  }

  /** Brightness 0 turns every colour off. */
  lemma ZeroBrightnessIsOff(color: Colour)
    ensures AdjColor(color, 0.0) == seq(|color|, _ => 0)
  {
    var c := AdjColor(color, 0.0);
    assert forall i | 0 <= i < |c| :: c[i] == 0;
  }

  /** A brightness in [0, 1] only dims: each channel of a colour with
      non-negative channels stays between 0 and its original value. */
  lemma DimmingBounds(color: Colour, brightness: real, i: int)
    requires 0.0 <= brightness <= 1.0
    requires 0 <= i < |color|
    requires color[i] >= 0
    ensures 0 <= AdjColor(color, brightness)[i] <= color[i]
  {
    var x := color[i] as real;
    var c := AdjColor(color, brightness)[i];
    assert x * brightness >= 0.0;
    assert x * (1.0 - brightness) >= 0.0;
    assert c as real <= x * brightness < c as real + 1.0;
  }

  /** The colour the main loop shows for each face: off for face 0 (no stable
      face), then red, yellow, green, cyan, blue and magenta for faces 1 to 6. */
  function Palette(face: int): (c: Colour)
    requires 0 <= face <= 6
    ensures |c| == 3
    ensures forall i | 0 <= i < 3 :: c[i] == 0 || c[i] == 255
    ensures c == Off <==> face == 0
  {
    if face == 0 then Off
    else if face == 1 then Red
    else if face == 2 then Yellow
    else if face == 3 then Green
    else if face == 4 then Cyan
    else if face == 5 then Blue
    else Magenta
  }

  /** The colour written to the pixel for a face, or None when the if/elif chain
      matches no face and the pixel is left as it was. */
  function FaceColour(face: int, brightness: real): (r: Option<Colour>)
    ensures r.Some? <==> 0 <= face <= 6
    ensures r.Some? ==> |r.value| == 3
  {
    if 0 <= face <= 6 then Some(AdjColor(Palette(face), brightness)) else None
  }

  /** The seven dimmed colours at the source's brightness 0.1. */
  lemma DimmedPalette()
    ensures AdjColor(Off, Brightness) == [0, 0, 0]
    ensures AdjColor(Red, Brightness) == [25, 0, 0]
    ensures AdjColor(Yellow, Brightness) == [25, 25, 0]
    ensures AdjColor(Green, Brightness) == [0, 25, 0]
    ensures AdjColor(Cyan, Brightness) == [0, 25, 25]
    ensures AdjColor(Blue, Brightness) == [0, 0, 25]
    ensures AdjColor(Magenta, Brightness) == [25, 0, 25]
  {
  }

  /** At the source's brightness every face lights the pixel in its own colour,
      so the pixel tells which face is down. */
  lemma ColourIdentifiesFace(f: int, g: int)
    requires 0 <= f <= 6 && 0 <= g <= 6
    requires f != g
    ensures FaceColour(f, Brightness) != FaceColour(g, Brightness)
  {
    DimmedPalette();
  }
}
