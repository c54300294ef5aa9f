/** The colour value of src/color.rs. */
module Colors {
  import opened Primitives

  /** Normalised channels, each stored as an `f32`. */
  datatype Color = Color(r: F32, g: F32, b: F32, a: F32)

  /** `From<Color> for [f32; 4]`: the channels as a four-element array. */
  function Channels(c: Color): (rgba: (F32, F32, F32, F32))
    ensures Color(rgba.0, rgba.1, rgba.2, rgba.3) == c
  {
    (c.r, c.g, c.b, c.a)
  }
}
