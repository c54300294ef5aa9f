/** `WindowConfig` of src/conf.rs and its conversion into the windowing library's `Conf`. */
module Config {
  import opened Primitives
  import opened Wrappers

  datatype WindowConfig = WindowConfig(
    windowTitle: string,
    windowWidth: I32,
    windowHeight: I32,
    highDpi: bool,
    fullscreen: bool,
    resizable: bool,
    maxVerticesPerDraw: USize,
    maxIndicesPerDraw: USize)

  /** The window icon of the windowing library: its three square RGBA images. */
  datatype Icon = Icon(small: seq<U8>, medium: seq<U8>, big: seq<U8>)

  /** The windowing library's platform settings; only their default value is ever used here. */
  datatype Platform = DefaultPlatform

  /** The windowing library's `Conf`, with the fields the conversion sets. */
  datatype Conf = Conf(
    windowTitle: string,
    windowWidth: I32,
    windowHeight: I32,
    highDpi: bool,
    fullscreen: bool,
    sampleCount: I32,
    windowResizable: bool,
    icon: Option<Icon>,
    platform: Platform)

  /** `WindowConfig::default`. */
  function DefaultWindowConfig(): (c: WindowConfig)
    ensures c.windowTitle == "Porcelain App"
    ensures c.windowWidth == 800 && c.windowHeight == 600
    ensures !c.highDpi && !c.fullscreen && !c.resizable
    ensures c.maxVerticesPerDraw == 10000 && c.maxIndicesPerDraw == 30000
  {
    WindowConfig("Porcelain App", 800, 600, false, false, false, 10000, 30000)
  }

  /** `From<WindowConfig> for Conf`. */
  function ToConf(value: WindowConfig): (c: Conf)
    ensures c.windowTitle == value.windowTitle
    ensures c.windowWidth == value.windowWidth && c.windowHeight == value.windowHeight
    ensures c.highDpi == value.highDpi && c.fullscreen == value.fullscreen
    ensures c.windowResizable == value.resizable
    ensures c.sampleCount == 1 && c.icon == None && c.platform == DefaultPlatform
  {
    Conf(value.windowTitle, value.windowWidth, value.windowHeight, value.highDpi, value.fullscreen,
         1, value.resizable, None, DefaultPlatform)
  }

  /** Two configurations agree on everything the window itself is built from. */
  predicate SameWindow(a: WindowConfig, b: WindowConfig)
  {
    a.windowTitle == b.windowTitle && a.windowWidth == b.windowWidth && a.windowHeight == b.windowHeight &&
    a.highDpi == b.highDpi && a.fullscreen == b.fullscreen && a.resizable == b.resizable
  }

  /**
   * The conversion loses exactly the two capacity limits: configurations convert
   * to the same `Conf` if and only if they agree on the six window fields.
   */
  lemma ToConfForgetsLimits(a: WindowConfig, b: WindowConfig)
    ensures ToConf(a) == ToConf(b) <==> SameWindow(a, b)
  {
  }

  /** Changing only the capacity limits leaves the converted `Conf` as it was. */
  lemma ToConfIgnoresLimits(value: WindowConfig, maxVertices: USize, maxIndices: USize)
    ensures ToConf(value.(maxVerticesPerDraw := maxVertices, maxIndicesPerDraw := maxIndices)) == ToConf(value)
  {
  }

  /** The default configuration opens an 800 by 600, fixed-size, windowed "Porcelain App" with one sample. */
  lemma DefaultConf()
    ensures ToConf(DefaultWindowConfig())
      == Conf("Porcelain App", 800, 600, false, false, 1, false, None, DefaultPlatform)
  {
  }
}
