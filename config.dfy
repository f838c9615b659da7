/** Option, used where the source returns a value or nothing / an error. */
module Wrappers {
  datatype Option<+T> = None | Some(value: T)
}

/** The configuration records that the YAML loader fills in
    (css/internal/config_loader.go). Loading itself is not modelled: the
    loader's outcome is an input, either a configuration or an error.

    Two families are Go maps (`colors` and `typography.sizes`); Go visits a map
    in an unspecified order, so they appear here as sequences listed in the
    order one particular run visits them. Rem multipliers are given in exact
    hundredths (0.25 is 25). */
module CssConfig {

  /** A `{name, prefix, css_property}` entry: a template with a `{value}` placeholder. */
  datatype PrefixedProperty = PrefixedProperty(name: string, prefix: string, cssProperty: string)

  /** A `{name, css_property}` entry: a fully formed declaration. */
  datatype NamedProperty = NamedProperty(name: string, cssProperty: string)

  /** A `{name, value}` entry: a literal CSS value. */
  datatype NamedValue = NamedValue(name: string, value: string)

  /** One shade of a colour: shade name and hex value. */
  datatype Shade = Shade(name: string, hex: string)

  /** One entry of the `colors` map: a colour name and its shades. */
  datatype ColorFamily = ColorFamily(name: string, shades: seq<Shade>)

  /** One entry of the `typography.sizes` map. */
  datatype TextSize = TextSize(name: string, size: string, lineHeight: string)

  datatype SpacingConfig = SpacingConfig(
    scale: seq<int>,
    remMultiplier: int,
    properties: seq<PrefixedProperty>)

  datatype LayoutConfig = LayoutConfig(
    display: seq<NamedProperty>,
    justify: seq<NamedProperty>,
    align: seq<NamedProperty>,
    direction: seq<NamedProperty>,
    wrap: seq<NamedProperty>,
    colsScale: seq<int>,
    colsTemplate: string,
    rowsScale: seq<int>,
    rowsTemplate: string,
    gapScale: seq<int>,
    gapRemMultiplier: int,
    gapTemplate: string)

  datatype TypographyConfig = TypographyConfig(
    sizes: seq<TextSize>,
    families: seq<NamedProperty>,
    align: seq<NamedProperty>,
    weight: seq<NamedProperty>,
    decoration: seq<NamedProperty>)

  datatype BordersConfig = BordersConfig(
    widthScale: seq<int>,
    widthProperties: seq<PrefixedProperty>,
    radiusScale: seq<int>,
    radiusRemMultiplier: int,
    radiusProperties: seq<PrefixedProperty>,
    radiusSpecial: seq<NamedProperty>,
    style: seq<NamedProperty>)

  datatype SizingConfig = SizingConfig(
    widthScale: seq<NamedValue>,
    widthSpecial: seq<NamedValue>,
    widthFractions: seq<NamedValue>,
    heightScale: seq<NamedValue>,
    heightSpecial: seq<NamedValue>,
    heightFractions: seq<NamedValue>,
    maxWidth: seq<NamedValue>,
    minWidth: seq<NamedValue>,
    maxHeightScale: seq<NamedValue>,
    maxHeightSpecial: seq<NamedValue>,
    minHeight: seq<NamedValue>)

  datatype PositionConfig = PositionConfig(
    types: seq<NamedProperty>,
    insetScale: seq<NamedValue>,
    insetSpecial: seq<NamedValue>,
    negativeScale: seq<NamedValue>,
    negativeSpecial: seq<NamedValue>,
    zValues: seq<NamedValue>,
    zNegative: seq<NamedValue>,
    overflow: seq<NamedProperty>)

  datatype EffectsConfig = EffectsConfig(
    opacity: seq<NamedValue>,
    shadow: seq<NamedValue>,
    cursor: seq<NamedProperty>,
    userSelect: seq<NamedProperty>,
    pointerEvents: seq<NamedProperty>,
    visibility: seq<NamedProperty>,
    screenReaders: seq<NamedProperty>)

  /** The eight configuration files, as `LoadConfig` returns them. */
  datatype Config = Config(
    spacing: SpacingConfig,
    colors: seq<ColorFamily>,
    layout: LayoutConfig,
    typography: TypographyConfig,
    borders: BordersConfig,
    sizing: SizingConfig,
    position: PositionConfig,
    effects: EffectsConfig)

  /** The outcome of `LoadConfig`: the configuration, or the error it reports. */
  datatype ConfigResult = Loaded(config: Config) | LoadFailed(error: string)
}
