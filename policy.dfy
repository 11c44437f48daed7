/**
 * The resize strategy `resize_image` picks from the requested width and height.
 * The pixel work itself belongs to an image library; a strategy is only its tag
 * and the box it is given.
 */
module Policy {
  import opened Wrappers

  /** A `--width` / `--height` value as argparse delivers it: `None`, or any `int`. */
  type Dim = Option<int>

  /** Python truthiness: `None` and `0` both count as "not given". */
  predicate Truthy(d: Dim)
  {
    d.Some? && d.value != 0
  }

  /** The dimension as the strategy will use it, or `None` when it is falsy. */
  function Given(d: Dim): Option<int>
  {
    if Truthy(d) then Some(d.value) else None
  }

  datatype Strategy =
    | Contain(width: int, height: int)  // resize_contain(img, [width, height])
    | ByWidth(width: int)               // resize_width(img, width)
    | Crop(height: int)                 // resize_crop(img, height)

  /** The width a strategy resizes to, if it fixes one. */
  function WidthOf(s: Strategy): Option<int>
  {
    match s
    case Contain(w, _) => Some(w)
    case ByWidth(w) => Some(w)
    case Crop(_) => None
  }

  /** The height a strategy resizes to, if it fixes one. */
  function HeightOf(s: Strategy): Option<int>
  {
    match s
    case Contain(_, h) => Some(h)
    case ByWidth(_) => None
    case Crop(h) => Some(h)
  }

  /** The `AssertionError` of `assert width or height`. */
  datatype PolicyError = NoDimension

  /**
   * The branch of `resize_image`: fail unless one dimension is truthy, then pick the strategy.
   * The chosen strategy carries exactly the truthy dimensions, and nothing else.
   */
  function SelectStrategy(width: Dim, height: Dim): (r: Result<Strategy, PolicyError>)
    ensures r.Err? <==> !Truthy(width) && !Truthy(height)
    ensures r.Ok? ==> WidthOf(r.value) == Given(width) && HeightOf(r.value) == Given(height)
  {
    if !(Truthy(width) || Truthy(height)) then Err(NoDimension)
    else if Truthy(width) && Truthy(height) then Ok(Contain(width.value, height.value))
    else if Truthy(width) then Ok(ByWidth(width.value))
    else Ok(Crop(height.value))
  }

  /** A strategy `SelectStrategy` can produce: none of its dimensions is zero. */
  predicate Selectable(s: Strategy)
  {
    match s
    case Contain(w, h) => w != 0 && h != 0
    case ByWidth(w) => w != 0
    case Crop(h) => h != 0
  }

  /** The three cases of the branch, stated on the truthiness of the inputs alone. */
  lemma StrategyCases(width: Dim, height: Dim)
    ensures Truthy(width) && Truthy(height) ==> SelectStrategy(width, height) == Ok(Contain(width.value, height.value))
    ensures Truthy(width) && !Truthy(height) ==> SelectStrategy(width, height) == Ok(ByWidth(width.value))
    ensures !Truthy(width) && Truthy(height) ==> SelectStrategy(width, height) == Ok(Crop(height.value))
  {
  }

  /** Height alone never gives a proportional by-height resize: it is always a crop. */
  lemma HeightOnlyCrops(width: Dim, height: Dim)
    requires !Truthy(width) && SelectStrategy(width, height).Ok?
    ensures SelectStrategy(width, height).value.Crop?
  {
  }

  /** Every selected strategy is selectable, and selecting from its own dimensions gives it back. */
  lemma StrategyRoundTrip(width: Dim, height: Dim)
    requires SelectStrategy(width, height).Ok?
    ensures Selectable(SelectStrategy(width, height).value)
    ensures SelectStrategy(WidthOf(SelectStrategy(width, height).value), HeightOf(SelectStrategy(width, height).value))
            == SelectStrategy(width, height)
  {
  }

  /** A selectable strategy is recovered from the dimensions it carries. */
  lemma SelectFromOwnDimensions(s: Strategy)
    requires Selectable(s)
    ensures SelectStrategy(WidthOf(s), HeightOf(s)) == Ok(s)
  {
  }
}
