/** SheetLoadInfo: how a sheet entry of a nest project is described. */
module SheetLoading {
  import opened Wrappers

  datatype SheetType = Rectangle | Arbitrary

  datatype SheetLoadInfo = SheetLoadInfo(path: Option<string>, width: real, height: real, quantity: int, sheetType: SheetType)

  /** `path.IsNullOrEmpty()`. */
  predicate IsNullOrEmpty(path: Option<string>)
  {
    path.None? || path.value == ""
  }

  /** SheetLoadInfo(width, height, quantity): a rectangle with no path. */
  function SizedSheet(width: real, height: real, quantity: int): (r: SheetLoadInfo)
    ensures r.sheetType == Rectangle && r.path.None?
    ensures r.width == width && r.height == height && r.quantity == quantity
  {
    SheetLoadInfo(Option.None, width, height, quantity, Rectangle)
  }

  /** SheetLoadInfo(path, quantity): an arbitrary sheet of no declared size. */
  function PathSheet(path: Option<string>, quantity: int): (r: SheetLoadInfo)
    ensures r.sheetType == Arbitrary && r.path == path
    ensures r.width == 0.0 && r.height == 0.0 && r.quantity == quantity
  {
    SheetLoadInfo(path, 0.0, 0.0, quantity, Arbitrary)
  }

  /** The JSON constructor: a null or empty path means a rectangle of the given size. */
  function JsonSheet(path: Option<string>, width: real, height: real, quantity: int): (r: SheetLoadInfo)
    ensures r.quantity == quantity
    ensures r.sheetType == Rectangle <==> IsNullOrEmpty(path)
    ensures IsNullOrEmpty(path) ==> r.path.None? && r.width == width && r.height == height
    ensures !IsNullOrEmpty(path) ==> r.path == path && r.width == 0.0 && r.height == 0.0
  {
    if IsNullOrEmpty(path) then SheetLoadInfo(Option.None, width, height, quantity, Rectangle)
    else SheetLoadInfo(path, 0.0, 0.0, quantity, Arbitrary)
  }

  /** The JSON constructor agrees with the sized constructor on empty paths and the path constructor otherwise. */
  lemma JsonSheetAgrees(path: Option<string>, width: real, height: real, quantity: int)
    ensures IsNullOrEmpty(path) ==> JsonSheet(path, width, height, quantity) == SizedSheet(width, height, quantity)
    ensures !IsNullOrEmpty(path) ==> JsonSheet(path, width, height, quantity) == PathSheet(path, quantity)
  {
  }

  /** The configured sheet size and quantity. */
  datatype SheetConfig = SheetConfig(sheetWidth: real, sheetHeight: real, sheetQuantity: int)

  /** SheetLoadInfo(config): the configured rectangle. */
  function ConfigSheet(config: SheetConfig): (r: SheetLoadInfo)
    ensures r.sheetType == Rectangle && r.path.None?
    ensures r.width == config.sheetWidth && r.height == config.sheetHeight && r.quantity == config.sheetQuantity
  {
    SizedSheet(config.sheetWidth, config.sheetHeight, config.sheetQuantity)
  }
}
