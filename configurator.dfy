/**
 * The design configurator (src/app/configure/design/DesignConfigurator.tsx):
 * the selected options, where the uploaded image sits over the case and how
 * big it is drawn, the price shown, the geometry of the snapshot taken on
 * "Continue", the copy of the snapshot's decoded bytes, and the payload saved.
 */
module Configurator {
  import opened Wrappers
  import opened JsRuntime
  import Products
  import opened OptionsValidator

  /** The `options` state: one entry of each catalog. */
  datatype Options = Options(color: Color, model: PhoneModel, material: PricedOption, finish: PricedOption)

  /** Every selected option is an entry of its catalog (the source's element types). */
  predicate InCatalogs(o: Options) {
    && o.color in COLORS
    && o.model in MODELS.options
    && o.material in MATERIALS.options
    && o.finish in FINISHES.options
  }

  /** The initial selection: the first entry of each catalog. */
  const DEFAULT_OPTIONS: Options :=
    Options(COLORS[0], MODELS.options[0], MATERIALS.options[0], FINISHES.options[0])

  /** Rendered width and height of the image, as react-rnd reports them (possibly NaN). */
  datatype Dimensions = Dimensions(width: Number, height: Number)

  /** Top-left corner of the image, relative to the gray container. */
  datatype Position = Position(x: real, y: real)

  /** The part of a `DOMRect` the snapshot reads. */
  datatype Rect = Rect(left: real, top: real, width: real, height: real)

  /* ---------------------------------------------------------------- price */

  /** The totals a catalog selection can reach, in cents. */
  const REACHABLE_TOTALS: set<int> := {1400, 1700, 1900, 2200}

  /** `BASE_PRICE + finish.price + material.price`, in cents. */
  function TotalPrice(o: Options): (cents: int)
    requires InCatalogs(o)
    ensures Products.BASE_PRICE <= cents <= Products.BASE_PRICE + 800
    ensures cents in REACHABLE_TOTALS
    ensures cents == Products.BASE_PRICE <==> o.material.price == 0 && o.finish.price == 0
  {
    Products.BASE_PRICE + o.finish.price + o.material.price
  }

  /** Every total in `REACHABLE_TOTALS` is the price of some catalog selection. */
  lemma TotalsReachable(t: int)
    requires t in REACHABLE_TOTALS
    ensures exists o :: InCatalogs(o) && TotalPrice(o) == t
  {
    var m, f := MATERIALS.options, FINISHES.options;
    var o :=
      if t == 1400 then DEFAULT_OPTIONS
      else if t == 1700 then DEFAULT_OPTIONS.(finish := f[1])
      else if t == 1900 then DEFAULT_OPTIONS.(material := m[1])
      else DEFAULT_OPTIONS.(material := m[1], finish := f[1]);
    assert InCatalogs(o) && TotalPrice(o) == t;
  }

  /** The initial selection is valid and costs the base price; the dearest costs 2200. */
  lemma TotalExamples()
    ensures InCatalogs(DEFAULT_OPTIONS) && TotalPrice(DEFAULT_OPTIONS) == 1400
    ensures var o := DEFAULT_OPTIONS.(material := MATERIALS.options[1], finish := FINISHES.options[1]);
      InCatalogs(o) && o.material.value == "polycarbonate" && o.finish.value == "textured"
      && TotalPrice(o) == 2200
  {
  }

  /* ------------------------------------------------------- pixel strings */

  /** `parseInt(style.slice(0, -2))`: the number in a CSS length such as "50px". */
  function PxValue(style: string): (n: Number)
    ensures n.Num? ==> n.value == n.value.Floor as real
    ensures |style| <= 2 ==> n == NaN
  {
    ParseInt(Slice(style, 0, -2))
  }

  /** A run of digits followed by "px" reads as the value of the digits. */
  lemma PxOfDigits(d: string)
    requires |d| > 0 && AllDigits(d)
    ensures PxValue(d + "px") == Num(DigitsValue(d) as real)
  {
    SliceDropsSuffix(d, "px");
    ParseIntDigits(d);
  }

  /** The length react-rnd writes for a whole number of pixels reads back as that number. */
  lemma PxRoundTrip(n: nat)
    ensures PxValue(DecimalString(n) + "px") == Num(n as real)
  {
    PxOfDigits(DecimalString(n));
    DecimalRoundTrip(n);
  }

  /** A fractional length is truncated: "12.5px" reads as 12. */
  lemma PxTruncatesFraction(d: string, fraction: string)
    requires |d| > 0 && AllDigits(d)
    ensures PxValue(d + "." + fraction + "px") == Num(DigitsValue(d) as real)
  {
    assert d + "." + fraction + "px" == (d + "." + fraction) + "px";
    SliceDropsSuffix(d + "." + fraction, "px");
    assert d + "." + fraction == d + ['.'] + fraction;
    ParseIntStopsAtNonDigit(d, '.', fraction);
    ParseIntDigits(d);
  }

  /* ----------------------------------------------------- snapshot geometry */

  /**
   * Where the image's corner lies in the case's own coordinates: the rendered
   * position minus the case's offset inside the container.
   */
  function CaseLocal(pos: Position, caseBox: Rect, containerBox: Rect): (p: Position)
    ensures caseBox.left + p.x == containerBox.left + pos.x
    ensures caseBox.top + p.y == containerBox.top + pos.y
  {
    var leftOffset := caseBox.left - containerBox.left;
    var topOffset := caseBox.top - containerBox.top;
    Position(pos.x - leftOffset, pos.y - topOffset)
  }

  /** Scrolling or moving the page shifts both boxes alike and leaves the result alone. */
  lemma CaseLocalShiftInvariant(pos: Position, caseBox: Rect, containerBox: Rect, dx: real, dy: real)
    ensures CaseLocal(pos, caseBox.(left := caseBox.left + dx, top := caseBox.top + dy),
                      containerBox.(left := containerBox.left + dx, top := containerBox.top + dy))
         == CaseLocal(pos, caseBox, containerBox)
  {
  }

  /** When the case sits at the container's corner the two frames agree. */
  lemma CaseLocalCoincide(pos: Position, caseBox: Rect, containerBox: Rect)
    requires caseBox.left == containerBox.left && caseBox.top == containerBox.top
    ensures CaseLocal(pos, caseBox, containerBox) == pos
  {
  }

  /** The canvas size in whole pixels and the `drawImage` rectangle of the snapshot. */
  datatype DrawCall = DrawCall(canvasWidth: int, canvasHeight: int, at: Position, size: Dimensions)

  /**
   * The WebIDL conversion of a number to `unsigned long`: truncate toward zero,
   * then wrap modulo 2^32.
   */
  function ToUnsignedLong(x: real): (n: int)
    ensures 0 <= n < 0x1_0000_0000
    ensures 0.0 <= x < 0x1_0000_0000 as real ==> n == x.Floor
    ensures 0.0 <= x ==> n as real <= x
  {
    var truncated := if x >= 0.0 then x.Floor else -((-x).Floor);
    truncated % 0x1_0000_0000
  }

  /** The defaults of a canvas that has not been sized: 300 by 150. */
  const DEFAULT_CANVAS_WIDTH: int := 300
  const DEFAULT_CANVAS_HEIGHT: int := 150

  /**
   * Setting `canvas.width` or `canvas.height` to `x`: the `unsigned long`
   * conversion, where a result above 2^31 - 1 is replaced by the attribute's default.
   */
  function CanvasDimension(x: real, default: int): (n: int)
    requires 0 <= default < 0x8000_0000
    ensures 0 <= n < 0x8000_0000
    ensures 0.0 <= x < 0x8000_0000 as real ==> n == x.Floor
    ensures (x < 0.0 && x > -1.0) ==> n == 0
    ensures ToUnsignedLong(x) >= 0x8000_0000 ==> n == default
  {
    var converted := ToUnsignedLong(x);
    if converted > 0x7FFF_FFFF then default else converted
  }

  /** The case box of the page (`w-60`, aspect 896/1831) is 240 by 490.45 pixels: its canvas is 240 by 490. */
  lemma CanvasDropsFraction()
    ensures CanvasDimension(240.0, DEFAULT_CANVAS_WIDTH) == 240
    ensures CanvasDimension(490.45, DEFAULT_CANVAS_HEIGHT) == 490
  {
  }

  /** Sizes that convert above 2^31 - 1, huge or negative, fall back to the defaults. */
  lemma CanvasFallsBackToDefault()
    ensures CanvasDimension(3000000000.0, DEFAULT_CANVAS_WIDTH) == 300
    ensures CanvasDimension(-1.5, DEFAULT_CANVAS_WIDTH) == 300
    ensures CanvasDimension(-1.5, DEFAULT_CANVAS_HEIGHT) == 150
  {
  }

  /* ------------------------------------------------------------ bytes */

  /** A `Uint8Array` element. */
  type Byte = x: int | 0 <= x < 256

  /** How `Uint8Array` stores an integer: modulo 256. */
  function ToUint8(n: int): (b: Byte)
    ensures 0 <= n < 256 ==> b == n
  {
    n % 256
  }

  /** A `Blob` over one byte array. */
  datatype Blob = Blob(bytes: seq<Byte>, mimeType: string)

  /** The "binary string" whose character codes are the given bytes, as `atob` returns one. */
  function BinaryString(bytes: seq<Byte>): string {
    seq(|bytes|, i requires 0 <= i < |bytes| => bytes[i] as char)
  }

  /** Every character code fits in a byte. */
  predicate IsBinaryString(s: string) {
    forall i :: 0 <= i < |s| ==> s[i] as int < 256
  }

  /**
   * `base64ToBlob` after `atob`: copies the code of every character of the decoded
   * string into an array, then into a `Uint8Array`. For a binary string, the bytes
   * are exactly the character codes and spell the string back.
   */
  method Base64ToBlob(byteCharacters: string, mimeType: string) returns (blob: Blob)
    ensures |blob.bytes| == |byteCharacters| && blob.mimeType == mimeType
    ensures forall i :: 0 <= i < |byteCharacters| ==> blob.bytes[i] == ToUint8(byteCharacters[i] as int)
    ensures IsBinaryString(byteCharacters) ==> BinaryString(blob.bytes) == byteCharacters
  {
    var byteNumbers := new int[|byteCharacters|];
    for i := 0 to |byteCharacters|
      invariant forall k :: 0 <= k < i ==> byteNumbers[k] == byteCharacters[k] as int
    {
      byteNumbers[i] := byteCharacters[i] as int;
    }
    var byteArray := seq(byteNumbers.Length, k requires 0 <= k < byteNumbers.Length reads byteNumbers =>
                           ToUint8(byteNumbers[k]));
    blob := Blob(byteArray, mimeType);
    if IsBinaryString(byteCharacters) {
      assert forall i :: 0 <= i < |byteCharacters| ==> BinaryString(blob.bytes)[i] == byteCharacters[i];
    }
  }

  /* ------------------------------------------------------------- payload */

  /** The arguments of `saveConfig`: the configuration id and the selected value tokens. */
  datatype SaveConfigArgs = SaveConfigArgs(configId: string, color: string, finish: string, material: string, model: string)

  function SavePayload(configId: string, o: Options): (args: SaveConfigArgs)
    ensures args.configId == configId
    ensures args.color == o.color.value && args.model == o.model.value
    ensures args.material == o.material.value && args.finish == o.finish.value
  {
    SaveConfigArgs(configId, o.color.value, o.finish.value, o.material.value, o.model.value)
  }

  /** The selection a payload's tokens name, if each names an entry of its catalog. */
  function SelectionOf(args: SaveConfigArgs): (r: Option<Options>)
    ensures r.Some? ==> InCatalogs(r.value) && SavePayload(args.configId, r.value) == args
    ensures r.Some? <==>
      && (exists c :: c in COLORS && c.value == args.color)
      && (exists m :: m in MODELS.options && m.value == args.model)
      && (exists p :: p in MATERIALS.options && p.value == args.material)
      && (exists p :: p in FINISHES.options && p.value == args.finish)
  {
    match (FindByKey(COLORS, ColorValue, args.color), FindByKey(MODELS.options, ModelValue, args.model),
           FindByKey(MATERIALS.options, PricedValue, args.material),
           FindByKey(FINISHES.options, PricedValue, args.finish))
    case (Some(c), Some(m), Some(mat), Some(fin)) => Some(Options(c, m, mat, fin))
    case _ => None
  }

  /** The saved tokens lose nothing: they name exactly the selection they came from. */
  lemma PayloadDeterminesSelection(configId: string, o: Options)
    requires InCatalogs(o)
    ensures SelectionOf(SavePayload(configId, o)) == Some(o)
  {
    ValuesDistinct();
    FindByOwnKey(COLORS, ColorValue, o.color);
    FindByOwnKey(MODELS.options, ModelValue, o.model);
    FindByOwnKey(MATERIALS.options, PricedValue, o.material);
    FindByOwnKey(FINISHES.options, PricedValue, o.finish);
  }

  /* ------------------------------------------------------------- the component */

  /** The component's mutable state: `options`, `renderedDimensions`, `renderedPosition`. */
  class DesignConfigurator {
    const configId: string
    var options: Options
    var renderedDimensions: Dimensions
    var renderedPosition: Position

    ghost predicate Valid()
      reads this
    {
      InCatalogs(options)
    }

    /** The price shown next to "Continue". */
    function Total(): (cents: int)
      reads this
      requires Valid()
      ensures cents in REACHABLE_TOTALS
    {
      TotalPrice(options)
    }

    /** First render: default options, a quarter of the image's natural size, corner at (150, 205). */
    constructor (configId: string, imageWidth: real, imageHeight: real)
      ensures Valid()
      ensures this.configId == configId && options == DEFAULT_OPTIONS
      ensures renderedDimensions == Dimensions(Num(imageWidth / 4.0), Num(imageHeight / 4.0))
      ensures renderedPosition == Position(150.0, 205.0)
      ensures Total() == Products.BASE_PRICE
    {
      this.configId := configId;
      options := DEFAULT_OPTIONS;
      renderedDimensions := Dimensions(Num(imageWidth / 4.0), Num(imageHeight / 4.0));
      renderedPosition := Position(150.0, 205.0);
    }

    /** The colour radio group's `onChange`. */
    method SelectColor(c: Color)
      requires Valid() && c in COLORS
      modifies this
      ensures Valid()
      ensures options == old(options).(color := c)
      ensures renderedDimensions == old(renderedDimensions) && renderedPosition == old(renderedPosition)
    {
      options := options.(color := c);
    }

    /** A click on a model in the drop-down. */
    method SelectModel(m: PhoneModel)
      requires Valid() && m in MODELS.options
      modifies this
      ensures Valid()
      ensures options == old(options).(model := m)
      ensures renderedDimensions == old(renderedDimensions) && renderedPosition == old(renderedPosition)
    {
      options := options.(model := m);
    }

    /**
     * The material and finish radio groups share one `onChange`, which writes
     * the option under the catalog's `name`: "material" or "finish".
     */
    method SelectPriced(catalog: Catalog<PricedOption>, val: PricedOption)
      requires Valid()
      requires catalog == MATERIALS || catalog == FINISHES
      requires val in catalog.options
      modifies this
      ensures Valid()
      ensures catalog == MATERIALS ==> options == old(options).(material := val)
      ensures catalog == FINISHES ==> options == old(options).(finish := val)
      ensures renderedDimensions == old(renderedDimensions) && renderedPosition == old(renderedPosition)
    {
      if catalog.name == "material" {
        options := options.(material := val);
      } else {
        options := options.(finish := val);
      }
    }

    /** `onDragStop`: the image moved. */
    method DragStop(x: real, y: real)
      modifies this
      ensures renderedPosition == Position(x, y)
      ensures options == old(options) && renderedDimensions == old(renderedDimensions)
    {
      renderedPosition := Position(x, y);
    }

    /** `onResizeStop`: the new size is read back from the element's CSS lengths. */
    method ResizeStop(styleWidth: string, styleHeight: string, x: real, y: real)
      modifies this
      ensures renderedDimensions == Dimensions(PxValue(styleWidth), PxValue(styleHeight))
      ensures renderedPosition == Position(x, y)
      ensures options == old(options)
    {
      renderedDimensions := Dimensions(PxValue(styleWidth), PxValue(styleHeight));
      renderedPosition := Position(x, y);
    }

    /**
     * The geometry of `saveConfiguration`: a canvas the size of the case, cut to
     * whole pixels, with the image drawn at its case-local corner and its rendered
     * size. When a box cannot be measured (a ref not mounted), the snapshot and the
     * upload are abandoned: `saveConfiguration` catches the error itself, shows a
     * toast and returns normally, so the options are still saved and the flow moves on.
     */
    method Snapshot(caseBox: Option<Rect>, containerBox: Option<Rect>) returns (call: Option<DrawCall>)
      ensures call.Some? <==> caseBox.Some? && containerBox.Some?
      ensures call.Some? ==>
        && call.value.canvasWidth == CanvasDimension(caseBox.value.width, DEFAULT_CANVAS_WIDTH)
        && call.value.canvasHeight == CanvasDimension(caseBox.value.height, DEFAULT_CANVAS_HEIGHT)
        && caseBox.value.left + call.value.at.x == containerBox.value.left + renderedPosition.x
        && caseBox.value.top + call.value.at.y == containerBox.value.top + renderedPosition.y
        && call.value.size == renderedDimensions
    {
      if caseBox.None? || containerBox.None? {
        return None;
      }
      var at := CaseLocal(renderedPosition, caseBox.value, containerBox.value);
      call := Some(DrawCall(CanvasDimension(caseBox.value.width, DEFAULT_CANVAS_WIDTH),
                            CanvasDimension(caseBox.value.height, DEFAULT_CANVAS_HEIGHT),
                            at, renderedDimensions));
    }

    /** The argument of `saveConfig` on "Continue". */
    function Payload(): (args: SaveConfigArgs)
      reads this
      requires Valid()
      ensures SelectionOf(args) == Some(options)
    {
      PayloadDeterminesSelection(configId, options);
      SavePayload(configId, options)
    }
  }
}
