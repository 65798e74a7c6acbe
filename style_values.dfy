/** The value types shared by the style layer: units, colours, the style keys
    of the keyed value store, and the typed values stored under them. */
module StyleValues {

  /** The unit tag of a length. Every length the CSS parsers produce is in points. */
  datatype PageUnits = Points | Millimeters | Inches | Percent

  /** A length with its unit tag. Floating point is modelled by exact reals. */
  datatype Unit = Unit(value: real, units: PageUnits)

  /** `Unit.Zero`. */
  const Zero: Unit := Unit(0.0, Points)

  /** `Unit.Empty`, the default value of the struct: zero points, as `Zero`. */
  const Empty: Unit := Unit(0.0, Points)

  /** A colour; `Transparent` is the default of every colour property. */
  datatype Color = Transparent | Rgb(red: real, green: real, blue: real)

  /** A dash pattern; `NoDash` is `PDFDash.None`. */
  datatype Dash = NoDash | Pattern(segments: seq<nat>, phase: nat)

  datatype Side = Top | Right | Bottom | Left
  datatype PatternRepeat = RepeatBoth | RepeatX | RepeatY | RepeatNone | Fill
  datatype LineType = NoLine | Solid | Dashed
  datatype HorizontalAlignment = HLeft | HCenter | HRight | HJustified
  datatype VerticalAlignment = VTop | VMiddle | VBottom
  datatype PositionMode = Block | Inline | Relative | Absolute
  datatype WordWrap = WrapAuto | NoWrap | CharacterWrap
  datatype TextDecoration = NoDecoration | Underline | StrikeThrough | Overline
  datatype TextDirection = LTR | RTL
  datatype OverflowSplit = SplitAny | SplitNever

  /** Four-sided spacing, always packed as (Top, Right, Bottom, Left). */
  datatype Thickness = Thickness(top: Unit, right: Unit, bottom: Unit, left: Unit)

  /** `Thickness.Empty()` */
  function EmptyThickness(): Thickness {
    Thickness(Empty, Empty, Empty, Empty)
  }

  /** `new Thickness(all)`: the same value on every side. */
  function UniformThickness(all: Unit): Thickness {
    Thickness(all, all, all, all)
  }

  /** The typed keys of the style value store. */
  datatype StyleKey =
    | PositionXKey | PositionYKey
    | SizeWidthKey | SizeHeightKey
    | SizeMinimumWidthKey | SizeMinimumHeightKey | SizeMaximumWidthKey | SizeMaximumHeightKey
    | BgColorKey | BgImgSrcKey | BgRepeatKey | BgOpacityKey | BgXPosKey | BgYPosKey
    | BorderWidthKey | BorderColorKey | BorderDashKey | BorderOpacityKey | BorderSidesKey
    | BorderCornerRadiusKey | BorderStyleKey
    | FillColorKey | FillImgSrcKey | FillRepeatKey | FillOpacityKey
    | StrokeWidthKey | StrokeColorKey | StrokeDashKey | StrokeOpacityKey
    | FontFamilyKey | FontSizeKey | FontBoldKey | FontItalicKey
    | PositionHAlignKey | PositionVAlignKey | PositionModeKey | SizeFullWidthKey
    | ColumnCountKey | ColumnAlleyKey | ColumnWidthKey
    | TextWordWrapKey | TextLeadingKey | TextDecorationKey | TextCharSpacingKey
    | TextWordSpacingKey | TextHorizontalScaling | TextFirstLineIndentKey | TextDirectionKey
    | OverflowSplitKey | PageBreakBeforeKey | PageBreakAfterKey
    | ColumnBreakBeforeKey | ColumnBreakAfterKey

  /** The keys of the style items (the groups a style is viewed through). */
  datatype ItemKey =
    | BgItemKey | PaddingItemKey | MarginsItemKey | FontItemKey | FillItemKey
    | ColumnItemKey | OverflowItemKey | PositionItemKey | SizeItemKey | ClipItemKey
    | BorderItemKey | StrokeItemKey | TextItemKey | ListItemKey | ModifyPageItemKey
    | OutlineItemKey | OverlayItemKey | PageItemKey | ShapeItemKey | TableItemKey

  /** The type a key's values have. */
  datatype Kind =
    | UnitKind | ColorKind | StringKind | RepeatKind | RealKind | DashKind | SidesKind
    | LineKind | BoolKind | IntKind | HAlignKind | VAlignKind | ModeKind | WrapKind
    | DecorationKind | DirectionKind | SplitKind | WidthsKind

  /** One value in the store. `Expr` is a value whose content is a binding
      expression (`var(...)`, `calc(...)`), evaluated when the style is data bound. */
  datatype StyleValue =
    | UnitVal(u: Unit)
    | ColorVal(c: Color)
    | StrVal(s: string)
    | RepeatVal(repeat: PatternRepeat)
    | RealVal(r: real)
    | DashVal(dash: Dash)
    | SidesVal(sides: set<Side>)
    | LineVal(line: LineType)
    | BoolVal(b: bool)
    | IntVal(i: int)
    | HAlignVal(h: HorizontalAlignment)
    | VAlignVal(v: VerticalAlignment)
    | ModeVal(mode: PositionMode)
    | WrapVal(wrap: WordWrap)
    | DecorationVal(decoration: TextDecoration)
    | DirectionVal(direction: TextDirection)
    | SplitVal(split: OverflowSplit)
    | WidthsVal(widths: seq<real>)
    | Expr(expression: string)

  /** The keyed value store of one style. */
  type Store = map<StyleKey, StyleValue>

  function KindOf(v: StyleValue): Kind
    requires !v.Expr?
  {
    match v
    case UnitVal(_) => UnitKind
    case ColorVal(_) => ColorKind
    case StrVal(_) => StringKind
    case RepeatVal(_) => RepeatKind
    case RealVal(_) => RealKind
    case DashVal(_) => DashKind
    case SidesVal(_) => SidesKind
    case LineVal(_) => LineKind
    case BoolVal(_) => BoolKind
    case IntVal(_) => IntKind
    case HAlignVal(_) => HAlignKind
    case VAlignVal(_) => VAlignKind
    case ModeVal(_) => ModeKind
    case WrapVal(_) => WrapKind
    case DecorationVal(_) => DecorationKind
    case DirectionVal(_) => DirectionKind
    case SplitVal(_) => SplitKind
    case WidthsVal(_) => WidthsKind
  }

  /** The declared value type of each key (the `T` of `StyleKey<T>`). */
  function KeyKind(k: StyleKey): Kind {
    match k
    case PositionXKey | PositionYKey | SizeWidthKey | SizeHeightKey
      | SizeMinimumWidthKey | SizeMinimumHeightKey | SizeMaximumWidthKey | SizeMaximumHeightKey
      | BgXPosKey | BgYPosKey | BorderWidthKey | BorderCornerRadiusKey | StrokeWidthKey
      | FontSizeKey | ColumnAlleyKey | TextLeadingKey | TextCharSpacingKey
      | TextWordSpacingKey | TextFirstLineIndentKey => UnitKind
    case BgColorKey | BorderColorKey | FillColorKey | StrokeColorKey => ColorKind
    case BgImgSrcKey | FillImgSrcKey | FontFamilyKey => StringKind
    case BgRepeatKey | FillRepeatKey => RepeatKind
    case BgOpacityKey | BorderOpacityKey | FillOpacityKey | StrokeOpacityKey
      | TextHorizontalScaling => RealKind
    case BorderDashKey | StrokeDashKey => DashKind
    case BorderSidesKey => SidesKind
    case BorderStyleKey => LineKind
    case FontBoldKey | FontItalicKey | SizeFullWidthKey | PageBreakBeforeKey
      | PageBreakAfterKey | ColumnBreakBeforeKey | ColumnBreakAfterKey => BoolKind
    case ColumnCountKey => IntKind
    case PositionHAlignKey => HAlignKind
    case PositionVAlignKey => VAlignKind
    case PositionModeKey => ModeKind
    case TextWordWrapKey => WrapKind
    case TextDecorationKey => DecorationKind
    case TextDirectionKey => DirectionKind
    case OverflowSplitKey => SplitKind
    case ColumnWidthKey => WidthsKind
  }

  /** A value may be stored under a key: it has the key's type, or it is a
      binding expression that will produce one. */
  predicate WellTyped(k: StyleKey, v: StyleValue) {
    v.Expr? || KindOf(v) == KeyKind(k)
  }

  /** Every value of the store may be stored under its key. */
  predicate WellTypedStore(store: Store) {
    forall k :: k in store ==> WellTyped(k, store[k])
  }

  /** Storing a well-typed value keeps the store well typed. */
  lemma WellTypedStoreUpdate(store: Store, k: StyleKey, v: StyleValue)
    requires WellTypedStore(store) && WellTyped(k, v)
    ensures WellTypedStore(store[k := v])
  {
  }

  /** Removing a key keeps the store well typed. */
  lemma WellTypedStoreRemove(store: Store, k: StyleKey)
    requires WellTypedStore(store)
    ensures WellTypedStore(store - {k})
  {
  }
}
