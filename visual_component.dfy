/** The style-backed property facade of a visual component. Every style
    property of the component reads or writes one typed key of the
    component's own style; that style is created on first write, with the
    direct-style priority, and a property with no stored value reads its
    fixed default. */
module Components {
  import opened Wrappers
  import opened StyleValues
  import opened PDFStyles

  /** The keys the component exposes as properties (the background position
      has no component property). */
  type ComponentKey = k: StyleKey | k != BgXPosKey && k != BgYPosKey witness PositionXKey

  /** The string properties whose setters remove the key on null or "". */
  type StringKey = k: ComponentKey | k == BgImgSrcKey || k == FillImgSrcKey || k == FontFamilyKey
    witness BgImgSrcKey

  /** The dash properties whose setters remove the key on null. */
  type DashKey = k: ComponentKey | k == BorderDashKey || k == StrokeDashKey witness BorderDashKey

  /** The default of each value type: zero for lengths (`Unit.Zero`, and
      `Unit.Empty`, its equal), transparent for colours, "" for text, full
      opacity, all four border sides, one column, and the first member of
      every enumeration. */
  function KindDefault(kind: Kind): (r: StyleValue)
    ensures !r.Expr? && KindOf(r) == kind
  {
    match kind
    case UnitKind => UnitVal(Zero)
    case ColorKind => ColorVal(Transparent)
    case StringKind => StrVal("")
    case RepeatKind => RepeatVal(RepeatBoth)
    case RealKind => RealVal(1.0)
    case DashKind => DashVal(NoDash)
    case SidesKind => SidesVal({Top, Right, Bottom, Left})
    case LineKind => LineVal(NoLine)
    case BoolKind => BoolVal(false)
    case IntKind => IntVal(1)
    case HAlignKind => HAlignVal(HLeft)
    case VAlignKind => VAlignVal(VTop)
    case ModeKind => ModeVal(Block)
    case WrapKind => WrapVal(WrapAuto)
    case DecorationKind => DecorationVal(NoDecoration)
    case DirectionKind => DirectionVal(LTR)
    case SplitKind => SplitVal(SplitAny)
    case WidthsKind => WidthsVal([])
  }

  /** The value each property reads when its key is not stored: the default
      of its type, except the column alley width, which reads `alleyWidth`
      (the columns style's own default), and the background and fill
      opacities, which read 0. */
  function DefaultOf(k: ComponentKey, alleyWidth: Unit): (r: StyleValue)
    ensures !r.Expr? && KindOf(r) == KeyKind(k)
  {
    if k == ColumnAlleyKey then UnitVal(alleyWidth)
    else if k == BgOpacityKey || k == FillOpacityKey then RealVal(0.0)
    else KindDefault(KeyKind(k))
  }

  /** The text properties read "" by default. */
  lemma StringDefault(k: StringKey, alleyWidth: Unit)
    ensures DefaultOf(k, alleyWidth) == StrVal("")
  {
    assert KeyKind(k) == StringKind;
  }

  /** The dash properties read no dash by default. */
  lemma DashDefault(k: DashKey, alleyWidth: Unit)
    ensures DefaultOf(k, alleyWidth) == DashVal(NoDash)
  {
    assert KeyKind(k) == DashKind;
  }

  /** What a property reads from a store: the stored value, else the default. */
  function ReadValue(store: Store, k: ComponentKey, alleyWidth: Unit): StyleValue {
    if k in store then store[k] else DefaultOf(k, alleyWidth)
  }

  /** What `DoDataBind` does, in order. */
  datatype ComponentBindStep =
    | StyleDataBound(context: DataContext)
    | BaseDoDataBind(context: DataContext, includeChildren: bool)

  class VisualComponent {
    /** The component's own style; null until first written. */
    var style: Style?
    const defaultAlleyWidth: Unit
    /** The title of the component's outline; `None` when it has no outline. */
    var outlineTitle: Option<NString>
    var bindTrace: seq<ComponentBindStep>

    /** The style, when present, keeps its cache invariant and stores only
        values of each key's type (or binding expressions). */
    ghost predicate Valid()
      reads this`style, style
    {
      style != null ==> style.Valid() && WellTypedStore(style.values)
    }

    constructor (defaultAlleyWidth: Unit)
      ensures Valid() && style == null && outlineTitle == None && bindTrace == []
      ensures this.defaultAlleyWidth == defaultAlleyWidth
    {
      style := null;
      this.defaultAlleyWidth := defaultAlleyWidth;
      outlineTitle := None;
      bindTrace := [];
    }

    /** The values of the component's style; empty while there is none. */
    function StoreOf(): (r: Store)
      reads this`style, style
      ensures style == null ==> r == map[]
    {
      if style == null then map[] else style.values
    }

    /** `HasStyle`: a style exists and holds at least one value. */
    predicate HasStyle()
      reads this`style, style
      ensures HasStyle() <==> StoreOf() != map[]
    {
      style != null && style.HasValues()
    }

    /** The getter of a property: the stored value, else the default. A
        function: reading a property never creates the style. */
    function Get(k: ComponentKey): (r: StyleValue)
      reads this`style, style
      ensures !HasStyle() ==> r == DefaultOf(k, defaultAlleyWidth)
      ensures r == ReadValue(StoreOf(), k, defaultAlleyWidth)
      ensures Valid() ==> WellTyped(k, r)
    {
      if HasStyle() && style.TryGetValue(k).Some? then style.TryGetValue(k).value
      else DefaultOf(k, defaultAlleyWidth)
    }

    /** `HasX`, `HasWidth`, ...: the key is stored. */
    predicate Has(k: ComponentKey)
      reads this`style, style
      ensures Has(k) <==> k in StoreOf()
    {
      HasStyle() && style.TryGetValue(k).Some?
    }

    /** The `Style` getter: creates the style on first use, with the
        direct-style priority, and returns the same style afterwards. */
    method GetStyle() returns (s: Style)
      requires Valid()
      modifies this`style
      ensures Valid() && style == s
      ensures old(style) != null ==> s == old(style)
      ensures old(style) == null ==>
                fresh(s) && s.priority == DirectStylePriority && s.values == map[] && s.cache == map[]
                && s.getOrCreateCalls == [] && s.bindLog == []
    {
      if style == null {
        var created := new Style();
        created.SetPriority(DirectStylePriority);
        style := created;
      }
      s := style;
    }

    /** The `Style` setter. */
    method SetStyle(s: Style?)
      requires s != null ==> s.Valid() && WellTypedStore(s.values)
      modifies this`style
      ensures style == s && Valid()
    {
      style := s;
    }

    /** The typed setter of a property: the style (created if need be)
        stores the value under the key, and nothing else about it changes. */
    method Set(k: ComponentKey, v: StyleValue)
      requires Valid() && !v.Expr? && KindOf(v) == KeyKind(k)
      modifies this`style, style
      ensures Valid() && style != null
      ensures old(style) != null ==> style == old(style) && unchanged(style`priority, style`id, style`cache, style`getOrCreateCalls, style`inner, style`bindLog)
      ensures old(style) == null ==> fresh(style) && style.priority == DirectStylePriority
      ensures StoreOf() == old(StoreOf())[k := v]
    {
      var s := GetStyle();
      WellTypedStoreUpdate(s.values, k, v);
      s.SetValue(k, v);
    }

    /** `Style.RemoveValue` through the `Style` getter: the style (created if
        need be) no longer stores the key. */
    method Remove(k: ComponentKey)
      requires Valid()
      modifies this`style, style
      ensures Valid() && style != null
      ensures old(style) != null ==> style == old(style) && unchanged(style`priority, style`id, style`cache, style`getOrCreateCalls, style`inner, style`bindLog)
      ensures old(style) == null ==> fresh(style) && style.priority == DirectStylePriority
      ensures StoreOf() == old(StoreOf()) - {k}
    {
      var s := GetStyle();
      WellTypedStoreRemove(s.values, k);
      s.RemoveValue(k);
    }

    /** `BackgroundImage`, `FillImage`, `FontFamily` setters: null or ""
        removes the key instead of storing an empty string, so the property
        reads "" either way. */
    method SetString(k: StringKey, value: NString)
      requires Valid()
      modifies this`style, style
      ensures Valid() && style != null
      ensures old(style) != null ==> style == old(style) && unchanged(style`priority, style`id, style`cache, style`getOrCreateCalls, style`inner, style`bindLog)
      ensures old(style) == null ==> fresh(style) && style.priority == DirectStylePriority
      ensures StoreOf() == if IsNullOrEmpty(value) then old(StoreOf()) - {k} else old(StoreOf())[k := StrVal(value.value)]
      ensures Get(k) == StrVal(value.GetOr(""))
    {
      if IsNullOrEmpty(value) {
        StringDefault(k, defaultAlleyWidth);
        Remove(k);
      } else {
        Set(k, StrVal(value.value));
      }
    }

    /** `BorderDashPattern`, `StrokeDashPattern` setters: null removes the
        key, which then reads as no dash. */
    method SetDash(k: DashKey, value: Option<Dash>)
      requires Valid()
      modifies this`style, style
      ensures Valid() && style != null
      ensures old(style) != null ==> style == old(style) && unchanged(style`priority, style`id, style`cache, style`getOrCreateCalls, style`inner, style`bindLog)
      ensures old(style) == null ==> fresh(style) && style.priority == DirectStylePriority
      ensures StoreOf() == if value.None? then old(StoreOf()) - {k} else old(StoreOf())[k := DashVal(value.value)]
      ensures Get(k) == DashVal(value.GetOr(NoDash))
    {
      if value.None? {
        DashDefault(k, defaultAlleyWidth);
        Remove(k);
      } else {
        Set(k, DashVal(value.value));
      }
    }

    /** `StrokeColor` setter: null removes the key, which then reads transparent. */
    method SetStrokeColor(value: Option<Color>)
      requires Valid()
      modifies this`style, style
      ensures Valid() && style != null
      ensures old(style) != null ==> style == old(style) && unchanged(style`priority, style`id, style`cache, style`getOrCreateCalls, style`inner, style`bindLog)
      ensures old(style) == null ==> fresh(style) && style.priority == DirectStylePriority
      ensures StoreOf() == if value.None? then old(StoreOf()) - {StrokeColorKey} else old(StoreOf())[StrokeColorKey := ColorVal(value.value)]
      ensures Get(StrokeColorKey) == ColorVal(value.GetOr(Transparent))
    {
      if value.None? {
        assert DefaultOf(StrokeColorKey, defaultAlleyWidth) == ColorVal(Transparent);
        Remove(StrokeColorKey);
      } else {
        Set(StrokeColorKey, ColorVal(value.value));
      }
    }

    /** `StrokeOpacity` setter: through the style's stroke item, which is
        fetched (and cached on first use) before the value is stored. */
    method SetStrokeOpacity(opacity: real)
      requires Valid()
      modifies this`style, style
      ensures Valid() && style != null
      ensures old(style) != null ==> style == old(style) && unchanged(style`priority, style`id, style`inner, style`bindLog)
      ensures old(style) == null ==> fresh(style) && style.priority == DirectStylePriority
      ensures StoreOf() == old(StoreOf())[StrokeOpacityKey := RealVal(opacity)]
      ensures old(style) != null ==> style.cache.Keys == old(style.cache.Keys) + {StrokeItemKey}
      ensures old(style) != null ==> forall i :: i in old(style.cache) ==> style.cache[i] == old(style.cache[i])
      ensures old(style) == null ==> style.cache.Keys == {StrokeItemKey}
    {
      var s := GetStyle();
      WellTypedStoreUpdate(s.values, StrokeOpacityKey, RealVal(opacity));
      s.SetThroughItem(StrokeItemKey, StrokeOpacityKey, RealVal(opacity));
    }

    /** `Margins` and `Padding` getters: an empty thickness while the
        component has no style values, else the thickness the style builds
        (`create` stands for the style's `CreateMarginsThickness` or
        `CreatePaddingThickness`). */
    function SpacingOf(create: Store -> Thickness): (r: Thickness)
      reads this`style, style
      ensures !HasStyle() ==> r == EmptyThickness()
      ensures HasStyle() ==> r == create(StoreOf())
    {
      if HasStyle() then create(style.values) else EmptyThickness()
    }

    /** `HasOutline`. */
    predicate HasOutline()
      reads this`outlineTitle
    {
      outlineTitle.Some?
    }

    /** The `OutlineTitle` getter: "" without an outline. */
    function OutlineTitle(): (r: NString)
      reads this`outlineTitle
      ensures !HasOutline() ==> r == Some("")
    {
      if HasOutline() then outlineTitle.value else Some("")
    }

    /** The `OutlineTitle` setter: a null or empty title on a component
        without an outline changes nothing; otherwise the outline (created
        if need be) takes the title. */
    method SetOutlineTitle(value: NString)
      modifies this`outlineTitle
      ensures !old(HasOutline()) && IsNullOrEmpty(value) ==> outlineTitle == old(outlineTitle)
      ensures old(HasOutline()) || !IsNullOrEmpty(value) ==> HasOutline() && OutlineTitle() == value
    {
      if !HasOutline() && IsNullOrEmpty(value) {
        return;
      }
      outlineTitle := Some(value);
    }

    /** `DoDataBind`: the style is bound first, only when children are
        included and the component has style values; then the base binding runs. */
    method DoDataBind(context: DataContext, includeChildren: bool)
      modifies this`bindTrace, style
      ensures style == old(style)
      ensures style != null ==> unchanged(style`values, style`priority, style`id, style`cache, style`getOrCreateCalls, style`inner)
      ensures bindTrace == old(bindTrace)
              + (if includeChildren && old(HasStyle()) then [StyleDataBound(context)] else [])
              + [BaseDoDataBind(context, includeChildren)]
      ensures includeChildren && old(HasStyle()) ==>
                style.bindLog == old(style.bindLog)
                  + [DataBindingRaised(context), DoDataBindCalled(context, true), DataBoundRaised(context)]
      ensures !(includeChildren && old(HasStyle())) && style != null ==> style.bindLog == old(style.bindLog)
    {
      if includeChildren && HasStyle() {
        style.DataBind(context);
        bindTrace := bindTrace + [StyleDataBound(context)];
      }
      bindTrace := bindTrace + [BaseDoDataBind(context, includeChildren)];
    }
  }

  /** After a write, the written property reads the new value and every other
      property reads as before. */
  lemma ReadAfterWrite(store: Store, k: ComponentKey, v: StyleValue, alleyWidth: Unit)
    ensures ReadValue(store[k := v], k, alleyWidth) == v
    ensures forall j: ComponentKey :: j != k ==> ReadValue(store[k := v], j, alleyWidth) == ReadValue(store, j, alleyWidth)
  {
  }

  /** After a removal, the removed property reads its default and every other
      property reads as before. */
  lemma ReadAfterRemove(store: Store, k: ComponentKey, alleyWidth: Unit)
    ensures ReadValue(store - {k}, k, alleyWidth) == DefaultOf(k, alleyWidth)
    ensures forall j: ComponentKey :: j != k ==> ReadValue(store - {k}, j, alleyWidth) == ReadValue(store, j, alleyWidth)
  {
  }

  /** Set then get: a well-typed value written to any property is read back,
      and its `Has` flag turns on. */
  method SetThenGet(c: VisualComponent, k: ComponentKey, v: StyleValue) returns (read: StyleValue, has: bool)
    requires c.Valid() && !v.Expr? && KindOf(v) == KeyKind(k)
    modifies c`style, c.style
    ensures read == v && has
  {
    c.Set(k, v);
    ReadAfterWrite(old(c.StoreOf()), k, v, c.defaultAlleyWidth);
    read := c.Get(k);
    has := c.Has(k);
  }
}
