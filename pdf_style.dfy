/** PDFStyle: a style scope holding the keyed value store, lazily cached item
    views over it, an id, lazily created inner styles, the data-binding
    sequence and the `Parse` loop that builds a style from declarations. */
module PDFStyles {
  import opened Wrappers
  import opened StyleValues
  import opened StyleReader

  /** Rank of a style in the cascade; a component's own style is `DirectStylePriority`. */
  datatype Priority = DefaultPriority | DirectStylePriority | Ranked(rank: int)

  /** The data context a style is bound against (opaque here). */
  datatype DataContext = DataContext(id: nat)

  /** The observable steps of data binding, in the order they happen. */
  datatype BindStep =
    | DataBindingRaised(context: DataContext)
    | DoDataBindCalled(context: DataContext, includeChildren: bool)
    | DataBoundRaised(context: DataContext)

  /** An error raised while creating a graphic object from a style. */
  datatype Exception =
    | LibraryException(message: string)
    | PDFException(graphicObject: string, causeMessage: string, inner: Exception)
  {
    function Message(): string {
      match this
      case LibraryException(m) => m
      case PDFException(g, c, _) => g + ": " + c
    }
  }

  /** A pen created from the stroke values of a style (opaque here). */
  datatype Pen = Pen(color: Color, width: Unit)

  /** A style item: a view, keyed by its group, over the values of its style. */
  class StyleItem {
    const itemKey: ItemKey

    constructor (k: ItemKey)
      ensures itemKey == k
    {
      itemKey := k;
    }
  }

  /** The collection of inner (selector-qualified) styles of a style. */
  class StyleCollection {
    var styles: seq<Style>

    constructor ()
      ensures styles == []
    {
      styles := [];
    }

    function Count(): nat
      reads this
    {
      |styles|
    }
  }

  class Style {
    /** The keyed value store. */
    var values: Store
    var priority: Priority
    /** The `_id` field; `None` is `null`. */
    var id: NString
    /** The cached item fields `_bg`, `_padding`, `_margins`, ..., keyed by item. */
    var cache: map<ItemKey, StyleItem>
    /** Every call made to `GetOrCreateItem`, in order. */
    ghost var getOrCreateCalls: seq<ItemKey>
    /** The `_inner` field. */
    var inner: StyleCollection?
    /** What data binding has done so far. */
    var bindLog: seq<BindStep>

    /** The item cache and the calls that filled it agree: one call per cached item. */
    ghost predicate Valid()
      reads this`cache, this`getOrCreateCalls
    {
      && (forall i, j :: 0 <= i < j < |getOrCreateCalls| ==> getOrCreateCalls[i] != getOrCreateCalls[j])
      && (forall k :: k in cache <==> k in getOrCreateCalls)
      && (forall k :: k in cache ==> cache[k].itemKey == k)
    }

    constructor ()
      ensures Valid()
      ensures values == map[] && priority == DefaultPriority && id == None
      ensures cache == map[] && getOrCreateCalls == [] && inner == null && bindLog == []
    {
      values := map[];
      priority := DefaultPriority;
      id := None;
      cache := map[];
      getOrCreateCalls := [];
      inner := null;
      bindLog := [];
    }

    /** `HasValues`: at least one key is set. */
    predicate HasValues()
      reads this`values
      ensures HasValues() <==> values != map[]
    {
      |values| > 0
    }

    /** `TryGetValue` */
    function TryGetValue(k: StyleKey): (r: Option<StyleValue>)
      reads this`values
      ensures r.Some? <==> k in values
      ensures r.Some? ==> r.value == values[k]
    {
      if k in values then Some(values[k]) else None
    }

    method SetPriority(p: Priority)
      modifies this`priority
      ensures priority == p
    {
      priority := p;
    }

    method SetValue(k: StyleKey, v: StyleValue)
      modifies this`values
      ensures values == old(values)[k := v]
    {
      values := values[k := v];
    }

    method RemoveValue(k: StyleKey)
      modifies this`values
      ensures values == old(values) - {k}
    {
      values := values - {k};
    }

    /** The item accessors (`Background`, `Padding`, `Margins`, `Font`, ...):
        the first read asks `GetOrCreateItem` for the item and caches it; every
        later read returns the cached item itself. */
    method Item(k: ItemKey) returns (item: StyleItem)
      requires Valid()
      modifies this`cache, this`getOrCreateCalls
      ensures Valid()
      ensures item.itemKey == k && k in cache && cache[k] == item
      ensures k in old(cache) ==> item == old(cache[k]) && cache == old(cache)
                                  && getOrCreateCalls == old(getOrCreateCalls)
      ensures k !in old(cache) ==> fresh(item) && cache == old(cache)[k := item]
                                   && getOrCreateCalls == old(getOrCreateCalls) + [k]
    {
      if k !in cache {
        item := GetOrCreateItem(k);
        cache := cache[k := item];
      } else {
        item := cache[k];
      }
    }

    /** A property written through an item accessor (`Stroke.Opacity = v`, ...):
        the item is fetched, and cached on first use, before the value is stored. */
    method SetThroughItem(item: ItemKey, k: StyleKey, v: StyleValue)
      requires Valid()
      modifies this`values, this`cache, this`getOrCreateCalls
      ensures Valid() && values == old(values)[k := v]
      ensures item in cache && cache.Keys == old(cache.Keys) + {item}
      ensures forall i :: i in old(cache) ==> cache[i] == old(cache[i])
    {
      var viewed := Item(item);
      SetValue(k, v);
    }

    /** Reads the item accessors `keys`, in order: each item is cached on its
        first read, and the items cached before are kept. */
    method FetchItems(keys: seq<ItemKey>)
      requires Valid()
      modifies this`cache, this`getOrCreateCalls
      ensures Valid() && cache.Keys == old(cache.Keys) + ItemKeys(keys)
      ensures forall i :: i in old(cache) ==> cache[i] == old(cache[i])
    {
      var n := 0;
      while n < |keys|
        invariant 0 <= n <= |keys| && Valid()
        invariant cache.Keys == old(cache.Keys) + ItemKeys(keys[..n])
        invariant forall i :: i in old(cache) ==> i in cache && cache[i] == old(cache[i])
      {
        var viewed := Item(keys[n]);
        assert keys[..n + 1] == keys[..n] + [keys[n]];
        n := n + 1;
      }
      assert keys[..n] == keys;
    }

    /** One parser run on this style: the items it read are cached, and the
        style is left with the values the run produced. */
    method TakeStep(step: ParseStep)
      requires Valid()
      modifies this`values, this`cache, this`getOrCreateCalls
      ensures Valid() && values == step.store
      ensures cache.Keys == old(cache.Keys) + ItemKeys(step.fetched)
    {
      FetchItems(step.fetched);
      values := step.store;
    }

    method GetOrCreateItem(k: ItemKey) returns (item: StyleItem)
      requires k !in getOrCreateCalls
      modifies this`getOrCreateCalls
      ensures fresh(item) && item.itemKey == k
      ensures getOrCreateCalls == old(getOrCreateCalls) + [k]
    {
      item := new StyleItem(k);
      getOrCreateCalls := getOrCreateCalls + [k];
    }

    /** The `ID` getter: a null or empty id reads, and is stored, as "". */
    method GetID() returns (r: string)
      modifies this`id
      ensures r == if IsNullOrEmpty(old(id)) then "" else old(id).value
      ensures id == Some(r)
    {
      if IsNullOrEmpty(id) {
        id := Some("");
      }
      r := id.value;
    }

    method SetID(v: NString)
      modifies this`id
      ensures id == v
    {
      id := v;
    }

    /** The `InnerStyles` getter never answers null: it creates an empty
        collection when there is none, even after it was set to null. */
    method InnerStyles() returns (c: StyleCollection)
      modifies this`inner
      ensures inner == c
      ensures old(inner) != null ==> c == old(inner)
      ensures old(inner) == null ==> fresh(c) && c.styles == []
      ensures HasInnerStyles() == old(HasInnerStyles())
    {
      if inner == null {
        inner := new StyleCollection();
      }
      c := inner;
    }

    method SetInnerStyles(c: StyleCollection?)
      modifies this`inner
      ensures inner == c
    {
      inner := c;
    }

    /** `HasInnerStyles`: a function, so it cannot create the collection; a
        missing or an empty collection both answer false. */
    predicate HasInnerStyles()
      reads this`inner, inner
      ensures inner == null ==> !HasInnerStyles()
      ensures HasInnerStyles() ==> inner.styles != []
    {
      inner != null && inner.Count() > 0
    }

    method OnDataBinding(context: DataContext)
      modifies this`bindLog
      ensures bindLog == old(bindLog) + [DataBindingRaised(context)]
    {
      bindLog := bindLog + [DataBindingRaised(context)];
    }

    method DoDataBind(context: DataContext, includeChildren: bool)
      modifies this`bindLog
      ensures bindLog == old(bindLog) + [DoDataBindCalled(context, includeChildren)]
    {
      bindLog := bindLog + [DoDataBindCalled(context, includeChildren)];
    }

    method OnDataBound(context: DataContext)
      modifies this`bindLog
      ensures bindLog == old(bindLog) + [DataBoundRaised(context)]
    {
      bindLog := bindLog + [DataBoundRaised(context)];
    }

    /** `DataBind`: the DataBinding event, then the binding of the style with
        its children, then the DataBound event. */
    method DataBind(context: DataContext)
      modifies this`bindLog
      ensures bindLog == old(bindLog) + [DataBindingRaised(context),
                                         DoDataBindCalled(context, true),
                                         DataBoundRaised(context)]
    {
      OnDataBinding(context);
      DoDataBind(context, true);
      OnDataBound(context);
    }

    /** `CreateStrokePen`: `doCreate` stands for `DoCreateStrokePen`, which
        reads the style's values; any exception it raises comes out wrapped
        in a `PDFException` whose inner exception is the original. */
    function CreateStrokePen(doCreate: Store -> Result<Option<Pen>, Exception>): (r: Result<Option<Pen>, Exception>)
      reads this`values
      ensures doCreate(values).Success? ==> r == doCreate(values)
      ensures doCreate(values).Failure? ==>
                r.Failure? && r.error.PDFException? && r.error.inner == doCreate(values).error
                && r.error.graphicObject == "Stroke pen"
    {
      match doCreate(values)
      case Success(pen) => Success(pen)
      case Failure(ex) => Failure(PDFException("Stroke pen", ex.Message(), ex))
    }
  }

  /** The item keys of a run of item reads. */
  function ItemKeys(keys: seq<ItemKey>): set<ItemKey> {
    set k | k in keys
  }

  /** What the all-items parser does for one declaration: the values of the
      style afterwards, and the item accessors it read on the way, in order. */
  datatype ParseStep = ParseStep(store: Store, fetched: seq<ItemKey>)

  /** The values a style holds after the declarations `decls` were applied,
      one after another in order, starting from `start`; `applyItem` is what
      the all-items parser does for one declaration. */
  function ApplyAll(decls: seq<Declaration>, start: Store,
                    applyItem: (Declaration, Store) -> ParseStep): Store
    decreases |decls|
  {
    if decls == [] then start
    else ApplyAll(decls[1..], applyItem(decls[0], start).store, applyItem)
  }

  /** The items the parsers read while the declarations `decls` were applied. */
  function FetchedBy(decls: seq<Declaration>, start: Store,
                     applyItem: (Declaration, Store) -> ParseStep): set<ItemKey>
    decreases |decls|
  {
    if decls == [] then {}
    else ItemKeys(applyItem(decls[0], start).fetched)
         + FetchedBy(decls[1..], applyItem(decls[0], start).store, applyItem)
  }

  /** Applying a sequence and then one more declaration is applying the
      longer sequence, for the values and for the items read. */
  lemma {:induction false} ApplyAllSnoc(decls: seq<Declaration>, d: Declaration, start: Store,
                                        applyItem: (Declaration, Store) -> ParseStep)
    ensures ApplyAll(decls + [d], start, applyItem) == applyItem(d, ApplyAll(decls, start, applyItem)).store
    ensures FetchedBy(decls + [d], start, applyItem)
            == FetchedBy(decls, start, applyItem) + ItemKeys(applyItem(d, ApplyAll(decls, start, applyItem)).fetched)
    decreases |decls|
  {
    if decls == [] {
      assert decls + [d] == [d];
    } else {
      assert (decls + [d])[1..] == decls[1..] + [d];
      ApplyAllSnoc(decls[1..], d, applyItem(decls[0], start).store, applyItem);
    }
  }

  /** Applying two runs of declarations is applying the first, then the second. */
  lemma {:induction false} ApplyAllAppend(first: seq<Declaration>, second: seq<Declaration>, start: Store,
                                          applyItem: (Declaration, Store) -> ParseStep)
    ensures ApplyAll(first + second, start, applyItem)
            == ApplyAll(second, ApplyAll(first, start, applyItem), applyItem)
    decreases |first|
  {
    if first == [] {
      assert first + second == second;
    } else {
      assert (first + second)[1..] == first[1..] + second;
      ApplyAllAppend(first[1..], second, applyItem(first[0], start).store, applyItem);
    }
  }

  /** `PDFStyle.Parse`: a fresh style, and one parser run per declaration, in
      reader order, until the reader is exhausted; the style caches exactly
      the items the parsers read. */
  method Parse(decls: seq<Declaration>, applyItem: (Declaration, Store) -> ParseStep) returns (style: Style)
    ensures fresh(style) && style.Valid()
    ensures style.values == ApplyAll(decls, map[], applyItem)
    ensures style.cache.Keys == FetchedBy(decls, map[], applyItem)
    ensures style.priority == DefaultPriority && style.id == None
    ensures style.inner == null && style.bindLog == []
  {
    var reader := new CSSStyleItemReader(decls);
    style := new Style();
    var more := reader.ReadNextAttributeName();
    while more
      invariant fresh(reader) && reader.Valid() && reader.decls == decls
      invariant 0 <= reader.attr <= |decls|
      invariant more <==> reader.OnAttribute()
      invariant style.values == ApplyAll(decls[..reader.attr], map[], applyItem)
      invariant style.cache.Keys == FetchedBy(decls[..reader.attr], map[], applyItem)
      invariant fresh(style) && style.Valid()
      invariant style.priority == DefaultPriority && style.id == None
      invariant style.inner == null && style.bindLog == []
      decreases |decls| - reader.attr
    {
      var d := decls[reader.attr];
      ghost var done := decls[..reader.attr];
      ApplyAllSnoc(done, d, map[], applyItem);
      assert decls[..reader.attr + 1] == done + [d];
      style.TakeStep(applyItem(d, style.values));
      more := reader.ReadNextAttributeName();
    }
    assert decls[..reader.attr] == decls;
  }
}
