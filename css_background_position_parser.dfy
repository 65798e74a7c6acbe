/** The `background-position` parser: one or two value tokens become the
    horizontal and vertical position of the background pattern. A single
    value is used for both axes, and `var(...)`/`calc(...)` expressions are
    bound rather than parsed. */
module BackgroundPosition {
  import opened Wrappers
  import opened StyleValues
  import opened StyleReader
  import opened CSSParsing
  import PDFStyles

  /** What the parser does with the value tokens of one declaration: its
      result flag, the style values afterwards, how many tokens it read, and
      whether it went through the style's `Background` item (it does so for
      every unit position it stores). */
  datatype Outcome = Outcome(ok: bool, store: Store, consumed: nat, fetched: bool)

  /** Only the two position keys change. */
  predicate OnlyPositionChanged(before: Store, after: Store) {
    forall k :: k != BgXPosKey && k != BgYPosKey ==>
      (k in after <==> k in before) && (k in before ==> after[k] == before[k])
  }

  /** The vertical half of a plain leading value: `v` is bound when it is an
      expression and the horizontal value was set, parsed otherwise; the
      result is true only when both axes were set. The background item has
      been fetched when X was set or when Y is stored as a unit. */
  function PlainY(withX: Store, v: string, setX: bool, consumed: nat,
                  parseUnit: string -> Option<Unit>): (o: Outcome)
    ensures o.consumed == consumed
    ensures o.ok ==> setX
    ensures o.fetched <==> setX || (!IsExpression(v) && parseUnit(v).Some?)
    ensures o.store == withX || o.store.Keys == withX.Keys + {BgYPosKey}
    ensures OnlyPositionChanged(withX, o.store)
  {
    if IsExpression(v) then
      if setX then Outcome(true, withX[BgYPosKey := Expr(v)], consumed, true) else Outcome(false, withX, consumed, false)
    else match parseUnit(v)
      case Some(u) => Outcome(setX, withX[BgYPosKey := UnitVal(u)], consumed, true)
      case None => Outcome(false, withX, consumed, setX)
  }

  /** The parser on a token list; `parseUnit` stands for `Unit.TryParse`. */
  function SetPosition(tokens: seq<string>, store: Store, parseUnit: string -> Option<Unit>): (o: Outcome)
    ensures o.consumed <= |tokens| && o.consumed <= 2
    ensures |tokens| > 0 ==> o.consumed == if |tokens| >= 2 then 2 else 1
    ensures OnlyPositionChanged(store, o.store)
  {
    if |tokens| == 0 then Outcome(false, store, 0, false)
    else
      var h := tokens[0];
      if IsExpression(h) then
        if |tokens| >= 2 then
          var v := tokens[1];
          var withX := store[BgXPosKey := Expr(h)];
          if IsExpression(v) then Outcome(true, withX[BgYPosKey := Expr(v)], 2, false)
          else match parseUnit(v)
            case Some(u) => Outcome(true, withX[BgYPosKey := UnitVal(u)], 2, true)
            case None => Outcome(false, withX, 2, false)
        else Outcome(true, store[BgXPosKey := Expr(h)][BgYPosKey := Expr(h)], 1, false)
      else
        var consumed := if |tokens| >= 2 then 2 else 1;
        var v := if |tokens| >= 2 then tokens[1] else h;
        var setX := parseUnit(h).Some?;
        var withX := if setX then store[BgXPosKey := UnitVal(parseUnit(h).value)] else store;
        PlainY(withX, v, setX, consumed, parseUnit)
  }

  /** Without a value token the result is false and nothing changes. */
  lemma NoValueLeavesStyle(store: Store, parseUnit: string -> Option<Unit>)
    ensures SetPosition([], store, parseUnit) == Outcome(false, store, 0, false)
  {
  }

  /** A single plain value is used for both axes. */
  lemma SingleValueForBothAxes(h: string, store: Store, parseUnit: string -> Option<Unit>)
    requires !IsExpression(h)
    ensures var o := SetPosition([h], store, parseUnit);
            (o.ok <==> parseUnit(h).Some?) &&
            (parseUnit(h).Some? ==> o.store == store[BgXPosKey := UnitVal(parseUnit(h).value)]
                                                     [BgYPosKey := UnitVal(parseUnit(h).value)]) &&
            (parseUnit(h).None? ==> o.store == store)
  {
  }

  /** A single expression is bound to both axes. */
  lemma SingleExpressionForBothAxes(h: string, store: Store, parseUnit: string -> Option<Unit>)
    requires IsExpression(h)
    ensures SetPosition([h], store, parseUnit) ==
            Outcome(true, store[BgXPosKey := Expr(h)][BgYPosKey := Expr(h)], 1, false)
  {
  }

  /** A leading expression is always bound to X; Y is bound to a second
      expression or holds the parsed second unit, and the result is false
      exactly when the second token is neither. */
  lemma LeadingExpressionBindsX(tokens: seq<string>, store: Store, parseUnit: string -> Option<Unit>)
    requires |tokens| >= 2 && IsExpression(tokens[0])
    ensures var o := SetPosition(tokens, store, parseUnit);
            BgXPosKey in o.store && o.store[BgXPosKey] == Expr(tokens[0]) &&
            (!o.ok <==> !IsExpression(tokens[1]) && parseUnit(tokens[1]).None?) &&
            (IsExpression(tokens[1]) ==> o.store == store[BgXPosKey := Expr(tokens[0])][BgYPosKey := Expr(tokens[1])]) &&
            (!IsExpression(tokens[1]) && parseUnit(tokens[1]).Some? ==>
               o.store == store[BgXPosKey := Expr(tokens[0])][BgYPosKey := UnitVal(parseUnit(tokens[1]).value)]) &&
            (!IsExpression(tokens[1]) && parseUnit(tokens[1]).None? ==> o.store == store[BgXPosKey := Expr(tokens[0])])
  {
  }

  /** Two plain values that parse set X and Y, in that order. */
  lemma TwoUnits(h: string, v: string, store: Store, parseUnit: string -> Option<Unit>)
    requires !IsExpression(h) && !IsExpression(v) && parseUnit(h).Some? && parseUnit(v).Some?
    ensures SetPosition([h, v], store, parseUnit) ==
            Outcome(true, store[BgXPosKey := UnitVal(parseUnit(h).value)][BgYPosKey := UnitVal(parseUnit(v).value)], 2, true)
  {
  }

  /** A plain value that parses followed by a plain value that does not: X
      is set, Y is untouched and the result is false. */
  lemma UnitThenUnparsable(h: string, v: string, store: Store, parseUnit: string -> Option<Unit>)
    requires !IsExpression(h) && !IsExpression(v) && parseUnit(h).Some? && parseUnit(v).None?
    ensures SetPosition([h, v], store, parseUnit) ==
            Outcome(false, store[BgXPosKey := UnitVal(parseUnit(h).value)], 2, true)
  {
  }

  /** Tokens after the second are never read: the parser acts on the first
      two alone. */
  lemma ExtraTokensIgnored(tokens: seq<string>, store: Store, parseUnit: string -> Option<Unit>)
    requires |tokens| > 2
    ensures SetPosition(tokens, store, parseUnit) == SetPosition(tokens[..2], store, parseUnit)
  {
  }

  /** A plain value that parses followed by an expression: X is set and Y bound. */
  lemma UnitThenExpression(h: string, v: string, store: Store, parseUnit: string -> Option<Unit>)
    requires !IsExpression(h) && IsExpression(v) && parseUnit(h).Some?
    ensures SetPosition([h, v], store, parseUnit) ==
            Outcome(true, store[BgXPosKey := UnitVal(parseUnit(h).value)][BgYPosKey := Expr(v)], 2, true)
  {
  }

  /** A plain first token that does not parse: the result is false and X is
      untouched; a second expression is then not bound, but a second unit is
      still stored as Y. */
  lemma UnparsableFirstValue(tokens: seq<string>, store: Store, parseUnit: string -> Option<Unit>)
    requires |tokens| >= 2 && !IsExpression(tokens[0]) && parseUnit(tokens[0]).None?
    ensures var o := SetPosition(tokens, store, parseUnit);
            !o.ok &&
            (IsExpression(tokens[1]) ==> o.store == store) &&
            (!IsExpression(tokens[1]) && parseUnit(tokens[1]).Some? ==>
               o.store == store[BgYPosKey := UnitVal(parseUnit(tokens[1]).value)]) &&
            (!IsExpression(tokens[1]) && parseUnit(tokens[1]).None? ==> o.store == store)
  {
  }

  /** The result flag in full: true exactly when every token that was read
      was bound or parsed. */
  lemma SetFlagCharacterised(tokens: seq<string>, store: Store, parseUnit: string -> Option<Unit>)
    ensures var o := SetPosition(tokens, store, parseUnit);
            o.ok <==>
              |tokens| > 0 &&
              var second := if |tokens| >= 2 then tokens[1] else tokens[0];
              if IsExpression(tokens[0]) then
                |tokens| == 1 || IsExpression(second) || parseUnit(second).Some?
              else
                parseUnit(tokens[0]).Some? && (IsExpression(second) || parseUnit(second).Some?)
  {
  }

  /** `DoSetStyleValue`: reads up to two value tokens and stores or binds
      the two positions; the background item is fetched (and created and
      cached on first use) before a unit position is stored, and no other
      item is touched. */
  method DoSetStyleValue(style: PDFStyles.Style, reader: CSSStyleItemReader, parseUnit: string -> Option<Unit>)
    returns (applied: bool)
    requires style.Valid() && reader.Valid() && reader.OnAttribute()
    modifies style`values, style`cache, style`getOrCreateCalls, reader`valuePos
    ensures style.Valid() && reader.Valid()
    ensures var o := SetPosition(old(reader.Remaining()), old(style.values), parseUnit);
            applied == o.ok && style.values == o.store && reader.valuePos == old(reader.valuePos) + o.consumed
            && style.cache.Keys == old(style.cache.Keys) + (if o.fetched then {BgItemKey} else {})
    ensures forall k :: k in old(style.cache) ==> k in style.cache && style.cache[k] == old(style.cache[k])
  {
    ghost var tokens := reader.Remaining();
    var ok, h := reader.ReadNextValue();
    if ok {
      assert reader.Remaining() == tokens[1..];
      if IsExpression(h) {
        applied := ExpressionFirst(style, reader, h, tokens, parseUnit);
        return applied;
      } else {
        applied := UnitFirst(style, reader, h, tokens, parseUnit);
        return applied;
      }
    } else {
      return false;
    }
  }

  /** The branch of `DoSetStyleValue` for a leading expression `h`. */
  method ExpressionFirst(style: PDFStyles.Style, reader: CSSStyleItemReader, h: string,
                         ghost tokens: seq<string>, parseUnit: string -> Option<Unit>)
    returns (applied: bool)
    requires style.Valid() && reader.Valid() && reader.OnAttribute()
    requires |tokens| > 0 && tokens[0] == h && IsExpression(h) && reader.Remaining() == tokens[1..]
    modifies style`values, style`cache, style`getOrCreateCalls, reader`valuePos
    ensures style.Valid() && reader.Valid()
    ensures var o := SetPosition(tokens, old(style.values), parseUnit);
            applied == o.ok && style.values == o.store && reader.valuePos == old(reader.valuePos) + o.consumed - 1
            && style.cache.Keys == old(style.cache.Keys) + (if o.fetched then {BgItemKey} else {})
    ensures forall k :: k in old(style.cache) ==> k in style.cache && style.cache[k] == old(style.cache[k])
  {
    applied := true;
    var ok, v := reader.ReadNextValue();
    if ok {
      var boundX := AttachExpressionBindingHandler(style, BgXPosKey, h);
      applied := applied && boundX;
      if IsExpression(v) {
        var boundY := AttachExpressionBindingHandler(style, BgYPosKey, v);
        applied := applied && boundY;
      } else {
        var uv := parseUnit(v);
        if uv.Some? {
          var background := style.Item(BgItemKey);
          style.SetValue(BgYPosKey, UnitVal(uv.value));
        } else {
          applied := false;
        }
      }
    } else {
      var boundX := AttachExpressionBindingHandler(style, BgXPosKey, h);
      var both := boundX;
      if boundX {
        var boundY := AttachExpressionBindingHandler(style, BgYPosKey, h);
        both := boundY;
      }
      applied := applied && both;
    }
  }

  /** The branch of `DoSetStyleValue` for a leading plain value `h`; without a
      second token `h` serves for Y as well. */
  method UnitFirst(style: PDFStyles.Style, reader: CSSStyleItemReader, h: string,
                   ghost tokens: seq<string>, parseUnit: string -> Option<Unit>)
    returns (applied: bool)
    requires style.Valid() && reader.Valid() && reader.OnAttribute()
    requires |tokens| > 0 && tokens[0] == h && !IsExpression(h) && reader.Remaining() == tokens[1..]
    modifies style`values, style`cache, style`getOrCreateCalls, reader`valuePos
    ensures style.Valid() && reader.Valid()
    ensures var o := SetPosition(tokens, old(style.values), parseUnit);
            applied == o.ok && style.values == o.store && reader.valuePos == old(reader.valuePos) + o.consumed - 1
            && style.cache.Keys == old(style.cache.Keys) + (if o.fetched then {BgItemKey} else {})
    ensures forall k :: k in old(style.cache) ==> k in style.cache && style.cache[k] == old(style.cache[k])
  {
    applied := true;
    ghost var before := style.values;
    var v: string;
    var ok, second := reader.ReadNextValue();
    if ok {
      v := second;
    } else {
      v := h;
    }
    ghost var consumed: nat := if |tokens| >= 2 then 2 else 1;
    assert v == if |tokens| >= 2 then tokens[1] else h;
    applied := HorizontalFromPlain(style, h, parseUnit);
    assert SetPosition(tokens, before, parseUnit) == PlainY(style.values, v, applied, consumed, parseUnit);
    applied := VerticalFromPlain(style, v, applied, consumed, parseUnit);
  }

  /** The first half of `UnitFirst`: sets the horizontal position from `h`
      when it parses, through the background item. */
  method HorizontalFromPlain(style: PDFStyles.Style, h: string, parseUnit: string -> Option<Unit>)
    returns (setX: bool)
    requires style.Valid()
    modifies style`values, style`cache, style`getOrCreateCalls
    ensures style.Valid()
    ensures setX == parseUnit(h).Some?
    ensures style.values == if setX then old(style.values)[BgXPosKey := UnitVal(parseUnit(h).value)] else old(style.values)
    ensures style.cache.Keys == old(style.cache.Keys) + (if setX then {BgItemKey} else {})
    ensures forall k :: k in old(style.cache) ==> k in style.cache && style.cache[k] == old(style.cache[k])
  {
    var uh := parseUnit(h);
    setX := uh.Some?;
    if setX {
      var background := style.Item(BgItemKey);
      style.SetValue(BgXPosKey, UnitVal(uh.value));
    }
  }

  /** The second half of `UnitFirst`: sets the vertical position from `v`. */
  method VerticalFromPlain(style: PDFStyles.Style, v: string, setX: bool, ghost consumed: nat,
                           parseUnit: string -> Option<Unit>)
    returns (applied: bool)
    requires style.Valid()
    modifies style`values, style`cache, style`getOrCreateCalls
    ensures style.Valid()
    ensures var o := PlainY(old(style.values), v, setX, consumed, parseUnit);
            applied == o.ok && style.values == o.store
    ensures style.cache.Keys == old(style.cache.Keys) + (if !IsExpression(v) && parseUnit(v).Some? then {BgItemKey} else {})
    ensures forall k :: k in old(style.cache) ==> k in style.cache && style.cache[k] == old(style.cache[k])
  {
    applied := setX;
    if IsExpression(v) {
      if applied {
        applied := AttachExpressionBindingHandler(style, BgYPosKey, v);
      }
    } else {
      var uv := parseUnit(v);
      if uv.Some? {
        var background := style.Item(BgItemKey);
        style.SetValue(BgYPosKey, UnitVal(uv.value));
      } else {
        applied := false;
      }
    }
  }

  /** The value a bound position expression evaluates to. */
  datatype BoundValue = NullValue | UnitValue(unit: Unit) | OtherValue(text: string)

  /** `DoConvertBgPos`: null gives (Empty, false), a unit is taken as it is,
      and anything else is parsed from its text, giving (Zero, false) when
      that fails. */
  function DoConvertBgPos(value: BoundValue, parseUnit: string -> Option<Unit>): (r: TryResult<Unit>)
    ensures value == NullValue ==> r == TryResult(false, Empty)
    ensures value.UnitValue? ==> r == TryResult(true, value.unit)
    ensures value.OtherValue? ==>
              (r.ok <==> parseUnit(value.text).Some?) &&
              (r.ok ==> r.value == parseUnit(value.text).value) &&
              (!r.ok ==> r.value == Zero)
  {
    match value
    case NullValue => TryResult(false, Empty)
    case UnitValue(u) => TryResult(true, u)
    case OtherValue(text) =>
      match parseUnit(text)
      case Some(u) => TryResult(true, u)
      case None => TryResult(false, Zero)
  }
}
