# Scryber style layer

A model of the style layer of Scryber, a library that lays out documents
from XML/HTML templates and writes them as PDF.

**VisualComponent facade.** `VisualComponent` exposes about sixty style
properties (`X`, `Width`, `StrokeColor`, `FontFamily`, ...). Each one reads or
writes one typed key of the component's own direct `Style`.
- The style is created the first time a setter needs it, with
  `DirectStylePriority`.
- A getter falls back to a fixed default when the key is not stored.
- The string, dash and stroke-colour setters remove the key instead of
  storing an empty value.

**`PDFStyle`.** This is the style container:
- a keyed value store;
- item views (`Background`, `Margins`, `Stroke`, ...) cached on first use;
- an `ID` that never reads as null;
- inner styles created on demand;
- the ordered `DataBind` sequence;
- the `Parse` loop, which builds a style from a run of CSS declarations.

**CSS value helpers.** `CSSStyleValueParser` holds the classifiers
`IsNumber`, `IsExpression` and `IsUrl`, plus these operations:
- converting CSS lengths to points;
- extracting `url(...)` targets;
- decoding numeric HTML character references;
- binding `var(...)`/`calc(...)` expressions to a key.

**Background position.** The `background-position` parser reads one or two
tokens:
- a single token is used for both axes;
- expressions are bound rather than parsed;
- a flag reports whether every token was taken.

**Margins item.** `MarginsStyle` has an `All` value, four sides that fall
back to it, and packing into a (Top, Right, Bottom, Left) thickness.

**Modules.**

| Module | File | Contents |
|---|---|---|
| `StyleValues` | `style_values.dfy` | The shared data model: units, colours, the style keys, the typed values stored under them and the store as a map. |
| `StyleReader` | `style_reader.dfy` | The declaration reader the parsers consume, modelled as a cursor over (name, tokens) pairs. |
| `PDFStyles` | `pdf_style.dfy` | `PDFStyle`. |
| `CSSParsing` | `css_style_item_parser.dfy` | `CSSStyleValueParser`. |
| `BackgroundPosition` | `css_background_position_parser.dfy` | The background-position parser. |
| `MarginsStyles` | `margins_style.dfy` | The margins item. |
| `Components` | `visual_component.dfy` | `VisualComponent`. |
| `ComponentDefaults` | `component_defaults.dfy` | The default each component property reads, property by property. |

**How state is modelled.**
- The classes (`Style`, `VisualComponent`, `MarginsStyle`,
  `CSSStyleItemReader`) keep the source's fields and change them in place.
- Each getter is a function over that state, so reading a property provably
  allocates nothing.
- The string classifiers, the unit conversion and the url parser are pure
  functions.
- The loops of `UnEscapeHtmlString`, `Parse` and the background-position
  parser are methods proved against specification functions (`UnEscape`,
  `ApplyAll`, `SetPosition`).

## Model

| member | source | states |
|---|---|---|
| Components.DefaultOf | Scryber.Components/Components/VisualComponent.cs:1172-1176 | The value an unset property reads has the property's declared type and is never a binding expression. |
| Components.StringDefault | Scryber.Components/Components/VisualComponent.cs:476-485 | The text properties (`BackgroundImage`, `FillImage`, `FontFamily`) read "" when unset. |
| Components.DashDefault | Scryber.Components/Components/VisualComponent.cs:610-619 | The dash properties read `PDFDash.None` when unset. |
| Components.VisualComponent.HasStyle | Scryber.Components/Components/VisualComponent.cs:65-68 | `HasStyle` holds exactly when the component has a style that stores at least one value. A style that exists but is empty does not count. |
| ComponentDefaults.ColumnCountDefault | Scryber.Components/Components/VisualComponent.cs:1170-1176 | `ColumnCount` reads 1 when unset. |
| ComponentDefaults.AlleyWidthDefault | Scryber.Components/Components/VisualComponent.cs:1190-1198 | `AlleyWidth` reads the columns style's default alley width when unset. |
| ComponentDefaults.OverflowSplitDefault | Scryber.Components/Components/VisualComponent.cs:1438-1444 | `OverflowSplit` reads `Any` when unset. |
| ComponentDefaults.PositionModeDefault | Scryber.Components/Components/VisualComponent.cs:1118-1124 | `PositionMode` reads `Block` when unset. |
| ComponentDefaults.BorderSidesDefault | Scryber.Components/Components/VisualComponent.cs:666-672 | `BorderSides` reads all four sides (Top, Right, Bottom, Left) when unset. |
| ComponentDefaults.BorderOpacityDefault | Scryber.Components/Components/VisualComponent.cs:640-646 | `BorderOpacity` reads 1 (opaque) when unset. |
| ComponentDefaults.StrokeOpacityDefault | Scryber.Components/Components/VisualComponent.cs:930-936 | `StrokeOpacity` reads 1 (opaque) when unset. |
| ComponentDefaults.BackgroundOpacityDefault | Scryber.Components/Components/VisualComponent.cs:534-539 | `BackgroundOpacity` reads 0 when unset, unlike the border and stroke opacities. |
| ComponentDefaults.FillOpacityDefault | Scryber.Components/Components/VisualComponent.cs:820-826 | `FillOpacity` reads 0 when unset. |
| ComponentDefaults.HorizontalAlignmentDefault | Scryber.Components/Components/VisualComponent.cs:1066-1072 | `HorizontalAlignment` reads `Left` when unset. |
| ComponentDefaults.VerticalAlignmentDefault | Scryber.Components/Components/VisualComponent.cs:1092-1098 | `VerticalAlignment` reads `Top` when unset. |
| ComponentDefaults.TextDirectionDefault | Scryber.Components/Components/VisualComponent.cs:1413-1419 | `TextDirection` reads `LTR` when unset. |
| ComponentDefaults.FontBoldDefault | Scryber.Components/Components/VisualComponent.cs:1013-1019 | `FontBold` reads false when unset. |
| Components.VisualComponent.Get | Scryber.Components/Components/VisualComponent.cs:87-94 | A getter returns the stored value of its key, else the property's default. With no style values it is always the default. Its result has the key's type, or is the binding expression stored under the key. As a function, it cannot create the style. |
| Components.VisualComponent.Has | Scryber.Components/Components/VisualComponent.cs:103-111 | `HasX` holds exactly when the key is stored in the component's style. |
| Components.VisualComponent.GetStyle | Scryber.Components/Components/VisualComponent.cs:42-51 | The first access creates an empty style with `DirectStylePriority`; every later access returns that same style. |
| Components.VisualComponent.SetStyle | Scryber.Components/Components/VisualComponent.cs:53-56 | The `Style` setter replaces the style reference. |
| Components.VisualComponent.Set | Scryber.Components/Components/VisualComponent.cs:95-98 | A setter stores the value under its key and leaves every other key unchanged. It goes through the `Style` getter, so an absent style is created fresh with `DirectStylePriority`; an existing style keeps its identity, priority, id, item cache, inner styles and bind log. |
| Components.VisualComponent.Remove | Scryber.Components/Components/VisualComponent.cs:486-491 | `Style.RemoveValue` reached through the `Style` getter removes exactly that key. An absent style is created fresh with `DirectStylePriority`; an existing style keeps its identity, priority, id, item cache, inner styles and bind log. |
| Components.VisualComponent.SetString | Scryber.Components/Components/VisualComponent.cs:486-491 | Null or "" removes the key; any other text is stored. Either way the property then reads the text, or "". An absent style is created fresh with `DirectStylePriority`; an existing style keeps its identity, priority, id, item cache, inner styles and bind log. |
| Components.VisualComponent.SetDash | Scryber.Components/Components/VisualComponent.cs:620-625 | A null dash removes the key, which then reads no dash; any other dash is stored and read back. An absent style is created fresh with `DirectStylePriority`; an existing style keeps its identity, priority, id, item cache, inner styles and bind log. |
| Components.VisualComponent.SetStrokeColor | Scryber.Components/Components/VisualComponent.cs:882-888 | A null colour removes the key, which then reads transparent; any other colour is stored and read back. An absent style is created fresh with `DirectStylePriority`; an existing style keeps its identity, priority, id, item cache, inner styles and bind log. |
| Components.VisualComponent.SetStrokeOpacity | Scryber.Components/Components/VisualComponent.cs:937-941 | Writing through the style's stroke item stores the opacity under `StrokeOpacityKey` and nothing else. An absent style is created fresh with `DirectStylePriority` and then caches only the stroke item. An existing style keeps its identity, priority, id, inner styles, bind log and every item it had cached, and adds the stroke item to its cache. |
| Components.VisualComponent.SpacingOf | Scryber.Components/Components/VisualComponent.cs:399-407 | `Margins`/`Padding` read an empty thickness while the component has no style values; otherwise they read the thickness the style builds. |
| Components.VisualComponent.OutlineTitle | Scryber.Components/Components/VisualComponent.cs:1462-1469 | Without an outline the title reads "". |
| Components.VisualComponent.SetOutlineTitle | Scryber.Components/Components/VisualComponent.cs:1470-1478 | A null or empty title on a component without an outline changes nothing and creates no outline. Otherwise the outline exists afterwards and reads the new title. |
| Components.VisualComponent.DoDataBind | Scryber.Components/Components/VisualComponent.cs:1620-1625 | The style is data bound (DataBinding event, `DoDataBind(context, true)`, DataBound event) only when children are included and the component has style values. The base binding runs after it in every case. |
| Components.ReadAfterWrite | Scryber.Components/Components/VisualComponent.cs:85-111 | After a write, the written property reads the new value and every other property reads as before. |
| Components.ReadAfterRemove | Scryber.Components/Components/VisualComponent.cs:486-491 | After a removal, the removed property reads its default and every other property reads as before. |
| Components.SetThenGet | Scryber.Components/Components/VisualComponent.cs:85-111 | After `X = v`, `X` reads `v` and `HasX` is true, for any property and any value of its type. |
| PDFStyles.Style.Item | Scryber.Styles/Styles/PDFStyle.cs:116-126 | An item accessor calls `GetOrCreateItem` only on its first read and caches the item. Every later read returns the identical cached item and makes no call. The class invariant keeps at most one call per item. |
| PDFStyles.Style.SetThroughItem | Scryber.Styles/Styles/PDFStyle.cs:500-510 | A property written through an item accessor stores its value, and the item is cached afterwards. No other item is created, and every item cached before is kept. |
| PDFStyles.Style.FetchItems | Scryber.Styles/Styles/PDFStyle.cs:116-126 | Reading a run of item accessors caches exactly the items read that were not cached yet. Every item cached before is kept. |
| PDFStyles.Style.TakeStep | Scryber.Styles/Styles/PDFStyle.cs:1147-1148 | One parser run on the style caches the items it read and leaves the values it produced. |
| PDFStyles.Style.GetID | Scryber.Styles/Styles/PDFStyle.cs:87-97 | A null or empty id reads as "" and is stored as ""; any other id reads as itself. |
| PDFStyles.Style.SetID | Scryber.Styles/Styles/PDFStyle.cs:98-101 | The `ID` setter stores the value as given, null included. |
| PDFStyles.Style.InnerStyles | Scryber.Styles/Styles/PDFStyle.cs:881-887 | The getter never returns null. It creates an empty collection when there is none, including after it was set to null, and otherwise returns the existing one. Reading it never changes `HasInnerStyles`. |
| PDFStyles.Style.SetInnerStyles | Scryber.Styles/Styles/PDFStyle.cs:888-891 | The setter stores the collection as given, null included. |
| PDFStyles.Style.HasInnerStyles | Scryber.Styles/Styles/PDFStyle.cs:895-904 | False when there is no collection, and true only for a non-empty collection. It cannot create the collection. |
| PDFStyles.Style.OnDataBinding | Scryber.Styles/Styles/PDFStyle.cs:57-61 | The DataBinding event is raised once, with the context. |
| PDFStyles.Style.OnDataBound | Scryber.Styles/Styles/PDFStyle.cs:70-74 | The DataBound event is raised once, with the context. |
| PDFStyles.Style.DataBind | Scryber.Styles/Styles/PDFStyle.cs:931-936 | The DataBinding event, then `DoDataBind(context, true)`, then the DataBound event, in that order. |
| PDFStyles.Style.CreateStrokePen | Scryber.Styles/Styles/PDFStyle.cs:1107-1117 | A successful `DoCreateStrokePen` result is returned unchanged. Any failure comes out as a `PDFException` for "Stroke pen" whose inner exception is the original. |
| PDFStyles.ApplyAllSnoc | Scryber.Styles/Styles/PDFStyle.cs:1143-1148 | Applying one more declaration after a run of declarations is the same as applying the longer run. This holds for the values and for the items the parsers read. |
| PDFStyles.ApplyAllAppend | Scryber.Styles/Styles/PDFStyle.cs:1143-1148 | Applying two runs of declarations is applying the first, then the second. |
| PDFStyles.Parse | Scryber.Styles/Styles/PDFStyle.cs:1140-1151 | The result is a fresh style with default priority, no id and no inner styles. Its values are those of one parser run per declaration, in reader order, until the reader is exhausted. It caches exactly the items those parser runs read, such as the background item a background position is written through. |
| StyleReader.CSSStyleItemReader.ReadNextAttributeName | Scryber.Styles/Styles/PDFStyle.cs:1145 | The reader moves to the next declaration and answers whether there was one. |
| StyleReader.CSSStyleItemReader.ReadNextValue | Scryber.Styles/Styles/Parsing/Typed/CSSBackgroundPositionParser.cs:19-21 | The reader yields the next unread value token of the current declaration and advances past it, or answers false when none is left. |
| CSSParsing.NumberIsNotExpressionOrUrl | Scryber.Styles/Styles/Parsing/CSSStyleItemParser.cs:108-152 | Text that `IsNumber` accepts is neither an expression nor a url. |
| CSSParsing.ExpressionPrefixIsCaseSensitive | Scryber.Styles/Styles/Parsing/CSSStyleItemParser.cs:108-113 | `var(` and `calc(` start an expression; the test is case-sensitive, so `VAR(` and `Calc(` do not. |
| CSSParsing.UrlPrefixAnyCase | Scryber.Styles/Styles/Parsing/CSSStyleItemParser.cs:129-132 | `url(` starts a url in any letter case. |
| CSSParsing.NumberDecidedByPrefix | Scryber.Styles/Styles/Parsing/CSSStyleItemParser.cs:138-152 | `IsNumber` depends on the first two characters only. Text that is a number stays one whatever follows, and text of two or more characters that is not a number cannot become one by extension. |
| CSSParsing.EndsWithAbsoluteUnit | Scryber.Styles/Styles/Parsing/CSSStyleItemParser.cs:255-296 | A suffix is found exactly when the last two characters, ignoring case, are an absolute unit; its length is then 2. Otherwise the result is (false, 0, 1.0). |
| CSSParsing.AbsoluteSuffixFactor | Scryber.Styles/Styles/Parsing/CSSStyleItemParser.cs:255-296 | `pt`, `px`, `pc`, `in`, `cm`, `mm` and `em` are found with length 2 and factors 1, 3/4, 6, 72, 72/2.54, 72/25.4 and 12. |
| CSSParsing.NoAbsoluteSuffix | Scryber.Styles/Styles/Parsing/CSSStyleItemParser.cs:293-295 | Text ending in none of the absolute suffixes, in any letter case, reports (false, 0, 1.0). |
| CSSParsing.RelativeSuffixRecognised | Scryber.Styles/Styles/Parsing/CSSStyleItemParser.cs:231-252 | A number followed by `%`, `ex`, `ch`, `rem`, `vw`, `vh`, `vmin` or `vmax`, written in any letter case, is recognised as relative. |
| CSSParsing.RelativeSuffixMatched | Scryber.Styles/Styles/Parsing/CSSStyleItemParser.cs:231-252 | Text ending, in any letter case, in a unit of the table of relative units is recognised as relative. |
| CSSParsing.RelativeSuffixOnlyFromTable | Scryber.Styles/Styles/Parsing/CSSStyleItemParser.cs:231-252 | Only text ending in a unit of that table, in some letter case, is recognised as relative. |
| CSSParsing.ParseCSSUnit | Scryber.Styles/Styles/Parsing/CSSStyleItemParser.cs:197-229 | Every success is in points, and every failure yields `Zero`. A relative unit always fails. |
| CSSParsing.RelativeUnitRejected | Scryber.Styles/Styles/Parsing/CSSStyleItemParser.cs:203-207 | A number with a relative unit, in any letter case, gives (Zero, false). So `2rem` is never read as `em`, and `3VMIN` never as `in`. |
| CSSParsing.SuffixedNumberParsed | Scryber.Styles/Styles/Parsing/CSSStyleItemParser.cs:208-219 | With an absolute suffix, only the text before the suffix is parsed, and it is scaled by the suffix's factor. |
| CSSParsing.AbsoluteUnitConverted | Scryber.Styles/Styles/Parsing/CSSStyleItemParser.cs:208-219 | A number with an absolute suffix is the number times the table's factor, in points. An unparsable number gives (Zero, false), with no fallback to parsing the whole text. |
| CSSParsing.BareNumberIsPoints | Scryber.Styles/Styles/Parsing/CSSStyleItemParser.cs:220-228 | Text with no unit suffix is parsed whole, as points; if it does not parse the result is (Zero, false). |
| CSSParsing.ScanTerminatesWithinTen | Scryber.Styles/Styles/Parsing/CSSStyleItemParser.cs:353-365 | An entity is terminated exactly when a `;` follows the `&` within 10 characters, and the scan stops at the first such `;`. |
| CSSParsing.OnlyNumericReferencesDecoded | Scryber.Styles/Styles/Parsing/CSSStyleItemParser.cs:367-383 | A terminated entity decodes exactly when it is longer than 3 characters, its second character is `#` and the text between `#` and `;` parses as an integer. Named entities are never decoded. |
| CSSParsing.UnEscapeWithoutAmpersand | Scryber.Styles/Styles/Parsing/CSSStyleItemParser.cs:335-338 | Text without `&` is returned unchanged. |
| CSSParsing.NumericReferenceDecoded | Scryber.Styles/Styles/Parsing/CSSStyleItemParser.cs:367-383 | A lone numeric reference `&#N;` of at most 11 characters unescapes to the single character with UTF-16 code unit N. |
| CSSParsing.ScanEntity | Scryber.Styles/Styles/Parsing/CSSStyleItemParser.cs:350-365 | The inner loop stops where the scan specification stops and reports the same termination. |
| CSSParsing.DecodeEntity | Scryber.Styles/Styles/Parsing/CSSStyleItemParser.cs:367-383 | The decoding step yields the character the entity specification decodes, or none. |
| CSSParsing.CopyAndDecode | Scryber.Styles/Styles/Parsing/CSSStyleItemParser.cs:347-390 | One turn of the loop appends the copied text and the decoded character, and moves the cursor as the specification `ReadEntity` says. |
| CSSParsing.UnEscapeHtmlString | Scryber.Styles/Styles/Parsing/CSSStyleItemParser.cs:333-399 | The loop computes `UnEscape` of its input, and returns text without `&` unchanged. |
| CSSParsing.ParseCSSUrl | Scryber.Styles/Styles/Parsing/CSSStyleItemParser.cs:308-327 | A url is produced only from text that starts with `url(` (any case) and ends with `)`. |
| CSSParsing.UrlCorrectedAgrees | Scryber.Styles/Styles/Parsing/CSSStyleItemParser.cs:308-327 | Wherever the source does not throw, the corrected parser gives the source's result. |
| CSSParsing.QuotedUrlRoundTrip | Scryber.Styles/Styles/Parsing/CSSStyleItemParser.cs:316-322 | `url('t')` and `url("t")` give back exactly `t` when `t` has no `&`, so one pair of quotes is removed. |
| CSSParsing.UnquotedUrlRoundTrip | Scryber.Styles/Styles/Parsing/CSSStyleItemParser.cs:312-323 | `url(t)` gives back exactly `t` when `t` has no `&` and is not quoted. |
| CSSParsing.UrlAccepted | Scryber.Styles/Styles/Parsing/CSSStyleItemParser.cs:312-323 | Every value that starts with `url(` in any letter case and ends with `)` yields a url. |
| CSSParsing.NonUrlRejected | Scryber.Styles/Styles/Parsing/CSSStyleItemParser.cs:312 | Text without the `url(` prefix gives no url. |
| CSSParsing.UrlAsWrittenThrowsOnLoneQuote | Scryber.Styles/Styles/Parsing/CSSStyleItemParser.cs:316-321 | The source throws exactly on `url(')` and `url(")`, in any letter case. |
| CSSParsing.UrlLoneQuoteCounterexample | Scryber.Styles/Styles/Parsing/CSSStyleItemParser.cs:318-319 | `url(')` throws `ArgumentOutOfRangeException` in the source; the corrected parser gives `'`. |
| CSSParsing.AttachExpressionBindingHandler | Scryber.Styles/Styles/Parsing/CSSStyleItemParser.cs:93-103 | Any value already stored under the key is replaced, so the key holds exactly the expression, and the result is true. |
| BackgroundPosition.PlainY | Scryber.Styles/Styles/Parsing/Typed/CSSBackgroundPositionParser.cs:71-84 | The vertical half of a plain first token. The result is true only when X was set, and at most `BgYPosKey` is added. The background item is read exactly when X or Y is stored as a unit. |
| BackgroundPosition.SetPosition | Scryber.Styles/Styles/Parsing/Typed/CSSBackgroundPositionParser.cs:13-89 | At most two tokens are read (one per token present). Only the two position keys change. |
| BackgroundPosition.NoValueLeavesStyle | Scryber.Styles/Styles/Parsing/Typed/CSSBackgroundPositionParser.cs:86-88 | With no value token the result is false and nothing changes. |
| BackgroundPosition.SingleValueForBothAxes | Scryber.Styles/Styles/Parsing/Typed/CSSBackgroundPositionParser.cs:56-84 | A single plain token sets both X and Y to its unit; if it does not parse, the result is false and nothing changes. |
| BackgroundPosition.SingleExpressionForBothAxes | Scryber.Styles/Styles/Parsing/Typed/CSSBackgroundPositionParser.cs:44-49 | A single expression is bound to both `BgXPosKey` and `BgYPosKey`, and the result is true. |
| BackgroundPosition.LeadingExpressionBindsX | Scryber.Styles/Styles/Parsing/Typed/CSSBackgroundPositionParser.cs:25-42 | A leading expression is always bound to X. A second expression is bound to Y, and a parsable second unit is stored as Y. The result is false exactly when the second token is neither; Y is then not written. |
| BackgroundPosition.TwoUnits | Scryber.Styles/Styles/Parsing/Typed/CSSBackgroundPositionParser.cs:54-84 | `10pt 20pt`: two parsable units set X and Y, the result is true, and the background item is read. |
| BackgroundPosition.UnitThenUnparsable | Scryber.Styles/Styles/Parsing/Typed/CSSBackgroundPositionParser.cs:54-84 | A parsable unit followed by a plain token that does not parse stores X, leaves Y untouched, reads the background item and gives false. |
| BackgroundPosition.ExtraTokensIgnored | Scryber.Styles/Styles/Parsing/Typed/CSSBackgroundPositionParser.cs:19-60 | Tokens after the second are never read; the outcome is that of the first two alone. |
| BackgroundPosition.UnitThenExpression | Scryber.Styles/Styles/Parsing/Typed/CSSBackgroundPositionParser.cs:63-75 | A parsable unit then an expression stores X and binds Y, and the result is true. |
| BackgroundPosition.UnparsableFirstValue | Scryber.Styles/Styles/Parsing/Typed/CSSBackgroundPositionParser.cs:63-82 | A plain first token that does not parse makes the result false and leaves X unset. A second expression is then not bound (short-circuit), but a second unit is still stored as Y. A second token that is neither leaves the store unchanged. |
| BackgroundPosition.SetFlagCharacterised | Scryber.Styles/Styles/Parsing/Typed/CSSBackgroundPositionParser.cs:17-88 | The result flag in full: true exactly when every token read was bound or parsed. |
| BackgroundPosition.DoSetStyleValue | Scryber.Styles/Styles/Parsing/Typed/CSSBackgroundPositionParser.cs:13-89 | The parser reads its tokens from the reader. It leaves the flag, the style values and the reader position as `SetPosition` says. It caches the background item exactly when a unit position is stored, and keeps every item cached before. |
| BackgroundPosition.ExpressionFirst | Scryber.Styles/Styles/Parsing/Typed/CSSBackgroundPositionParser.cs:23-53 | The branch for a leading expression agrees with `SetPosition`. |
| BackgroundPosition.UnitFirst | Scryber.Styles/Styles/Parsing/Typed/CSSBackgroundPositionParser.cs:54-85 | The branch for a plain leading token agrees with `SetPosition`. |
| BackgroundPosition.HorizontalFromPlain | Scryber.Styles/Styles/Parsing/Typed/CSSBackgroundPositionParser.cs:63-69 | The X step of the plain branch: X is stored through the background item exactly when `h` parses. The item is then cached, and every item cached before is kept. |
| BackgroundPosition.VerticalFromPlain | Scryber.Styles/Styles/Parsing/Typed/CSSBackgroundPositionParser.cs:71-84 | The Y step of the plain branch agrees with `PlainY`. |
| BackgroundPosition.DoConvertBgPos | Scryber.Styles/Styles/Parsing/Typed/CSSBackgroundPositionParser.cs:91-117 | Null gives (Empty, false), and a unit gives itself and true. Anything else succeeds exactly when its text parses; it then yields that unit, and otherwise (Zero, false). |
| MarginsStyles.MarginsStyle.constructor | Scryber.UnitTest/Styles/PDFMarginsStyleTest.cs:75-77 | A new item has `MarginsItemKey` and no values. |
| MarginsStyles.MarginsStyle.All | Scryber.UnitTest/Styles/PDFMarginsStyleTest.cs:153-156 | `All` reads Zero until set, then the value set. |
| MarginsStyles.MarginsStyle.Get | Scryber.UnitTest/Styles/PDFMarginsStyleTest.cs:158-171 | A side reads its own value, else `All`. On an empty item every side reads Zero. |
| MarginsStyles.MarginsStyle.TryGetThickness | Scryber.UnitTest/Styles/PDFMarginsStyleTest.cs:86-117 | The result is true exactly once any value is set, and each side of the thickness is what that side reads. Otherwise it is false with an empty thickness. |
| MarginsStyles.MarginsStyle.SetAll | Scryber.UnitTest/Styles/PDFMarginsStyleTest.cs:155-162 | After `All = n`, every side not set individually reads `n`, and the others keep their values. |
| MarginsStyles.MarginsStyle.SetSide | Scryber.UnitTest/Styles/PDFMarginsStyleTest.cs:165-171 | Setting a side changes that side only; `All` and the other sides read as before. |
| MarginsStyles.MarginsStyle.RemoveAll | Scryber.UnitTest/Styles/PDFMarginsStyleTest.cs:173-179 | `All` and the sides that fell back to it read Zero. Sides set individually keep their values. |
| MarginsStyles.MarginsStyle.RemoveSide | Scryber.UnitTest/Styles/PDFMarginsStyleTest.cs:187-197 | The side falls back to `All` again (Zero when `All` is unset), and the other sides are unchanged. |
| MarginsStyles.MarginsStyle.RemoveAllValues | Scryber.UnitTest/Styles/PDFMarginsStyleTest.cs:113-117 | The item is empty again: no values, and `TryGetThickness` gives false with an empty thickness. |
| MarginsStyles.MarginsStyle.SetThickness | Scryber.UnitTest/Styles/PDFMarginsStyleTest.cs:129-142 | Each side reads its component of the thickness, overriding earlier sides. |
| MarginsStyles.AllSidesHideAll | Scryber.UnitTest/Styles/PDFMarginsStyleTest.cs:103-111 | With all four sides set, the thickness is (Top, Right, Bottom, Left) of the sides, whatever `All` is. |
| MarginsStyles.OnlyAllIsUniform | Scryber.UnitTest/Styles/PDFMarginsStyleTest.cs:96-101 | With only `All` set, the thickness is uniform. |
| MarginsStyles.AllFallbackScenario | Scryber.UnitTest/Styles/PDFMarginsStyleTest.cs:150-180 | The `All` test sequence ends with Bottom at 300 and every other side, and `All`, at Zero. |
| MarginsStyles.ThicknessScenario | Scryber.UnitTest/Styles/PDFMarginsStyleTest.cs:86-118 | The steps of the thickness test reach each state it asserts: empty, uniform 12, then (15, 14, 16, 13), and empty again. |

## Left out

- Number parsing (`double.TryParse`, `int.TryParse`, `Unit.TryParse`) is culture-aware library code. It is a function parameter (`string -> Option<...>`) of every member that parses.
- Floating point: lengths, factors and opacities are exact reals, so IEEE rounding is not modelled.
- `Unit.Empty` is taken to be the default struct, equal to `Unit.Zero`.
- `ParseCSSColor` and `IsColor` depend on `PDFColor.TryParse` and the CSS colour-name table. Neither is part of this model.
- `SetStyleValue`'s trace logging, and the DataBinding/DataBound event subscriptions, are not modelled. Raising an event is a step in the style's bind log.
- `AttachExpressionBindingHandler` also subscribes the expression to the style's DataBinding event. That subscription, and the later evaluation through the converter, are not modelled. The stored value is an `Expr` holding the expression text.
- `PDFStyleBase` (`SetValue`, `RemoveValue`, `TryGetValue`, `GetOrCreateItem`) is not part of this model. The store is a map from key to value, and `GetOrCreateItem` creates a fresh item.
- The item classes (`PDFBackgroundStyle`, `PDFStrokeStyle`, ...) are not part of this model. An item is an object keyed by its group. Writing `Background.PatternXPosition`, `Background.PatternYPosition` or `Stroke.Opacity` through it stores the matching key (`BgXPosKey`, `BgYPosKey`, `StrokeOpacityKey`).
- Only the `LOCALSTYLEITEMS` variant of the item accessors is modelled: it caches the item in a field on first use. The other variant calls `GetOrCreateItem` on every read.
- The other `Create*` methods of `PDFStyle` (fonts, brushes, overlay grid, ...) depend on drawing classes that are not part of this model. Only `CreateStrokePen`'s exception wrapping is modelled, with `DoCreateStrokePen` as a parameter.
- `Margins`/`Padding` build their thickness with `CreateMarginsThickness`/`CreatePaddingThickness`, which are not part of this model. The builder is a parameter of `SpacingOf`. The `Margins` and `Padding` setters (`Style.SetMargins`, `Style.SetPadding`, VisualComponent.cs:408-411 and 433-436) write through code that is not part of this model, and are not modelled.
- The component's `Outline` object is not part of this model. The outline is an optional title, and `HasOutline` means the title is present.
- The component setters are modelled generically over the key (`Set`, `Remove`, `Get`, `Has`), with one default table, rather than one member per property. The background position keys have no component property.
- `VisualComponent`'s base class binding (`base.DoDataBind`) is recorded as a step, not modelled.
- `CSSStyleItemReader`'s tokenising of style text is not part of this model. The reader is a cursor over declarations that are already split into tokens.
- `UnEscapeHtmlString` relies on `StringEnumerator`, which is not part of this model. Its behaviour is assumed:
  - after the first `MoveNext`, `Offset` is 0;
  - `MoveNext` advances `Offset` by one and fails once it reaches the end;
  - `Current` is the character at `Offset`;
  - `Substring(n)` is the `n` characters from `Offset`;
  - `Substring(start, length)` is that slice of the text.

  Under these assumptions the text before an `&` is copied only when the cursor stands more than one character before it. `UnEscape` follows the code as written in this respect.
- CSSParsing.CodeUnitChar: `(char)n` keeps the low 16 bits of the number. A lone surrogate code unit is mapped to U+FFFD, because a Dafny character is a Unicode scalar value.
- CSSParsing.IsNumber: `char.IsDigit` also accepts non-ASCII decimal digits; the model accepts ASCII digits only.
- Case-insensitive comparison folds ASCII letters only, in the input as well as in the prefixes and suffixes compared against. The invariant- and ordinal-culture folding of other letters is not modelled, so input text with a non-ASCII letter that folds onto an ASCII one is not matched.
- The unit table copies the source's deviations from section 6.2 of CSS Values and Units Level 4:
  - a pica is 6pt, where the standard has 12pt;
  - an em is a fixed 12pt, not the font size.
- Designer and JavaScript-convertor attribute metadata on the properties is not modelled.
- Components.VisualComponent.Get: a key bound to a `var(...)`/`calc(...)` expression reads back as the stored expression text, not as the value of the property's type that the bound expression evaluates to in the source.
- PDFStyles.Parse: the per-property parsers (the background-position parser among them) are not wired into `Parse`. The per-declaration step is a parameter, so what `Parse` ensures holds for every step.
- Components.VisualComponent.DoDataBind: the expression handlers that `AttachExpressionBindingHandler` subscribes to the style's DataBinding event are not modelled, so in the model binding leaves the style's values unchanged. In the source a bound expression is evaluated into the style at that point.
- CSSParsing.ParseCSSUrl: the tests at CSSStyleItemParser.cs:314, 318 and 320 (`EndsWith(")")`, `StartsWith("'")`, ...) are culture-sensitive in the source; the model compares characters ordinally.
- CSSParsing.IsExpression: the `StartsWith` at CSSStyleItemParser.cs:110 is culture-sensitive in the source; the model compares characters ordinally.
- Components.VisualComponent.Set: `BackgroundColor`, `BorderColor` and `FillColor` store whatever colour they are given, null included. A model colour cannot be null, so storing a null colour is not represented.
- MarginsStyles.MarginsStyle.SetThickness: that `All` keeps its value is an assumption about `MarginsStyle`, whose source is not part of this model; the test only checks the four sides.

## Findings

| source | as written | input that shows it | evidently intended | confidence | as-written member | corrected member |
|---|---|---|---|---|---|---|
| Scryber.Styles/Styles/Parsing/CSSStyleItemParser.cs:318-321 | A lone quote inside `url(...)` passes both the starts-with and the ends-with test, so `url.Substring(1, url.Length - 2)` is `Substring(1, -1)`, which throws `ArgumentOutOfRangeException` (`CSSParsing.UrlAsWrittenThrowsOnLoneQuote`). | `url(')` or `url(")` (`CSSParsing.UrlLoneQuoteCounterexample`) | Strip a quote pair only when the url is at least two characters long. Otherwise the parser returns true with the text as it stands. | not executed | CSSParsing.ParseCSSUrlAsWritten | CSSParsing.ParseCSSUrl |
