/** The value each component property reads while its key is not stored,
    property by property, for the properties whose default is not simply
    zero, transparent or "". */
module ComponentDefaults {
  import opened StyleValues
  import opened Components

  /** `ColumnCount` reads one column. */
  lemma ColumnCountDefault(alleyWidth: Unit)
    ensures DefaultOf(ColumnCountKey, alleyWidth) == IntVal(1)
  {
  }

  /** `AlleyWidth` reads the columns style's default alley width. */
  lemma AlleyWidthDefault(alleyWidth: Unit)
    ensures DefaultOf(ColumnAlleyKey, alleyWidth) == UnitVal(alleyWidth)
  {
  }

  /** `OverflowSplit` reads `Any`. */
  lemma OverflowSplitDefault(alleyWidth: Unit)
    ensures DefaultOf(OverflowSplitKey, alleyWidth) == SplitVal(SplitAny)
  {
  }

  /** `PositionMode` reads `Block`. */
  lemma PositionModeDefault(alleyWidth: Unit)
    ensures DefaultOf(PositionModeKey, alleyWidth) == ModeVal(Block)
  {
  }

  /** `BorderSides` reads all four sides. */
  lemma BorderSidesDefault(alleyWidth: Unit)
    ensures DefaultOf(BorderSidesKey, alleyWidth) == SidesVal({Top, Right, Bottom, Left})
  {
  }

  /** `BorderOpacity` reads full opacity. */
  lemma BorderOpacityDefault(alleyWidth: Unit)
    ensures DefaultOf(BorderOpacityKey, alleyWidth) == RealVal(1.0)
  {
  }

  /** `StrokeOpacity` reads full opacity. */
  lemma StrokeOpacityDefault(alleyWidth: Unit)
    ensures DefaultOf(StrokeOpacityKey, alleyWidth) == RealVal(1.0)
  {
  }

  /** `BackgroundOpacity` reads zero, unlike the other opacities. */
  lemma BackgroundOpacityDefault(alleyWidth: Unit)
    ensures DefaultOf(BgOpacityKey, alleyWidth) == RealVal(0.0)
  {
  }

  /** `FillOpacity` reads zero, unlike the other opacities. */
  lemma FillOpacityDefault(alleyWidth: Unit)
    ensures DefaultOf(FillOpacityKey, alleyWidth) == RealVal(0.0)
  {
  }

  /** `HorizontalAlignment` reads `Left`. */
  lemma HorizontalAlignmentDefault(alleyWidth: Unit)
    ensures DefaultOf(PositionHAlignKey, alleyWidth) == HAlignVal(HLeft)
  {
  }

  /** `VerticalAlignment` reads `Top`. */
  lemma VerticalAlignmentDefault(alleyWidth: Unit)
    ensures DefaultOf(PositionVAlignKey, alleyWidth) == VAlignVal(VTop)
  {
  }

  /** `TextDirection` reads left to right. */
  lemma TextDirectionDefault(alleyWidth: Unit)
    ensures DefaultOf(TextDirectionKey, alleyWidth) == DirectionVal(LTR)
  {
  }

  /** `FontBold` reads false. */
  lemma FontBoldDefault(alleyWidth: Unit)
    ensures DefaultOf(FontBoldKey, alleyWidth) == BoolVal(false)
  {
  }
}
