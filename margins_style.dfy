/** The margins style item: an `All` value and four optional sides. A side
    that was not set reads `All`, and `All` that was not set reads zero. */
module MarginsStyles {
  import opened Wrappers
  import opened StyleValues

  /** The component of a thickness on one side. */
  function SideOf(t: Thickness, s: Side): Unit {
    match s
    case Top => t.top
    case Right => t.right
    case Bottom => t.bottom
    case Left => t.left
  }

  class MarginsStyle {
    const itemKey: ItemKey
    /** The `All` value, if set. */
    var all: Option<Unit>
    /** The sides set individually. */
    var sides: map<Side, Unit>

    constructor ()
      ensures itemKey == MarginsItemKey && all == None && sides == map[]
    {
      itemKey := MarginsItemKey;
      all := None;
      sides := map[];
    }

    /** True once any value is stored. */
    predicate HasValues()
      reads this`all, this`sides
      ensures !HasValues() ==> All() == Zero && sides == map[]
    {
      all.Some? || |sides| > 0
    }

    /** The `All` getter. */
    function All(): (r: Unit)
      reads this`all
      ensures all.None? ==> r == Zero
      ensures all.Some? ==> r == all.value
    {
      all.GetOr(Zero)
    }

    /** The getter of one side: its own value, else `All`. */
    function Get(s: Side): (r: Unit)
      reads this`all, this`sides
      ensures s in sides ==> r == sides[s]
      ensures s !in sides ==> r == All()
      ensures !HasValues() ==> r == Zero
    {
      if s in sides then sides[s] else All()
    }

    /** `TryGetThickness`: the four sides packed as (Top, Right, Bottom,
        Left), or false and an empty thickness when nothing is stored. */
    function TryGetThickness(): (r: TryResult<Thickness>)
      reads this`all, this`sides
      ensures r.ok <==> HasValues()
      ensures r.ok ==> forall s :: SideOf(r.value, s) == Get(s)
      ensures !r.ok ==> r.value == EmptyThickness()
    {
      if HasValues() then TryResult(true, Thickness(Get(Top), Get(Right), Get(Bottom), Get(Left)))
      else TryResult(false, EmptyThickness())
    }

    /** Setting `All` changes every side not set individually. */
    method SetAll(u: Unit)
      modifies this`all
      ensures all == Some(u)
      ensures All() == u
      ensures forall s :: s !in sides ==> Get(s) == u
      ensures forall s :: s in sides ==> Get(s) == old(Get(s))
    {
      all := Some(u);
    }

    /** Setting one side overrides `All` for that side only. */
    method SetSide(side: Side, u: Unit)
      modifies this`sides
      ensures sides == old(sides)[side := u]
      ensures Get(side) == u
      ensures forall s :: s != side ==> Get(s) == old(Get(s))
      ensures All() == old(All())
    {
      sides := sides[side := u];
    }

    /** `RemoveAll`: clears `All`; the sides that fell back to it read zero,
        and sides set individually keep their values. */
    method RemoveAll()
      modifies this`all
      ensures all == None
      ensures All() == Zero
      ensures forall s :: s !in sides ==> Get(s) == Zero
      ensures forall s :: s in sides ==> Get(s) == old(Get(s))
    {
      all := None;
    }

    /** `Remove<Side>`: the side falls back to `All` again. */
    method RemoveSide(side: Side)
      modifies this`sides
      ensures sides == old(sides) - {side}
      ensures Get(side) == All()
      ensures forall s :: s != side ==> Get(s) == old(Get(s))
    {
      sides := sides - {side};
    }

    /** `RemoveAllValues`: back to the empty item. */
    method RemoveAllValues()
      modifies this`all, this`sides
      ensures all == None && sides == map[]
      ensures !HasValues() && TryGetThickness() == TryResult(false, EmptyThickness())
    {
      all := None;
      sides := map[];
    }

    /** `SetThickness`: each side takes its component of `t`. */
    method SetThickness(t: Thickness)
      modifies this`sides
      ensures sides == map[Top := t.top, Right := t.right, Bottom := t.bottom, Left := t.left]
      ensures forall s :: Get(s) == SideOf(t, s)
      ensures all == old(all)
    {
      sides := map[Top := t.top, Right := t.right, Bottom := t.bottom, Left := t.left];
    }
  }

  /** With every side set individually, `All` no longer shows in the thickness. */
  lemma AllSidesHideAll(m: MarginsStyle)
    requires forall s :: s in m.sides
    ensures m.TryGetThickness() ==
            TryResult(true, Thickness(m.sides[Top], m.sides[Right], m.sides[Bottom], m.sides[Left]))
  {
    assert Top in m.sides;
  }

  /** With only `All` set, the thickness is uniform. */
  lemma OnlyAllIsUniform(m: MarginsStyle)
    requires m.all.Some? && m.sides == map[]
    ensures m.TryGetThickness() == TryResult(true, UniformThickness(m.all.value))
  {
  }

  /** The sequence of the `All` test: fallback, one override, then
      `RemoveAll` keeping the override. */
  method AllFallbackScenario() returns (m: MarginsStyle)
    ensures fresh(m) && m.itemKey == MarginsItemKey
    ensures m.Get(Bottom) == Unit(300.0, Points)
    ensures m.All() == Zero && m.Get(Top) == Zero && m.Get(Right) == Zero && m.Get(Left) == Zero
  {
    m := new MarginsStyle();
    assert m.All() == Zero;
    m.SetAll(Unit(20.0, Points));
    assert m.Get(Left) == Unit(20.0, Points) && m.Get(Top) == Unit(20.0, Points);
    m.SetSide(Bottom, Unit(300.0, Points));
    assert m.Get(Right) == Unit(20.0, Points) && m.Get(Bottom) == Unit(300.0, Points);
    m.RemoveAll();
  }

  /** The sequence of the thickness test: empty, uniform, four sides, empty. */
  method ThicknessScenario() returns (m: MarginsStyle)
    ensures fresh(m) && m.TryGetThickness() == TryResult(false, EmptyThickness())
  {
    m := new MarginsStyle();
    assert m.TryGetThickness() == TryResult(false, EmptyThickness());
    m.SetAll(Unit(12.0, Points));
    OnlyAllIsUniform(m);
    m.SetSide(Left, Unit(13.0, Points));
    m.SetSide(Right, Unit(14.0, Points));
    m.SetSide(Top, Unit(15.0, Points));
    m.SetSide(Bottom, Unit(16.0, Points));
    assert m.TryGetThickness() ==
           TryResult(true, Thickness(Unit(15.0, Points), Unit(14.0, Points), Unit(16.0, Points), Unit(13.0, Points)));
    m.RemoveAllValues();
  }
}
