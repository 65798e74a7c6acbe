/** The reader the CSS parsers consume: a cursor over the declarations of one
    style text, each an attribute name followed by its value tokens. The
    tokenising of the text itself is not part of this model. */
module StyleReader {

  datatype Declaration = Declaration(name: string, values: seq<string>)

  class CSSStyleItemReader {
    const decls: seq<Declaration>
    /** Index of the current declaration; -1 before the first read. */
    var attr: int
    /** Number of value tokens of the current declaration already read. */
    var valuePos: nat

    ghost predicate Valid()
      reads this
    {
      -1 <= attr <= |decls| &&
      (0 <= attr < |decls| ==> valuePos <= |decls[attr].values|)
    }

    /** True when the reader stands on a declaration. */
    predicate OnAttribute()
      reads this
    {
      0 <= attr < |decls|
    }

    /** The value tokens of the current declaration not read yet. */
    function Remaining(): seq<string>
      reads this
      requires Valid() && OnAttribute()
    {
      decls[attr].values[valuePos..]
    }

    constructor (decls: seq<Declaration>)
      ensures Valid() && this.decls == decls && attr == -1 && valuePos == 0
    {
      this.decls := decls;
      attr := -1;
      valuePos := 0;
    }

    /** Moves to the next declaration; false once every declaration was read. */
    method ReadNextAttributeName() returns (ok: bool)
      requires Valid()
      modifies this`attr, this`valuePos
      ensures Valid()
      ensures attr == if old(attr) < |decls| then old(attr) + 1 else old(attr)
      ensures valuePos == 0
      ensures ok <==> OnAttribute()
    {
      if attr < |decls| {
        attr := attr + 1;
      }
      valuePos := 0;
      ok := attr < |decls|;
    }

    /** Reads the next value token of the current declaration, if there is one. */
    method ReadNextValue() returns (ok: bool, text: string)
      requires Valid() && OnAttribute()
      modifies this`valuePos
      ensures Valid()
      ensures ok <==> |old(Remaining())| > 0
      ensures ok ==> text == old(Remaining())[0] && valuePos == old(valuePos) + 1
      ensures !ok ==> valuePos == old(valuePos)
    {
      if valuePos < |decls[attr].values| {
        ok, text := true, decls[attr].values[valuePos];
        valuePos := valuePos + 1;
      } else {
        ok, text := false, "";
      }
    }
  }
}
