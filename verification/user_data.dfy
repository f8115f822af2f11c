/**
  The persisted editor user data the plugin reads and writes: XML elements,
  reduced to the parts the plugin looks at — the element name, the optional
  integer `id` attribute and the (opaque) content the palette writes into it.
*/
module UserData {
  import opened Wrappers

  /** Opaque content of a settings element, as written by the palette itself. */
  type Body = seq<nat>

  /** The fixed tag under which the tile palette settings are stored. */
  const ElementNameTilePalette: string := "TilePalette"

  datatype Element = Element(name: string, id: Option<int>, body: Body) {

    /** An element without content; attributes do not count as content. */
    predicate IsEmpty() {
      |body| == 0
    }

    /** The palette index read from the `id` attribute; a missing attribute reads as 0. */
    function PaletteIndex(): int {
      id.GetOr(0)
    }
  }

  /** A settings element the plugin accepts on load: the right tag and an index in [0, 1). */
  predicate IsPaletteSettings(e: Element) {
    e.name == ElementNameTilePalette && 0 <= e.PaletteIndex() < 1
  }

  /**
    Position of the first element, at or after `from`, that the load loop accepts;
    elements with another tag or an out-of-range index are skipped.
  */
  function FirstPaletteSettings(node: seq<Element>, from: nat := 0): (r: Option<nat>)
    requires from <= |node|
    decreases |node| - from
    ensures r.Some? ==> from <= r.value < |node| && IsPaletteSettings(node[r.value])
    ensures forall j :: from <= j < |node| && (r.None? || j < r.value) ==> !IsPaletteSettings(node[j])
  {
    if from == |node| then None
    else if IsPaletteSettings(node[from]) then Some(from)
    else FirstPaletteSettings(node, from + 1)
  }
}
