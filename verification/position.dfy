/**
 * The corner-to-inset lookup of `getPositionStyles` (src/index.js:11-19): each of the four
 * named corners maps to the two CSS inset properties that pin the overlay to that corner,
 * each offset by the constant margin, and any other position falls back to top-left.
 */
module Position {
  import opened Wrappers

  /** The four corners the overlay can be anchored to. */
  datatype Corner = TopLeft | TopRight | BottomLeft | BottomRight

  /** The CSS inset properties `top`, `right`, `bottom` and `left`. */
  datatype Inset = Top | Right | Bottom | Left

  /** The inset part of an inline style: property to CSS length. */
  type Styles = map<Inset, string>

  /** The offset from the viewport edge used for every inset. */
  const Margin: string := "8px"

  /** The option string naming a corner. */
  function CornerName(c: Corner): string
  {
    match c
    case TopLeft => "top-left"
    case TopRight => "top-right"
    case BottomLeft => "bottom-left"
    case BottomRight => "bottom-right"
  }

  /** Recognises the four corner names and nothing else. */
  function ParseCorner(s: string): (r: Option<Corner>)
    ensures r.Some? ==> CornerName(r.value) == s
    ensures r.None? ==> forall c: Corner :: CornerName(c) != s
  {
    if s == "top-left" then Some(TopLeft)
    else if s == "top-right" then Some(TopRight)
    else if s == "bottom-left" then Some(BottomLeft)
    else if s == "bottom-right" then Some(BottomRight)
    else None
  }

  /** The edge of the viewport a corner touches on the vertical axis. */
  function VerticalEdge(c: Corner): Inset
  {
    if c == TopLeft || c == TopRight then Top else Bottom
  }

  /** The edge of the viewport a corner touches on the horizontal axis. */
  function HorizontalEdge(c: Corner): Inset
  {
    if c == TopLeft || c == BottomLeft then Left else Right
  }

  /** The `positions` table of the source, one entry per corner. */
  function PositionTable(c: Corner): Styles
  {
    match c
    case TopLeft => map[Top := Margin, Left := Margin]
    case TopRight => map[Top := Margin, Right := Margin]
    case BottomLeft => map[Bottom := Margin, Left := Margin]
    case BottomRight => map[Bottom := Margin, Right := Margin]
  }

  /**
   * The inset styles for a position option: a corner name gives exactly the two edges that
   * corner touches, at the margin; every other string gives the top-left pair.
   */
  function GetPositionStyles(position: string): (r: Styles)
    ensures forall c: Corner :: CornerName(c) == position ==>
      r == map[VerticalEdge(c) := Margin, HorizontalEdge(c) := Margin]
    ensures (forall c: Corner :: CornerName(c) != position) ==>
      r == map[Top := Margin, Left := Margin]
  {
    match ParseCorner(position)
    case Some(c) => PositionTable(c)
    case None => PositionTable(TopLeft)
  }

  /** Whatever the position, the styles pin exactly one vertical and one horizontal edge. */
  lemma GetPositionStylesAnchorsOneCorner(position: string)
    ensures var r := GetPositionStyles(position);
      && |r| == 2
      && (Top in r <==> Bottom !in r)
      && (Left in r <==> Right !in r)
      && forall e :: e in r ==> r[e] == Margin
  {
    var r := GetPositionStyles(position);
    match ParseCorner(position)
    case Some(c) =>
      assert r == map[VerticalEdge(c) := Margin, HorizontalEdge(c) := Margin];
      assert r.Keys == {VerticalEdge(c), HorizontalEdge(c)};
    case None =>
      assert r.Keys == {Top, Left};
  }

  /**
   * Property names every object literal inherits from `Object.prototype`; looking one of
   * them up in the `positions` literal finds the inherited member instead of `undefined`.
   */
  const InheritedMembers: set<string> := {
    "constructor", "__proto__", "hasOwnProperty", "isPrototypeOf", "propertyIsEnumerable",
    "toString", "toLocaleString", "valueOf", "__defineGetter__", "__defineSetter__",
    "__lookupGetter__", "__lookupSetter__"
  }

  /** What the property access `positions[position]` yields on the object literal. */
  datatype Lookup = OwnEntry(styles: Styles) | InheritedMember | Missing

  function LookupAsWritten(position: string): (r: Lookup)
    ensures r.OwnEntry? <==> ParseCorner(position).Some?
    ensures r.InheritedMember? <==> position in InheritedMembers
  {
    match ParseCorner(position)
    case Some(c) => OwnEntry(PositionTable(c))
    case None => if position in InheritedMembers then InheritedMember else Missing
  }

  /**
   * `positions[position] || positions['top-left']` as written, then spread into the style
   * object: an inherited member is truthy, so the fallback is skipped, and spreading it
   * copies no own enumerable inset property.
   */
  function GetPositionStylesAsWritten(position: string): (r: Styles)
    ensures position !in InheritedMembers ==> r == GetPositionStyles(position)
    ensures position in InheritedMembers ==> r == map[]
  {
    match LookupAsWritten(position)
    case OwnEntry(st) => st
    case InheritedMember => map[]
    case Missing => PositionTable(TopLeft)
  }

  /** The position "constructor" anchors the overlay to no corner at all, not to top-left. */
  lemma ConstructorPositionLosesFallback()
    ensures GetPositionStylesAsWritten("constructor") == map[]
    ensures GetPositionStyles("constructor") == map[Top := Margin, Left := Margin]
  {
  }
}
