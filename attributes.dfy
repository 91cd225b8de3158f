/** The optional value of the model: a Swift optional (`T?`). */
module Wrappers {
  datatype Option<+T> = None | Some(value: T)
}

/**
 * Layout attributes: the data that says where and how one element of the
 * collection view is drawn, extended with the optional colour that
 * ECCollectionViewLayoutAttributes adds to the framework's attributes class.
 * Geometry is whole-number: the layout only ever works with small integral
 * constants and compares them exactly.
 */
module Attributes {
  import opened Wrappers

  /** The two colours the layout paints row backgrounds with. */
  datatype Colour = Red | Blue

  /** representedElementCategory, with the element kind for non-cells. */
  datatype Category = Cell | SupplementaryView(kind: string) | DecorationView(kind: string)

  datatype IndexPath = IndexPath(section: int, item: int)

  /** A frame: origin (x, y) and size (width, height). */
  datatype Rect = Rect(x: int, y: int, width: int, height: int)

  /**
   * One ECCollectionViewLayoutAttributes object. The first four fields are the
   * framework's own; `colour` is the subclass's stored property.
   */
  datatype LayoutAttributes = LayoutAttributes(
    category: Category,
    indexPath: IndexPath,
    frame: Rect,
    zIndex: int,
    colour: Option<Colour>)

  /**
   * What `isEqual` may be handed: nil, a plain framework attributes object
   * (which has no colour), an attributes object of the coloured subclass, or
   * any other kind of object.
   */
  datatype Object =
    | Nil
    | Plain(category: Category, indexPath: IndexPath, frame: Rect, zIndex: int)
    | Coloured(attrs: LayoutAttributes)
    | Unrelated

  /** The framework's comparison of its own fields (`super.isEqual`). */
  predicate SuperIsEqual(a: LayoutAttributes, b: LayoutAttributes)
  {
    a.category == b.category && a.indexPath == b.indexPath &&
    a.frame == b.frame && a.zIndex == b.zIndex
  }

  /**
   * `isEqual`: only a coloured attributes object with the same colour can be
   * equal, and then the framework fields decide.
   */
  function IsEqual(a: LayoutAttributes, other: Object): (r: bool)
    ensures r <==> other.Coloured? && other.attrs == a
  {
    match other
    case Coloured(o) => o.colour == a.colour && SuperIsEqual(a, o)
    case _ => false
  }

  /**
   * The framework's `copy`: a new object of the same class with the
   * framework's fields copied; the subclass's stored colour starts out nil.
   */
  function SuperCopy(a: LayoutAttributes): LayoutAttributes
  {
    LayoutAttributes(a.category, a.indexPath, a.frame, a.zIndex, None)
  }

  /** The subclass's `copy`: take the framework's copy, then carry the colour over. */
  method Copy(a: LayoutAttributes) returns (c: LayoutAttributes)
    ensures c == a
    ensures IsEqual(c, Coloured(a)) && IsEqual(a, Coloured(c))
  {
    c := SuperCopy(a);
    c := c.(colour := a.colour);
  }

  /**
   * Why the override is needed: the framework's copy alone is equal to the
   * original exactly when the original has no colour.
   */
  lemma SuperCopyDropsColour(a: LayoutAttributes)
    ensures IsEqual(SuperCopy(a), Coloured(a)) <==> a.colour == None
    ensures a.colour != None ==> !IsEqual(a, Coloured(SuperCopy(a)))
  {
  }

  /** `isEqual` is reflexive, symmetric and transitive on coloured attributes. */
  lemma IsEqualIsEquivalence(a: LayoutAttributes, b: LayoutAttributes, c: LayoutAttributes)
    ensures IsEqual(a, Coloured(a))
    ensures IsEqual(a, Coloured(b)) <==> IsEqual(b, Coloured(a))
    ensures IsEqual(a, Coloured(b)) && IsEqual(b, Coloured(c)) ==> IsEqual(a, Coloured(c))
  {
  }

  /**
   * Changing only the colour breaks equality; nil, plain attributes and other
   * objects are never equal, even with identical framework fields.
   */
  lemma IsEqualNeedsColour(a: LayoutAttributes, c: Option<Colour>)
    requires c != a.colour
    ensures !IsEqual(a, Coloured(a.(colour := c)))
    ensures !IsEqual(a, Nil) && !IsEqual(a, Unrelated)
    ensures !IsEqual(a, Plain(a.category, a.indexPath, a.frame, a.zIndex))
  {
  }

  /**
   * The framework's designated initialiser for decoration attributes:
   * category and index path set, frame zero, z-index zero, no colour.
   */
  function ForDecorationView(kind: string, indexPath: IndexPath): LayoutAttributes
  {
    LayoutAttributes(DecorationView(kind), indexPath, Rect(0, 0, 0, 0), 0, None)
  }
}
