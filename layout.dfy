/**
 * ECCollectionViewLayout: a flow layout that, after the framework has laid
 * out the cells of a rectangle, appends one background decoration for every
 * cell that begins a row. The framework's own computation (the attributes it
 * returns for the rectangle and the content width) enters as parameters.
 */
module Layout {
  import opened Wrappers
  import opened Attributes

  datatype Size = Size(width: int, height: int)

  datatype EdgeInsets = EdgeInsets(top: int, left: int, bottom: int, right: int)

  /** The flow-layout configuration that the decoration pass reads. */
  datatype FlowConfig = FlowConfig(
    minimumLineSpacing: int,
    minimumInteritemSpacing: int,
    sectionInset: EdgeInsets,
    itemSize: Size)

  /** The element kind the decoration view is registered under. */
  const DecorationKind: string := "section_background"

  /** The configuration set by `prepare`. */
  const Prepared: FlowConfig := FlowConfig(8, 8, EdgeInsets(8, 8, 8, 8), Size(148, 115))

  /** The flow layout's configuration before `prepare` runs (the framework's defaults). */
  const FlowDefaults: FlowConfig := FlowConfig(10, 10, EdgeInsets(0, 0, 0, 0), Size(50, 50))

  /** A cell begins a row when its left edge sits on the section's left inset. */
  predicate StartsRow(cfg: FlowConfig, a: LayoutAttributes)
  {
    a.category == Cell && a.frame.x == cfg.sectionInset.left
  }

  /** Rows of even sections are red, rows of odd sections blue. */
  function RowColour(section: int): Colour
  {
    if section % 2 == 0 then Red else Blue
  }

  /** Height of a row's background: the item, the line gap and both insets. */
  function BandHeight(cfg: FlowConfig): int
  {
    cfg.itemSize.height + cfg.minimumLineSpacing + cfg.sectionInset.top + cfg.sectionInset.bottom
  }

  /** The decoration synthesised for a row-starting cell. */
  function DecorationFor(cfg: FlowConfig, contentWidth: int, cell: LayoutAttributes): LayoutAttributes
  {
    LayoutAttributes(
      DecorationView(DecorationKind),
      cell.indexPath,
      Rect(0, cell.frame.y - cfg.sectionInset.top, contentWidth, BandHeight(cfg)),
      cell.zIndex - 1,
      Some(RowColour(cell.indexPath.section)))
  }

  /** The decorations for a list of attributes, in the order of their cells. */
  function Decorations(cfg: FlowConfig, contentWidth: int, s: seq<LayoutAttributes>): seq<LayoutAttributes>
  {
    if s == [] then []
    else
      var last := s[|s| - 1];
      Decorations(cfg, contentWidth, s[..|s| - 1]) +
      (if StartsRow(cfg, last) then [DecorationFor(cfg, contentWidth, last)] else [])
  }

  /** What `layoutAttributesForElements` returns for what the framework returned. */
  function WithDecorations(cfg: FlowConfig, contentWidth: int, base: Option<seq<LayoutAttributes>>): Option<seq<LayoutAttributes>>
  {
    match base
    case None => None
    case Some(s) => Some(s + Decorations(cfg, contentWidth, s))
  }

  /** The positions of the row-starting cells, in increasing order. */
  function RowStartIndices(cfg: FlowConfig, s: seq<LayoutAttributes>): seq<int>
  {
    if s == [] then []
    else
      RowStartIndices(cfg, s[..|s| - 1]) +
      (if StartsRow(cfg, s[|s| - 1]) then [|s| - 1] else [])
  }

  /** The set of positions of row-starting cells. */
  function RowStartSet(cfg: FlowConfig, s: seq<LayoutAttributes>): set<int>
  {
    set i | 0 <= i < |s| && StartsRow(cfg, s[i])
  }

  /** The cell entries of a list, in order. */
  function CellsOf(s: seq<LayoutAttributes>): seq<LayoutAttributes>
  {
    if s == [] then []
    else CellsOf(s[..|s| - 1]) + (if s[|s| - 1].category == Cell then [s[|s| - 1]] else [])
  }

  /**
   * RowStartIndices lists exactly the row-starting positions, each inside
   * the list and in strictly increasing order.
   */
  lemma {:induction false} RowStartIndicesExact(cfg: FlowConfig, s: seq<LayoutAttributes>)
    ensures forall k :: 0 <= k < |RowStartIndices(cfg, s)| ==>
      0 <= RowStartIndices(cfg, s)[k] < |s| && StartsRow(cfg, s[RowStartIndices(cfg, s)[k]])
    ensures forall k, l :: 0 <= k < l < |RowStartIndices(cfg, s)| ==>
      RowStartIndices(cfg, s)[k] < RowStartIndices(cfg, s)[l]
    ensures forall i :: 0 <= i < |s| && StartsRow(cfg, s[i]) ==> i in RowStartIndices(cfg, s)
  {
    if s != [] {
      var n := |s| - 1;
      var p := s[..n];
      RowStartIndicesExact(cfg, p);
      var pidx := RowStartIndices(cfg, p);
      var tail := if StartsRow(cfg, s[n]) then [n] else [];
      var idx := pidx + tail;
      assert idx == RowStartIndices(cfg, s);
      assert forall i :: 0 <= i < n ==> p[i] == s[i];
      assert forall k :: 0 <= k < |pidx| ==> idx[k] == pidx[k] && pidx[k] < n;
      assert forall k :: |pidx| <= k < |idx| ==> idx[k] == n;
    }
  }

  /**
   * The k-th decoration is the one for the k-th row-starting cell: one
   * decoration per row start, none for anything else, in the cells' order.
   */
  lemma {:induction false} DecorationsFollowRowStarts(cfg: FlowConfig, w: int, s: seq<LayoutAttributes>)
    ensures |Decorations(cfg, w, s)| == |RowStartIndices(cfg, s)|
    ensures forall k :: 0 <= k < |RowStartIndices(cfg, s)| ==>
      0 <= RowStartIndices(cfg, s)[k] < |s| &&
      Decorations(cfg, w, s)[k] == DecorationFor(cfg, w, s[RowStartIndices(cfg, s)[k]])
  {
    if s != [] {
      var p := s[..|s| - 1];
      DecorationsFollowRowStarts(cfg, w, p);
      forall i | 0 <= i < |p| ensures p[i] == s[i] { }
    }
  }

  /** As many decorations as there are row-starting cells. */
  lemma {:induction false} DecorationCount(cfg: FlowConfig, w: int, s: seq<LayoutAttributes>)
    ensures |Decorations(cfg, w, s)| == |RowStartSet(cfg, s)|
  {
    if s != [] {
      var n := |s| - 1;
      var p := s[..n];
      DecorationCount(cfg, w, p);
      assert RowStartSet(cfg, p) == set i | 0 <= i < n && StartsRow(cfg, s[i]);
      if StartsRow(cfg, s[n]) {
        assert RowStartSet(cfg, s) == RowStartSet(cfg, p) + {n};
      } else {
        assert RowStartSet(cfg, s) == RowStartSet(cfg, p);
      }
    }
  }

  /** Every synthesised entry is a decoration, so it is not a cell. */
  lemma {:induction false} DecorationsAreNotCells(cfg: FlowConfig, w: int, s: seq<LayoutAttributes>)
    ensures CellsOf(Decorations(cfg, w, s)) == []
  {
    if s != [] {
      var d := Decorations(cfg, w, s[..|s| - 1]);
      DecorationsAreNotCells(cfg, w, s[..|s| - 1]);
      CellsOfAppend(d, if StartsRow(cfg, s[|s| - 1]) then [DecorationFor(cfg, w, s[|s| - 1])] else []);
    }
  }

  lemma {:induction false} CellsOfAppend(a: seq<LayoutAttributes>, b: seq<LayoutAttributes>)
    ensures CellsOf(a + b) == CellsOf(a) + CellsOf(b)
  {
    if b != [] {
      var n := |b| - 1;
      assert (a + b)[..|a + b| - 1] == a + b[..n];
      CellsOfAppend(a, b[..n]);
    } else {
      assert a + b == a;
    }
  }

  /**
   * The result keeps the framework's list as its prefix, unchanged and in
   * order; None stays None; the cell entries of the result are exactly the
   * framework's; every appended entry is a decoration.
   */
  lemma LayoutKeepsBase(cfg: FlowConfig, w: int, base: Option<seq<LayoutAttributes>>)
    ensures WithDecorations(cfg, w, base).None? <==> base.None?
    ensures base.Some? ==>
      var r := WithDecorations(cfg, w, base).value;
      |base.value| <= |r| && r[..|base.value|] == base.value &&
      CellsOf(r) == CellsOf(base.value) &&
      forall j :: |base.value| <= j < |r| ==> r[j].category == DecorationView(DecorationKind)
  {
    if base.Some? {
      var s := base.value;
      var d := Decorations(cfg, w, s);
      assert (s + d)[..|s|] == s;
      DecorationsAreNotCells(cfg, w, s);
      CellsOfAppend(s, d);
      DecorationsFollowRowStarts(cfg, w, s);
      var r: seq<LayoutAttributes> := s + d;
      assert forall m :: 0 <= m < |d| ==> d[m].category == DecorationView(DecorationKind);
      assert forall j :: |s| <= j < |r| ==> r[j] == d[j - |s|];
    }
  }

  /** The result has one entry more than the framework's list per row-starting cell. */
  lemma LayoutLength(cfg: FlowConfig, w: int, s: seq<LayoutAttributes>)
    ensures |WithDecorations(cfg, w, Some(s)).value| == |s| + |RowStartSet(cfg, s)|
  {
    DecorationCount(cfg, w, s);
  }

  /** Without a row-starting cell (in particular for an empty list), nothing is added. */
  lemma NoRowStartsNoDecorations(cfg: FlowConfig, w: int, s: seq<LayoutAttributes>)
    requires forall i :: 0 <= i < |s| ==> !StartsRow(cfg, s[i])
    ensures WithDecorations(cfg, w, Some(s)) == Some(s)
  {
    DecorationCount(cfg, w, s);
    assert RowStartSet(cfg, s) == {};
    assert s + [] == s;
  }

  /**
   * The decoration appended for the k-th row-starting cell: its category,
   * index path, colour by section parity, full-width row band and a
   * z-index just behind the cell.
   */
  lemma DecorationOfRow(cfg: FlowConfig, w: int, s: seq<LayoutAttributes>, k: int)
    requires 0 <= k < |RowStartIndices(cfg, s)|
    ensures
      var r := WithDecorations(cfg, w, Some(s)).value;
      var i := RowStartIndices(cfg, s)[k];
      |s| + k < |r| && 0 <= i < |s| && StartsRow(cfg, s[i]) &&
      var cell, d := s[i], r[|s| + k];
      d.category == DecorationView(DecorationKind) &&
      d.indexPath == cell.indexPath &&
      (d.colour == Some(Red) <==> cell.indexPath.section % 2 == 0) &&
      (d.colour == Some(Blue) <==> cell.indexPath.section % 2 == 1) &&
      d.frame == Rect(0, cell.frame.y - cfg.sectionInset.top, w,
        cfg.itemSize.height + cfg.minimumLineSpacing + cfg.sectionInset.top + cfg.sectionInset.bottom) &&
      d.zIndex == cell.zIndex - 1 && d.zIndex < cell.zIndex
  {
    DecorationsFollowRowStarts(cfg, w, s);
    RowStartIndicesExact(cfg, s);
    var d := Decorations(cfg, w, s);
    assert (s + d)[|s| + k] == d[k];
  }

  /**
   * A decoration's band reaches the top inset above its cell and, when the
   * cell has the configured item height, at least the bottom inset below it.
   */
  lemma DecorationCoversRow(cfg: FlowConfig, w: int, cell: LayoutAttributes)
    requires cell.frame.height == cfg.itemSize.height
    requires cfg.minimumLineSpacing >= 0
    ensures
      var d := DecorationFor(cfg, w, cell);
      d.frame.y + cfg.sectionInset.top == cell.frame.y &&
      cell.frame.y + cell.frame.height + cfg.sectionInset.bottom <= d.frame.y + d.frame.height &&
      d.frame.x == 0 && d.frame.width == w
  {
  }

  /** Adjacent sections get different colours. */
  lemma ColoursAlternate(section: int)
    ensures RowColour(section) != RowColour(section + 1)
    ensures RowColour(section) == RowColour(section + 2)
  {
  }

  /**
   * With the configuration `prepare` sets, every decoration the pass appends
   * is a full-width band 115 + 8 + 8 + 8 = 139 high that starts 8 above its
   * row-starting cell, which sits at x = 8.
   */
  lemma PreparedRowBands(w: int, s: seq<LayoutAttributes>, k: int)
    requires 0 <= k < |RowStartIndices(Prepared, s)|
    ensures
      var r := WithDecorations(Prepared, w, Some(s)).value;
      var i := RowStartIndices(Prepared, s)[k];
      |s| + k < |r| && 0 <= i < |s| && s[i].frame.x == 8 &&
      r[|s| + k].frame == Rect(0, s[i].frame.y - 8, w, 139)
  {
    DecorationOfRow(Prepared, w, s, k);
  }

  /** The layout object: the flow-layout fields that `prepare` sets. */
  class CollectionViewLayout {
    var minimumLineSpacing: int
    var minimumInteritemSpacing: int
    var sectionInset: EdgeInsets
    var itemSize: Size

    function Config(): FlowConfig
      reads this
    {
      FlowConfig(minimumLineSpacing, minimumInteritemSpacing, sectionInset, itemSize)
    }

    constructor ()
      ensures Config() == FlowDefaults
    {
      minimumLineSpacing := 10;
      minimumInteritemSpacing := 10;
      sectionInset := EdgeInsets(0, 0, 0, 0);
      itemSize := Size(50, 50);
    }

    /** `prepare`: spacing 8, insets 8 on every side, items 148 by 115. */
    method Prepare()
      modifies this
      ensures Config() == Prepared
    {
      minimumLineSpacing := 8;
      minimumInteritemSpacing := 8;
      sectionInset := EdgeInsets(8, 8, 8, 8);
      itemSize := Size(148, 115);
    }

    /**
     * `layoutAttributesForElements(in:)`, given what the framework returned
     * for the rectangle and the collection view's content width.
     */
    method LayoutAttributesForElements(superAttributes: Option<seq<LayoutAttributes>>, contentWidth: int)
      returns (r: Option<seq<LayoutAttributes>>)
      ensures r == WithDecorations(Config(), contentWidth, superAttributes)
    {
      if superAttributes.None? {
        return None;
      }
      var attributes := superAttributes.value;
      var allAttributes := attributes;
      for i := 0 to |attributes|
        invariant allAttributes == attributes + Decorations(Config(), contentWidth, attributes[..i])
      {
        var attribute := attributes[i];
        assert attributes[..i + 1][..i] == attributes[..i];
        if attribute.category == Cell && attribute.frame.x == sectionInset.left {
          var decorationAttributes := ForDecorationView(DecorationKind, attribute.indexPath);
          if attribute.indexPath.section % 2 == 0 {
            decorationAttributes := decorationAttributes.(colour := Some(Red));
          } else {
            decorationAttributes := decorationAttributes.(colour := Some(Blue));
          }
          var y := attribute.frame.y - sectionInset.top;
          var width := contentWidth;
          var height := itemSize.height + minimumLineSpacing + sectionInset.top + sectionInset.bottom;
          decorationAttributes := decorationAttributes.(frame := Rect(0, y, width, height));
          decorationAttributes := decorationAttributes.(zIndex := attribute.zIndex - 1);
          allAttributes := allAttributes + [decorationAttributes];
        }
      }
      assert attributes[..|attributes|] == attributes;
      return Some(allAttributes);
    }
  }
}
