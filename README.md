# Coloured collection-view sections: decoration synthesis

This project models the custom grid layout of the DecorationView demo app.
`ECCollectionViewLayout` is a flow layout. The framework lays out the cells of
a rectangle first. The layout then adds one background decoration for every
cell that starts a row, meaning a cell whose left edge lies on the section's
left inset. Each decoration:

- takes the index path of that cell;
- is red for an even section and blue for an odd one;
- covers the whole row band, at full content width;
- sits one z-level behind the cell.

`ECCollectionViewLayoutAttributes` adds that colour to the framework's
attributes class, and overrides `copy` and `isEqual` so the colour is copied
and compared.

Files:

- `attributes.dfy`: two modules.
  - `Wrappers` holds the optional-value type.
  - `Attributes` holds the attribute value (category, index path, frame, z-index, optional colour), the argument type of `isEqual`, and `isEqual`, `copy` and the framework's own copy.
- `layout.dfy`: module `Layout`.
  - The flow configuration and the constants `prepare` sets (spacing 8, insets 8 on all sides, items 148 × 115).
  - The specification functions of the pass: `Decorations`, `WithDecorations`, an independent row-start index list, and the lemmas about them.
  - The class `CollectionViewLayout`. It holds the four fields that `prepare` assigns, plus the synthesis loop as a method, proved equal to `WithDecorations`.

The framework's call `super.layoutAttributesForElements(in:)` becomes the
method's `superAttributes` parameter, which may be `None` for nil.
`collectionViewContentSize.width` becomes the `contentWidth` parameter.
Geometry is modelled as integers, because the layout only works with
small whole-number constants and compares them with exact equality.
The parity test `section % 2 == 0` gives the same answer under Swift's
truncating remainder and Dafny's Euclidean one.

## Model

| member | source | states |
|---|---|---|
| `Layout.CollectionViewLayout.LayoutAttributesForElements` | DecorationView/ViewController.swift:30-69 | The loop over the framework's list returns nil for nil, and otherwise exactly the framework's list followed by one decoration per row-starting cell, i.e. `WithDecorations` of the current configuration |
| `Layout.CollectionViewLayout.Prepare` | DecorationView/ViewController.swift:19-25 | After `prepare` the layout's line spacing and inter-item spacing are 8, all four section insets are 8 and the item size is 148 × 115 |
| `Layout.CollectionViewLayout.constructor` | DecorationView/ViewController.swift:106 | A fresh layout has the flow layout's default configuration until `prepare` runs |
| `Layout.LayoutKeepsBase` | DecorationView/ViewController.swift:31-68 | Nil in gives nil out. Otherwise the framework's list is the unchanged prefix of the result, the result's cell entries are exactly the framework's cells in order, and every appended entry is a `section_background` decoration |
| `Layout.LayoutLength` | DecorationView/ViewController.swift:33-64 | Result length = framework list length + number of positions holding a cell whose x equals the section's left inset |
| `Layout.NoRowStartsNoDecorations` | DecorationView/ViewController.swift:33-68 | A list with no row-starting cell, including the empty list, comes back unchanged |
| `Layout.RowStartIndicesExact` | DecorationView/ViewController.swift:35-39 | The row-start index list is strictly increasing and holds exactly the in-range positions of cells whose x equals the left inset |
| `Layout.DecorationsFollowRowStarts` | DecorationView/ViewController.swift:35-64 | The k-th appended decoration is the decoration of the k-th row-starting cell: one per row start, none for any other entry, in the cells' order |
| `Layout.DecorationCount` | DecorationView/ViewController.swift:35-64 | Number of decorations = number of row-starting positions |
| `Layout.DecorationsAreNotCells` | DecorationView/ViewController.swift:42-44 | No synthesised entry is a cell |
| `Layout.DecorationOfRow` | DecorationView/ViewController.swift:42-64 | Decoration for the k-th row start: category `section_background`, the cell's index path, red iff section even, blue iff odd, frame (0, cell.y − top inset, content width, item height + line spacing + top + bottom), z-index = cell's − 1, so strictly below the cell |
| `Layout.DecorationCoversRow` | DecorationView/ViewController.swift:53-58 | A decoration starts exactly the top inset above its cell and, for a cell of the configured item height, ends at least the bottom inset below it. It starts at x = 0 and spans the content width |
| `Layout.ColoursAlternate` | DecorationView/ViewController.swift:47-51 | Adjacent sections get different colours; sections two apart get the same colour |
| `Layout.PreparedRowBands` | DecorationView/ViewController.swift:22-58 | With the configuration `prepare` sets, the decoration appended for each row-starting cell (which sits at x = 8) has frame (0, cell.y − 8, content width, 115 + 8 + 8 + 8 = 139) |
| `Attributes.IsEqual` | DecorationView/ViewController.swift:82-89 | `isEqual` holds exactly when the argument is a coloured attributes object equal in colour and in every framework field |
| `Attributes.IsEqualNeedsColour` | DecorationView/ViewController.swift:83-86 | Changing only the colour breaks equality. Nil, a plain framework attributes object with the same fields, and an unrelated object are never equal |
| `Attributes.IsEqualIsEquivalence` | DecorationView/ViewController.swift:82-89 | `isEqual` is reflexive, symmetric and transitive |
| `Attributes.Copy` | DecorationView/ViewController.swift:76-80 | The copy equals the original in every field including its colour, and `isEqual` holds in both directions |
| `Attributes.SuperCopyDropsColour` | DecorationView/ViewController.swift:75-80 | The framework's copy alone is `isEqual` to the original only when the original has no colour, which is why the override carries the colour over |

## Left out

- The framework's flow-layout computation (`super.layoutAttributesForElements(in:)` and `collectionViewContentSize`) is a foreign UIKit call. Its result and the content width are parameters, so the query rectangle, which only reaches that call, is not modelled.
- `layoutAttributesClass` (lines 15-17) is not modelled as code. The model assumes every attribute the framework returns is of the coloured subclass, which is what that override arranges.
- Decoration-view registration in `prepare` (line 27), cell registration in `viewDidLoad` (line 105) and cell dequeueing (lines 119-123) are UIKit plumbing.
- `super.prepare()` (line 20) is a framework call with no effect on the four fields the pass reads; `Layout.CollectionViewLayout.Prepare` models only the assignments of lines 22-25.
- `attribute.zIndex - 1` (line 61) is Swift `Int` arithmetic, which traps on overflow: for a cell whose z-index is `Int.min` the source crashes, while the model's unbounded `int` returns a decoration with z-index `Int.min - 1`. The model does not capture that trap.
- The `as!` cast in `copy` (line 77) traps if the framework's copy returns another class. `Attributes.SuperCopy` assumes the framework's copy returns the same subclass, copies the four modelled framework fields and leaves `colour` nil; this framework behaviour is assumed, not derived.
- `Attributes.ForDecorationView` assumes the framework's decoration initialiser (lines 42-44) yields a zero frame, z-index 0 and a nil colour; only the category and index path matter to the result, since lines 47-61 overwrite the rest.
- `ECCollectionReusableView.apply` (lines 93-97) only sets a view's background colour: the attributes' colour when they are of the coloured subclass, nil otherwise. It has no logic to verify.
- The data-source constants (4 sections, 7 items, lines 111-117) are constant returns.
- `CGFloat`, `UIColor` and `NSZone` become integers, a two-value colour type and nothing. The framework's attribute fields are reduced to category, index path, frame and z-index: alpha, transform and hidden are not modelled, and neither is their part in `super.isEqual`.
- `Layout.CollectionViewLayout.constructor`: the default values (spacing 10, zero insets, 50 × 50 items) are the flow layout's documented defaults. The source never reads them before `prepare` overwrites them.
