# Grid and schema bindings of the dojo_starter client

This project models the two pieces of logic in the game client:

- **Grid** (`grid.dfy`): the per-cell computation of the `Grid` component. Given an
  optional player `Position` and an optional `TreasurePosition`, it yields 20 x 20 = 400
  cell descriptors. Cell `i` sits at column `i % 20` and row `floor(i / 20)`. A cell has
  the player flag iff the position is defined and its `vec` equals that `(x, y)`. The
  treasure flag follows the same rule. A cell is styled `relative` when it has either
  flag. It draws the player dot and then the treasure gem. Absent inputs and off-grid
  coordinates mark nothing and raise no error.
- **Bindings** (`bindings.dfy`): the schema of the `dojo_starter` namespace. It holds the
  `Direction` enum and its string tokens, and the `Models` enum and its identifiers. It
  has one record per entity, each carrying its `fieldOrder`, and the `schema` table of
  zero-value defaults.

The source has no functions in the bindings file. The model's value there is in lemmas
about the declared table. Tokens and identifiers are injective. Identifiers are
`"dojo_starter-"` followed by the type name. Each default's field order lists the
entity's data fields once each, in declaration order. The defaults hold the declared
values.

Coordinates and timestamps are TypeScript `number`s; the model uses `int`. The grid only
applies `%`, the floor of a non-negative quotient, and `===` to them, and Dafny's
operators agree with JavaScript's on non-negative operands.

## Model

| member | source | states |
|---|---|---|
| Grid.Cells | client/src/components/Grid.tsx:9-15 | the grid always has exactly 20*20 = 400 cells, and cell `i` carries on-grid coordinates whose row-major index is `i` |
| Grid.Row | client/src/components/Grid.tsx:15 | the row is the floor of `i / 20`: `row*20 <= i < (row+1)*20` |
| Grid.Column | client/src/components/Grid.tsx:14 | the column `i % 20` lies in `[0, 20)` |
| Grid.IndexOfCoordinates | client/src/components/Grid.tsx:13-15 | every index in `[0, 400)` has both coordinates in `[0, 20)` and equals `y*20 + x` |
| Grid.CoordinatesOfIndex | client/src/components/Grid.tsx:13-15 | every on-grid `(x, y)` has index `y*20 + x` below 400, and that index's column and row are `x` and `y` |
| Grid.IndexBijection | client/src/components/Grid.tsx:13-15 | index and coordinates determine each other: `i == y*20 + x` iff `i % 20 == x` and `i / 20 == y` |
| Grid.MatchingIndicesAreTarget | client/src/components/Grid.tsx:13-19 | the indices matching an optional vector are exactly its one cell when it is defined and on the grid, and none otherwise |
| Grid.PlayerFlag | client/src/components/Grid.tsx:16-17 | a cell has the player flag iff the position is defined and its `vec` equals the cell's `(x, y)` |
| Grid.TreasureFlag | client/src/components/Grid.tsx:18-19 | a cell has the treasure flag iff the treasure is defined and its `vec` equals the cell's `(x, y)` |
| Grid.CountShowing | client/src/components/Grid.tsx:13-19 | the number of cells showing a marker is at most the number of cells, and is zero iff no cell shows it |
| Grid.CountIsCardinality | client/src/components/Grid.tsx:13-19 | that count equals the number of distinct indices whose cell shows the marker |
| Grid.MarkerPlacedOnce | client/src/components/Grid.tsx:13-19 | the cells showing a marker are exactly the one cell of its vector when that vector is present and on the grid, and none otherwise; so the count is 1 or 0 |
| Grid.PlayerMarkedOnce | client/src/components/Grid.tsx:13-17 | exactly one cell, at `y*20 + x`, has the player flag when the position is defined and on the grid; no cell has it when the position is absent or off the grid |
| Grid.TreasureMarkedOnce | client/src/components/Grid.tsx:13-19 | exactly one cell, at `y*20 + x`, has the treasure flag when the treasure is defined and on the grid; no cell has it when the treasure is absent or off the grid |
| Grid.MarkersIndependent | client/src/components/Grid.tsx:16-19 | the player flags do not depend on the treasure, and the treasure flags do not depend on the position |
| Grid.MarkedIffDrawsMarker | client/src/components/Grid.tsx:25-34 | a cell is styled `relative` iff it draws a marker; a cell with both flags draws the player dot, then the gem |
| Grid.MarkedCellsAreTargets | client/src/components/Grid.tsx:13-25 | the marked cells are the union of the player's and the treasure's cells, so at most two |
| Grid.SharedCell | client/src/components/Grid.tsx:16-34 | when both vectors name the same on-grid cell, only that cell is marked, and it draws both markers, player first |
| Grid.EmptyGrid | client/src/components/Grid.tsx:16-25 | with both inputs absent, no cell is marked |
| Grid.PlayerOnlyGrid | client/src/components/Grid.tsx:16-29 | a player at (5, 3) without treasure marks only cell 65, with the player dot only |
| Grid.SharedCellGrid | client/src/components/Grid.tsx:16-34 | a player and a treasure both at (2, 2) mark only cell 42, with both markers |
| Grid.OffGridPlayer | client/src/components/Grid.tsx:16-25 | a player at (25, 0) marks no cell, without error |
| Bindings.Token | client/src/bindings.ts:64-70 | every direction token is a single digit from "0" to "4" |
| Bindings.TokensAreDigits | client/src/bindings.ts:64-70 | the tokens of None, Left, Right, Up, Down are exactly "0", "1", "2", "3", "4" |
| Bindings.DirectionsEnumerated | client/src/bindings.ts:64-70 | the declared list holds every direction, once each |
| Bindings.TokenInjective | client/src/bindings.ts:64-70 | two directions have the same token iff they are equal |
| Bindings.TypeName | client/src/bindings.ts:85-94 | every type name of the schema is non-empty |
| Bindings.Identifier | client/src/bindings.ts:99-106 | every model identifier begins with `"dojo_starter-"` and has something after it |
| Bindings.IdentifierIsQualifiedTypeName | client/src/bindings.ts:99-106 | each identifier is `"dojo_starter-"` followed by its type name |
| Bindings.TypeNameInjective | client/src/bindings.ts:85-94 | two model types have the same type name iff they are equal |
| Bindings.IdentifierInjective | client/src/bindings.ts:99-106 | two model types have the same identifier iff they are equal |
| Bindings.DeclaredFields | client/src/bindings.ts:4-59 | every entity declares at least two data fields besides `fieldOrder` |
| Bindings.FieldOrderMatchesDeclaration | client/src/bindings.ts:108-145 | each default's `fieldOrder` equals the entity's declared data fields in order, has no duplicates, and begins with `"player"` |
| Bindings.DefaultValues | client/src/bindings.ts:108-145 | the defaults: empty player ids, `remaining == 0`, `last_direction == None`, `can_move == false`, empty `directions`, vectors `(0, 0)`, `timestamp == 0`, `example == 1` |

## Left out

- The JSX markup, Tailwind class strings other than the `relative` condition, pixel sizes and the look of the dot and the gem: only the per-cell flags and the marker order are modelled.
- Type-only exports and module syntax of the bindings file: they carry no behaviour.
- The on-chain source that supplies entity instances, and any movement or treasure game logic: none of it is in these files.
- Non-integer or floating-point `number` values: coordinates and timestamps are `int`. A fractional coordinate would never match a cell in the source either.
- A `vec` that is itself `undefined` at run time: the `Position` and `TreasurePosition` types declare `vec` as required, so the model always has one.
- Direction decoding and a lookup by unknown type name: the code has neither, so the model does not add them.
