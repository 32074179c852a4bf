/**
 * The client's schema bindings for the `dojo_starter` namespace: the entity
 * records exchanged with the on-chain model source, the `Direction` and
 * `Models` enumerations, and the table of zero-value defaults.
 *
 * Every entity carries its own `fieldOrder`, the canonical order in which its
 * fields are encoded and decoded. The lemmas below check the declared table:
 * tokens and identifiers are injective, identifiers are namespaced type names,
 * each default's `fieldOrder` lists the entity's data fields once each in
 * declaration order, and each default holds the declared zero values.
 */
module Bindings {

  /** A 2D grid coordinate. Coordinates are whole numbers in this model. */
  datatype Vec2 = Vec2(x: int, y: int)

  /** A movement direction; the source encodes each variant as a string token. */
  datatype Direction = None | Left | Right | Up | Down

  /** The variants of `Direction` in declaration order. */
  const Directions: seq<Direction> := [None, Left, Right, Up, Down]

  /** The string token a direction is encoded as: a single decimal digit. */
  function Token(d: Direction): (t: string)
    ensures |t| == 1 && '0' <= t[0] <= '4'
  {
    match d
    case None => "0"
    case Left => "1"
    case Right => "2"
    case Up => "3"
    case Down => "4"
  }

  // ---------------------------------------------------------------------------
  // Entity records. The first field of each is its canonical field order.

  datatype Moves = Moves(
    fieldOrder: seq<string>,
    player: string,
    remaining: int,
    last_direction: Direction,
    can_move: bool)

  datatype DirectionsAvailable = DirectionsAvailable(
    fieldOrder: seq<string>,
    player: string,
    directions: seq<Direction>)

  datatype PlayerSpawned = PlayerSpawned(
    fieldOrder: seq<string>,
    player: string,
    timestamp: int)

  datatype TreasureFound = TreasureFound(
    fieldOrder: seq<string>,
    player: string,
    timestamp: int,
    treasure_position: Vec2)

  datatype TreasurePosition = TreasurePosition(
    fieldOrder: seq<string>,
    player: string,
    vec: Vec2,
    example: int)

  datatype Position = Position(
    fieldOrder: seq<string>,
    player: string,
    vec: Vec2)

  /** The `dojo_starter` namespace: one instance of every entity type. */
  datatype Schema = Schema(
    moves: Moves,
    directionsAvailable: DirectionsAvailable,
    position: Position,
    treasureFound: TreasureFound,
    playerSpawned: PlayerSpawned,
    treasurePosition: TreasurePosition)

  /** The table of zero-value defaults. */
  const schema: Schema := Schema(
    Moves.Moves(["player", "remaining", "last_direction", "can_move"], "", 0, None, false),
    DirectionsAvailable.DirectionsAvailable(["player", "directions"], "", []),
    Position.Position(["player", "vec"], "", Vec2(0, 0)),
    TreasureFound.TreasureFound(["player", "timestamp", "treasure_position"], "", 0, Vec2(0, 0)),
    PlayerSpawned.PlayerSpawned(["player", "timestamp"], "", 0),
    TreasurePosition.TreasurePosition(["player", "vec", "example"], "", Vec2(0, 0), 1))

  // ---------------------------------------------------------------------------
  // Model identifiers.

  /** The model types, as enumerated by the source's `Models` enum. */
  datatype Models = Moves | DirectionsAvailable | Position | TreasureFound | TreasurePosition | PlayerSpawned

  /** The namespace every model identifier is qualified with. */
  const Namespace: string := "dojo_starter"

  /** The name under which a model type appears in the namespace. */
  function TypeName(m: Models): (name: string)
    ensures |name| > 0
  {
    match m
    case Moves => "Moves"
    case DirectionsAvailable => "DirectionsAvailable"
    case Position => "Position"
    case TreasureFound => "TreasureFound"
    case TreasurePosition => "TreasurePosition"
    case PlayerSpawned => "PlayerSpawned"
  }

  /** The external identifier of a model type, as the enum declares it. */
  function Identifier(m: Models): (id: string)
    ensures |id| > |Namespace| + 1 && id[..|Namespace| + 1] == Namespace + "-"
  {
    match m
    case Moves => "dojo_starter-Moves"
    case DirectionsAvailable => "dojo_starter-DirectionsAvailable"
    case Position => "dojo_starter-Position"
    case TreasureFound => "dojo_starter-TreasureFound"
    case TreasurePosition => "dojo_starter-TreasurePosition"
    case PlayerSpawned => "dojo_starter-PlayerSpawned"
  }

  // ---------------------------------------------------------------------------
  // Field orders.

  /** The data fields of each entity interface, in declaration order (every field but `fieldOrder`). */
  function DeclaredFields(m: Models): (fields: seq<string>)
    ensures |fields| >= 2
  {
    match m
    case Moves => ["player", "remaining", "last_direction", "can_move"]
    case DirectionsAvailable => ["player", "directions"]
    case Position => ["player", "vec"]
    case TreasureFound => ["player", "timestamp", "treasure_position"]
    case TreasurePosition => ["player", "vec", "example"]
    case PlayerSpawned => ["player", "timestamp"]
  }

  /** The `fieldOrder` that the default instance of a model type carries. */
  function DefaultFieldOrder(m: Models): seq<string>
  {
    match m
    case Moves => schema.moves.fieldOrder
    case DirectionsAvailable => schema.directionsAvailable.fieldOrder
    case Position => schema.position.fieldOrder
    case TreasureFound => schema.treasureFound.fieldOrder
    case TreasurePosition => schema.treasurePosition.fieldOrder
    case PlayerSpawned => schema.playerSpawned.fieldOrder
  }

  /** No element of `s` occurs twice. */
  predicate NoDuplicates<T(==)>(s: seq<T>)
  {
    forall i, j :: 0 <= i < j < |s| ==> s[i] != s[j]
  }

  // ---------------------------------------------------------------------------
  // Properties of the declared table.

  /** The five tokens are the digits "0" to "4", in declaration order. */
  lemma TokensAreDigits()
    ensures |Directions| == 5
    ensures forall k :: 0 <= k < |Directions| ==> Token(Directions[k]) == [('0' as int + k) as char]
  {
  }

  /** `Directions` lists every variant exactly once. */
  lemma DirectionsEnumerated(d: Direction)
    ensures d in Directions
    ensures NoDuplicates(Directions)
  {
  }

  /** Distinct directions have distinct tokens. */
  lemma TokenInjective(d: Direction, e: Direction)
    ensures Token(d) == Token(e) <==> d == e
  {
  }

  /** Every identifier is the namespace, a dash, and the type name. */
  lemma IdentifierIsQualifiedTypeName(m: Models)
    ensures Identifier(m) == Namespace + "-" + TypeName(m)
  {
    match m
    case Moves => MovesIsQualified();
    case DirectionsAvailable => DirectionsAvailableIsQualified();
    case Position => PositionIsQualified();
    case TreasureFound => TreasureFoundIsQualified();
    case TreasurePosition => TreasurePositionIsQualified();
    case PlayerSpawned => PlayerSpawnedIsQualified();
  }

  // One lemma per model type keeps each comparison of string literals small.

  lemma MovesIsQualified()
    ensures Identifier(Models.Moves) == Namespace + "-" + TypeName(Models.Moves)
  {
  }

  lemma DirectionsAvailableIsQualified()
    ensures Identifier(Models.DirectionsAvailable) == Namespace + "-" + TypeName(Models.DirectionsAvailable)
  {
  }

  lemma PositionIsQualified()
    ensures Identifier(Models.Position) == Namespace + "-" + TypeName(Models.Position)
  {
  }

  lemma TreasureFoundIsQualified()
    ensures Identifier(Models.TreasureFound) == Namespace + "-" + TypeName(Models.TreasureFound)
  {
  }

  lemma TreasurePositionIsQualified()
    ensures Identifier(Models.TreasurePosition) == Namespace + "-" + TypeName(Models.TreasurePosition)
  {
  }

  lemma PlayerSpawnedIsQualified()
    ensures Identifier(Models.PlayerSpawned) == Namespace + "-" + TypeName(Models.PlayerSpawned)
  {
  }

  /** Distinct model types have distinct type names. */
  lemma TypeNameInjective(m: Models, n: Models)
    ensures TypeName(m) == TypeName(n) <==> m == n
  {
  }

  /** Distinct model types have distinct identifiers. */
  lemma IdentifierInjective(m: Models, n: Models)
    ensures Identifier(m) == Identifier(n) <==> m == n
  {
    IdentifierIsQualifiedTypeName(m);
    IdentifierIsQualifiedTypeName(n);
    TypeNameInjective(m, n);
    var k := |Namespace + "-"|;
    assert Identifier(m)[k..] == TypeName(m);
    assert Identifier(n)[k..] == TypeName(n);
  }

  /** Each default's field order is the entity's data fields, in declaration order, once each, starting with the player. */
  lemma FieldOrderMatchesDeclaration(m: Models)
    ensures DefaultFieldOrder(m) == DeclaredFields(m)
    ensures NoDuplicates(DefaultFieldOrder(m))
    ensures DefaultFieldOrder(m)[0] == "player"
  {
  }

  /** The default instances hold the declared zero values. */
  lemma DefaultValues()
    ensures schema.moves.player == "" && schema.moves.remaining == 0
    ensures schema.moves.last_direction == None && !schema.moves.can_move
    ensures schema.directionsAvailable.player == "" && schema.directionsAvailable.directions == []
    ensures schema.position.player == "" && schema.position.vec == Vec2(0, 0)
    ensures schema.treasureFound.player == "" && schema.treasureFound.timestamp == 0
    ensures schema.treasureFound.treasure_position == Vec2(0, 0)
    ensures schema.treasurePosition.player == "" && schema.treasurePosition.vec == Vec2(0, 0)
    ensures schema.treasurePosition.example == 1
    ensures schema.playerSpawned.player == "" && schema.playerSpawned.timestamp == 0
  {
  }
}
