/** The value types shared by the editor, the prompt builder and the application shell:
    room specifications, floor items and the structured design plan. */
module Types {

  /** A value that may be absent (`null` / `undefined` in the application). */
  datatype Option<+T> = None | Some(value: T)

  /** The outcome of an operation that may throw. */
  datatype Result<+T, +E> = Ok(value: T) | Err(error: E)

  /** What the user asks for: area in square metres, required zones, style, free text. */
  datatype RoomSpecs = RoomSpecs(totalArea: real, features: seq<string>, style: string, constraints: string)

  /** The closed set of item kinds; it decides the icon only. */
  datatype ItemType = Stairs | Kitchen | Sofa | Desk | Bath | Door | OutdoorSeating | Bed | Plant

  /** Privacy class of an item; it shapes prompt text and borders only. */
  datatype Connectivity = Open | Partition | Enclosed

  datatype Zone = Indoor | Outdoor

  /** One placeable block of the floor plan. `x`, `y`, `w`, `h` are percentages of the
      editor canvas and are never range-checked; `rotation` is in degrees. */
  datatype FloorItem = FloorItem(
    id: string,
    kind: ItemType,
    name: string,
    x: real,
    y: real,
    w: real,
    h: real,
    rotation: int,
    connectivity: Connectivity,
    zone: Zone,
    color: string,
    icon: string)

  datatype AreaBreakdown = AreaBreakdown(zone: string, area: string, description: string)

  /** The plan returned by the remote text service; the application only displays it. */
  datatype DesignResponse = DesignResponse(
    conceptName: string,
    designPhilosophy: string,
    spatialArrangement: string,
    areaBreakdown: seq<AreaBreakdown>,
    materials: seq<string>,
    lighting: string,
    furnitureRecommendations: seq<string>)

  /** The string spelling of an item kind, as the `type` field holds it. */
  function TypeName(t: ItemType): string
  {
    match t
    case Stairs => "stairs"
    case Kitchen => "kitchen"
    case Sofa => "sofa"
    case Desk => "desk"
    case Bath => "bath"
    case Door => "door"
    case OutdoorSeating => "outdoor_seating"
    case Bed => "bed"
    case Plant => "plant"
  }
}
