/** The entities the repository reads and writes: a listing ("lot"), its rooms and their
    living places, and the page envelope GetFlats returns. */
module Models {

  const TWO_TO_63: int := 0x8000_0000_0000_0000
  const TWO_TO_64: int := 0x1_0000_0000_0000_0000

  /** An S2 cell identifier: a uint64. */
  type CellId = c: int | 0 <= c < TWO_TO_64

  /** Go's int(item) on a uint64 cell id: the same 64 bits read as a signed two's-complement int. */
  function CellIdAsInt(c: CellId): (i: int)
    ensures -TWO_TO_63 <= i < TWO_TO_63
    ensures (i - c) % TWO_TO_64 == 0
    ensures c < TWO_TO_63 <==> i == c
  {
    if c < TWO_TO_63 then c else c - TWO_TO_64
  }

  /** uint64(i): the inverse of CellIdAsInt on the signed 64-bit range. */
  function IntAsCellId(i: int): (c: CellId)
    requires -TWO_TO_63 <= i < TWO_TO_63
    ensures CellIdAsInt(c) == i
  {
    if i >= 0 then i else i + TWO_TO_64
  }

  /** A berth in a room; `roomId` is the foreign key to its room. */
  datatype LivingPlace = LivingPlace(id: int, roomId: int, numOfBerths: int)

  /** A room of a lot; `flatId` is the foreign key to its lot. */
  datatype Room = Room(id: int, flatId: int, maxResidents: int, area: int, livingPlaces: seq<LivingPlace>)

  /** X is the longitude and Y the latitude, in degrees; cellId is derived from them. */
  datatype Point = Point(x: real, y: real, cellId: CellId)

  datatype Lot = Lot(
    id: int,
    ownerId: int,
    address: string,
    coordinates: Point,
    price: int,
    area: int,
    isVisible: bool,
    isConstructor: bool,
    rooms: seq<Room>)

  /** The page envelope: the page number asked for, the page count and the page's lots. */
  datatype Paginations = Paginations(currentPage: int, numPages: int, data: seq<Lot>)

  function FlatIdOf(r: Room): int { r.flatId }

  function RoomIdOf(p: LivingPlace): int { p.roomId }
}
