/** The records and users of the application, and the constant tables used as form defaults. */
module Types {
  import opened Wrappers

  datatype LocationType = Urban | Rural | Coastal

  /** One line of a building budget produced by the generation gateway. */
  datatype BudgetLineItem = BudgetLineItem(category: string, item: string, estimate: string, source: string)

  /** One purchasable item of a room design produced by the generation gateway. */
  datatype InteriorItem = InteriorItem(name: string, price: string, buyLink: string)

  /** A synthesised building project; `clientId` is the ownership key. */
  datatype ProjectRecord = ProjectRecord(
    id: string,
    clientId: string,
    clientName: string,
    buildingName: string,
    date: string,
    totalArea: real,
    length: real,
    breadth: real,
    buildingType: string,
    location: LocationType,
    budget: string,
    mainColor: string,
    style: string,
    floors: real,
    roomsPerFloor: real,
    beforeImage: Option<string>,
    afterImage: Option<string>,
    afterImageSide: Option<string>,
    interiorImage: Option<string>,
    constructionSteps: Option<string>,
    budgetBreakdown: Option<seq<BudgetLineItem>>)

  datatype ColorRange = Warm | Cool | Neutral | Vibrant

  /** A synthesised room design; `roomType` is the record's `type` field. */
  datatype RoomRecord = RoomRecord(
    id: string,
    clientId: string,
    roomType: string,
    length: real,
    breadth: real,
    area: real,
    budget: Option<string>,
    primaryColor: string,
    colorRange: ColorRange,
    beforeImage: Option<string>,
    afterImage: Option<string>,
    date: string,
    items: Option<seq<InteriorItem>>)

  /** `CLIENT` or `DEVELOPER` (the administrator). */
  datatype Role = Client | Developer

  datatype User = User(id: string, username: string, role: Role, fullName: string)

  /** First entries of the constant tables, used as form defaults. */
  const FirstBuildingType: string := "Luxury Villa"
  const FirstColorName: string := "Slate Grey"
  const FirstColorValue: string := "#475569"
  const FirstCultureMode: string := "contemporary"
}
