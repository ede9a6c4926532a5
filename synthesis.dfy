/**
 * The synthesis handlers' pure core: validation of the draft, the base record, the
 * all-or-nothing join of the gateway outcomes, and the finished record.
 */
module Synthesis {
  import opened Wrappers
  import opened Types
  import opened JsText
  import opened Geometry
  import opened Forms

  /** What `generateBuildingRenders` yields: an optional before image, the render, a side view. */
  datatype Renders = Renders(before: Option<string>, after: string, afterSide: Option<string>)

  /**
   * How a synthesis handler ends: the draft was rejected before any gateway call, a gateway
   * call failed, or one finished record was created.
   */
  datatype Synthesis<T> = Rejected | Failed | Created(record: T)

  /** `Promise.all` over four calls: every value when all four fulfilled, nothing otherwise. */
  function Join4<A, B, C, D>(a: Result<A>, b: Result<B>, c: Result<C>, d: Result<D>): (r: Option<(A, B, C, D)>)
    ensures r.Some? <==> a.Ok? && b.Ok? && c.Ok? && d.Ok?
    ensures r.Some? ==> r.value == (a.value, b.value, c.value, d.value)
  {
    if a.Ok? && b.Ok? && c.Ok? && d.Ok? then Some((a.value, b.value, c.value, d.value)) else None
  }

  /** `Promise.all` over two calls: both values when both fulfilled, nothing otherwise. */
  function Join2<A, B>(a: Result<A>, b: Result<B>): (r: Option<(A, B)>)
    ensures r.Some? <==> a.Ok? && b.Ok?
    ensures r.Some? ==> r.value == (a.value, b.value)
  {
    if a.Ok? && b.Ok? then Some((a.value, b.value)) else None
  }

  /** JavaScript truthiness of an optional string: present and non-empty. */
  predicate Truthy(s: Option<string>) {
    s.Some? && s.value != ""
  }

  /** `s || fallback` on a string. */
  function OrText(s: string, fallback: string): string {
    if s != "" then s else fallback
  }

  /** `a || b` on optional strings. */
  function OrOption(a: Option<string>, b: Option<string>): Option<string> {
    if Truthy(a) then a else b
  }

  /** `${prefix}${Math.floor(1000 + Math.random() * 9000)}`, the random draw giving `r` in [0, 9000). */
  function RecordId(prefix: string, r: nat): string
    requires r < 9000
  {
    prefix + NatToDecimal(1000 + r)
  }

  /** `prefix` followed by four decimal digits, the first not zero. */
  predicate IsRecordId(prefix: string, id: string) {
    && |id| == |prefix| + 4
    && id[..|prefix|] == prefix
    && AllDigits(id[|prefix|..])
    && id[|prefix|] != '0'
  }

  /** A generated id is the prefix and four digits that read back as 1000 + r. */
  lemma RecordIdShape(prefix: string, r: nat)
    requires r < 9000
    ensures IsRecordId(prefix, RecordId(prefix, r))
    ensures DecimalValue(RecordId(prefix, r)[|prefix|..]) == 1000 + r
  {
    var id := RecordId(prefix, r);
    FourDigits(1000 + r);
    DecimalRoundTrip(1000 + r);
    assert id[|prefix|..] == NatToDecimal(1000 + r);
    assert id[..|prefix|] == prefix;
  }

  // ------------------------------------------------------------ building projects

  /** `generateProject`'s guard: a title, a truthy area (negative passes) and a signed-in user. */
  predicate ProjectDraftReady(form: ProjectForm, user: Option<User>) {
    form.buildingName != "" && OrZero(form.totalArea) != 0.0 && user.Some?
  }

  /** The record sent to the gateway: the form, a fresh id, the owner and the date. */
  function BaseProject(form: ProjectForm, user: User, r: nat, date: string): ProjectRecord
    requires r < 9000
  {
    ProjectRecord(
      RecordId("PRJ-", r), user.id, OrText(user.fullName, "Private Client"),
      form.buildingName, date, OrZero(form.totalArea), OrZero(form.length), OrZero(form.breadth),
      form.buildingType, form.location, form.budget, form.mainColor, form.style,
      form.floors, form.roomsPerFloor,
      None, None, None, None, None, None)
  }

  /**
   * `generateProject` as a value: the guard, the base record, the join of the four gateway
   * outcomes and the finished record. A record is created exactly when the draft is ready
   * and all four calls fulfilled; it is owned by the user, carries a well-formed id, the
   * uploaded photo (or the generated one) as before image, every gateway result, and the
   * form's fields as `...formData` copies them (a missing length or breadth as 0).
   */
  function SynthesizeProject(
    form: ProjectForm, user: Option<User>, previewImage: Option<string>, r: nat, date: string,
    renders: Result<Renders>, analysisText: Result<string>, interior: Result<string>,
    budget: Result<seq<BudgetLineItem>>): (s: Synthesis<ProjectRecord>)
    requires r < 9000
    ensures s.Rejected? <==> !ProjectDraftReady(form, user)
    ensures s.Failed? <==>
      ProjectDraftReady(form, user) && !(renders.Ok? && analysisText.Ok? && interior.Ok? && budget.Ok?)
    ensures s.Created? ==>
      && IsRecordId("PRJ-", s.record.id)
      && s.record.clientId == user.value.id
      && s.record.clientName == (if user.value.fullName != "" then user.value.fullName else "Private Client")
      && s.record.beforeImage == (if Truthy(previewImage) then previewImage else renders.value.before)
      && s.record.afterImage == Some(renders.value.after)
      && s.record.interiorImage == Some(interior.value)
      && s.record.constructionSteps == Some(analysisText.value)
      && s.record.budgetBreakdown == Some(budget.value)
      && s.record.afterImageSide == None
      && s.record.buildingName == form.buildingName
      && form.totalArea.Some? && s.record.totalArea == form.totalArea.value
      && s.record.length == OrZero(form.length) && s.record.breadth == OrZero(form.breadth)
      && s.record.buildingType == form.buildingType && s.record.location == form.location
      && s.record.budget == form.budget && s.record.mainColor == form.mainColor
      && s.record.style == form.style
      && s.record.floors == form.floors && s.record.roomsPerFloor == form.roomsPerFloor
      && s.record.date == date
  {
    if !ProjectDraftReady(form, user) then Rejected
    else
      var base := BaseProject(form, user.value, r, date);
      match Join4(renders, analysisText, interior, budget)
      case None => Failed
      case Some((rendered, text, interiorImage, items)) =>
        RecordIdShape("PRJ-", r);
        Created(base.(
          beforeImage := OrOption(previewImage, rendered.before),
          afterImage := Some(rendered.after),
          interiorImage := Some(interiorImage),
          budgetBreakdown := Some(items),
          constructionSteps := Some(text)))
  }

  // ------------------------------------------------------------------ rooms

  /** `handleGenerateRoom`'s guard: a room type, a truthy area and a signed-in user. */
  predicate RoomDraftReady(form: RoomForm, user: Option<User>) {
    form.roomType != "" && OrZero(form.area) != 0.0 && user.Some?
  }

  /** The room payload sent to the gateway. */
  function BaseRoom(form: RoomForm, user: User, roomPreviewImage: Option<string>, r: nat, date: string): RoomRecord
    requires r < 9000
  {
    RoomRecord(
      RecordId("ROOM-", r), user.id, OrText(form.roomType, "Room"),
      OrZero(form.length), OrZero(form.breadth), OrZero(form.area),
      Some(OrText(form.budget, "0")), OrText(form.primaryColor, FirstColorName), Neutral,
      if Truthy(roomPreviewImage) then roomPreviewImage else None,
      None, date, None)
  }

  /**
   * `handleGenerateRoom` as a value. A room is created exactly when the draft is ready and
   * both gateway calls fulfilled; it is owned by the user, has a well-formed id, the neutral
   * colour range, a budget defaulting to "0", a primary colour defaulting to the first
   * palette entry, the form's dimensions, the photo (if any) as before image, and the
   * render and item list the gateway returned.
   */
  function SynthesizeRoom(
    form: RoomForm, user: Option<User>, roomPreviewImage: Option<string>, r: nat, date: string,
    visual: Result<string>, items: Result<seq<InteriorItem>>): (s: Synthesis<RoomRecord>)
    requires r < 9000
    ensures s.Rejected? <==> !RoomDraftReady(form, user)
    ensures s.Failed? <==> RoomDraftReady(form, user) && !(visual.Ok? && items.Ok?)
    ensures s.Created? ==>
      && IsRecordId("ROOM-", s.record.id)
      && s.record.clientId == user.value.id
      && s.record.roomType == form.roomType
      && s.record.colorRange == Neutral
      && s.record.budget == Some(if form.budget != "" then form.budget else "0")
      && form.area.Some? && s.record.area == form.area.value
      && s.record.length == OrZero(form.length) && s.record.breadth == OrZero(form.breadth)
      && s.record.afterImage == Some(visual.value)
      && s.record.items == Some(items.value)
      && s.record.primaryColor == (if form.primaryColor != "" then form.primaryColor else FirstColorName)
      && s.record.beforeImage == (if Truthy(roomPreviewImage) then roomPreviewImage else None)
      && s.record.date == date
  {
    if !RoomDraftReady(form, user) then Rejected
    else
      var payload := BaseRoom(form, user.value, roomPreviewImage, r, date);
      match Join2(visual, items)
      case None => Failed
      case Some((image, list)) =>
        RecordIdShape("ROOM-", r);
        Created(payload.(afterImage := Some(image), items := Some(list)))
  }
}
