/**
 * The building and room input forms (`Partial<ProjectRecord>` and `Partial<RoomRecord>`),
 * their dimension updates and the merge of a plot analysis into the building form.
 */
module Forms {
  import opened Wrappers
  import opened Types
  import opened Geometry

  /** The building form; as in a `Partial`, the three dimensions may be missing. */
  datatype ProjectForm = ProjectForm(
    buildingName: string,
    clientName: string,
    totalArea: Option<real>,
    length: Option<real>,
    breadth: Option<real>,
    buildingType: string,
    location: LocationType,
    budget: string,
    mainColor: string,
    style: string,
    floors: real,
    roomsPerFloor: real)

  /** The room form; `roomType` is the form's `type` field. */
  datatype RoomForm = RoomForm(
    roomType: string,
    length: Option<real>,
    breadth: Option<real>,
    area: Option<real>,
    budget: string,
    primaryColor: string,
    colorRange: ColorRange)

  /** What the plot analysis read off a photograph; each reading may be missing. */
  datatype PlotAnalysis = PlotAnalysis(length: Option<real>, breadth: Option<real>, totalArea: Option<real>)

  /** The building form as first shown and as reset for a new project. */
  const BlankProjectForm: ProjectForm :=
    ProjectForm("", "", Some(0.0), Some(0.0), Some(0.0), FirstBuildingType, Urban, "",
                FirstColorValue, FirstCultureMode, 1.0, 2.0)

  /** The room form as first shown. */
  const BlankRoomForm: RoomForm :=
    RoomForm("", Some(0.0), Some(0.0), Some(0.0), "", FirstColorName, Neutral)

  /** The building form with its dimensions replaced by those of `d`. */
  function WithBuildingDims(form: ProjectForm, d: Dims): ProjectForm {
    form.(length := Some(d.length), breadth := Some(d.breadth), totalArea := Some(d.area))
  }

  /** The room form with its dimensions replaced by those of `d`. */
  function WithRoomDims(form: RoomForm, d: Dims): RoomForm {
    form.(length := Some(d.length), breadth := Some(d.breadth), area := Some(d.area))
  }

  /**
   * `updateBuildingDimensions`: only the three dimensions change, all three become present,
   * and they are the reconciled triple.
   */
  function UpdateBuildingDimensions(form: ProjectForm, field: Field, value: real): (r: ProjectForm)
    ensures r.(length := form.length, breadth := form.breadth, totalArea := form.totalArea) == form
    ensures r.length.Some? && r.breadth.Some? && r.totalArea.Some?
    ensures Dims(r.length.value, r.breadth.value, r.totalArea.value)
         == Reconcile(form.length, form.breadth, field, value)
  {
    WithBuildingDims(form, Reconcile(form.length, form.breadth, field, value))
  }

  /**
   * `updateRoomDimensions`: only the three dimensions change, all three become present,
   * and they are the reconciled triple.
   */
  function UpdateRoomDimensions(form: RoomForm, field: Field, value: real): (r: RoomForm)
    ensures r.(length := form.length, breadth := form.breadth, area := form.area) == form
    ensures r.length.Some? && r.breadth.Some? && r.area.Some?
    ensures Dims(r.length.value, r.breadth.value, r.area.value)
         == Reconcile(form.length, form.breadth, field, value)
  {
    WithRoomDims(form, Reconcile(form.length, form.breadth, field, value))
  }

  /** The building and the room reconcilers give the same triple from the same dimensions. */
  lemma BuildingAndRoomAgree(f: ProjectForm, g: RoomForm, field: Field, value: real)
    requires OrZero(f.length) == OrZero(g.length) && OrZero(f.breadth) == OrZero(g.breadth)
    ensures var r, s := UpdateBuildingDimensions(f, field, value), UpdateRoomDimensions(g, field, value);
      r.length == s.length && r.breadth == s.breadth && r.totalArea == s.area
  {
    assert Reconcile(f.length, f.breadth, field, value) == Reconcile(g.length, g.breadth, field, value);
  }

  /** `a || b` on optional numbers: `a` when present and non-zero, otherwise `b`. */
  function OrNumber(a: Option<real>, b: Option<real>): Option<real> {
    if a.Some? && a.value != 0.0 then a else b
  }

  /**
   * The plot-analysis merge of `capturePhoto` and `handleFileUpload`: each dimension takes
   * the reading when it is present and non-zero and keeps its value otherwise; no
   * reconciliation follows, and a missing analysis changes nothing.
   */
  function MergeAnalysis(form: ProjectForm, analysis: Option<PlotAnalysis>): (r: ProjectForm)
    ensures r.(length := form.length, breadth := form.breadth, totalArea := form.totalArea) == form
    ensures analysis.None? ==> r == form
    ensures analysis.Some? ==>
      && r.length == OrNumber(analysis.value.length, form.length)
      && r.breadth == OrNumber(analysis.value.breadth, form.breadth)
      && r.totalArea == OrNumber(analysis.value.totalArea, form.totalArea)
  {
    match analysis
    case None => form
    case Some(a) =>
      form.(length := OrNumber(a.length, form.length),
            breadth := OrNumber(a.breadth, form.breadth),
            totalArea := OrNumber(a.totalArea, form.totalArea))
  }

  /** Merging the same analysis twice is the same as merging it once. */
  lemma MergeAnalysisIdempotent(form: ProjectForm, analysis: Option<PlotAnalysis>)
    ensures MergeAnalysis(MergeAnalysis(form, analysis), analysis) == MergeAnalysis(form, analysis)
  {
  }

  /**
   * A present, non-zero reading overrides whatever the form held, so two forms that differ
   * only in their dimensions agree after a merge of a complete analysis.
   */
  lemma MergeCompleteAnalysisOverrides(f: ProjectForm, g: ProjectForm, a: PlotAnalysis)
    requires f.(length := g.length, breadth := g.breadth, totalArea := g.totalArea) == g
    requires a.length.Some? && a.length.value != 0.0
    requires a.breadth.Some? && a.breadth.value != 0.0
    requires a.totalArea.Some? && a.totalArea.value != 0.0
    ensures MergeAnalysis(f, Some(a)) == MergeAnalysis(g, Some(a))
  {
  }
}
