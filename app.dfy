/**
 * The `App` component's state and its non-visual handlers. Each handler is a method that
 * updates the fields as the component's state setters do; gateway outcomes, the random
 * draw and the date are parameters.
 */
module AppState {
  import opened Wrappers
  import opened Types
  import opened JsText
  import opened Geometry
  import opened Forms
  import opened Synthesis
  import opened Access

  /** The project list the component starts with. */
  const InitialProjects: seq<ProjectRecord> := [
    ProjectRecord(
      "PRJ-1001", "CLIENT-8293", "Suresh Kumar", "Skyline Mansion", "10/05/2026",
      4500.0, 50.0, 90.0, "Modern Villa", Urban, "1,20,00,000", "#475569", "contemporary", 3.0, 5.0,
      None,
      Some("https://images.unsplash.com/photo-1600585154340-be6161a56a0c?auto=format&fit=crop&q=80&w=800"),
      None,
      Some("https://images.unsplash.com/photo-1618221195710-dd6b41faaea6?auto=format&fit=crop&q=80&w=800"),
      None, None)
  ]

  class App {
    var projects: seq<ProjectRecord>
    var roomHistory: seq<RoomRecord>
    var formData: ProjectForm
    var roomData: RoomForm
    var currentUser: Option<User>
    var authView: Option<AuthView>
    var currentProject: Option<ProjectRecord>
    var lookupResult: Option<LookupResult>
    var previewImage: Option<string>
    var roomPreviewImage: Option<string>
    var selectedRoomId: Option<string>
    var isLoading: bool

    /**
     * What every handler preserves: stored records carry well-formed ids and are owned by
     * an id a user can sign in with; the signed-in user has such an id; the selected room
     * id names a stored room; the open project and every lookup row are stored records.
     */
    ghost predicate Valid()
      reads this
    {
      && (forall p :: p in projects ==> IsRecordId("PRJ-", p.id) && p.clientId in KnownUserIds)
      && (forall q :: q in roomHistory ==> IsRecordId("ROOM-", q.id) && q.clientId in KnownUserIds)
      && (currentUser.Some? ==> currentUser.value.id in KnownUserIds)
      && (selectedRoomId.Some? ==> FindRoom(roomHistory, selectedRoomId).Some?)
      && (currentProject.Some? ==> currentProject.value in projects)
      && (lookupResult.Some? ==>
            && (forall p :: p in lookupResult.value.projects ==> p in projects)
            && (forall q :: q in lookupResult.value.rooms ==> q in roomHistory))
    }

    /** The component's initial state. */
    constructor ()
      ensures Valid()
      ensures projects == InitialProjects && roomHistory == []
      ensures formData == BlankProjectForm && roomData == BlankRoomForm
      ensures currentUser == None && authView == None && currentProject == None && lookupResult == None
      ensures previewImage == None && roomPreviewImage == None && selectedRoomId == None && !isLoading
    {
      projects := InitialProjects;
      roomHistory := [];
      formData := BlankProjectForm;
      roomData := BlankRoomForm;
      currentUser := None;
      authView := None;
      currentProject := None;
      lookupResult := None;
      previewImage := None;
      roomPreviewImage := None;
      selectedRoomId := None;
      isLoading := false;
      assert "PRJ-1001"[4..] == "1001";
    }

    /** The room shown in the room studio: the first stored room with the selected id. */
    function SelectedRoom(): (r: Option<RoomRecord>)
      reads this
      ensures Valid() && selectedRoomId.Some? ==> r.Some? && r.value.id == selectedRoomId.value
    {
      FindRoom(roomHistory, selectedRoomId)
    }

    /** `updateBuildingDimensions`: the building form takes the reconciled triple. */
    method EditBuildingDimension(field: Field, value: real)
      requires Valid()
      modifies this`formData
      ensures Valid()
      ensures formData == UpdateBuildingDimensions(old(formData), field, value)
    {
      formData := UpdateBuildingDimensions(formData, field, value);
    }

    /** `updateRoomDimensions`: the room form takes the reconciled triple. */
    method EditRoomDimension(field: Field, value: real)
      requires Valid()
      modifies this`roomData
      ensures Valid()
      ensures roomData == UpdateRoomDimensions(old(roomData), field, value)
    {
      roomData := UpdateRoomDimensions(roomData, field, value);
    }

    /**
     * `handleLogin`: under the chosen portal's role (CLIENT when none was chosen), valid
     * credentials sign the user in and close the portal; anything else changes nothing.
     */
    method HandleLogin(username: string, password: string)
      requires Valid()
      modifies this`currentUser, this`authView
      ensures Valid()
      ensures var role := LoginRole(old(authView));
        if ValidCredentials(role, username, password) then
          currentUser == Authenticate(role, username, password) && authView == None
        else
          currentUser == old(currentUser) && authView == old(authView)
    {
      var role := LoginRole(authView);
      var user := Authenticate(role, username, password);
      if user.Some? {
        currentUser := user;
        authView := None;
      }
    }

    /** `handleLogout`: the session state is cleared; the record store is untouched. */
    method HandleLogout()
      requires Valid()
      modifies this`currentUser, this`authView, this`currentProject, this`previewImage, this`lookupResult
      ensures Valid()
      ensures currentUser == None && authView == None && currentProject == None
      ensures previewImage == None && lookupResult == None
    {
      currentUser := None;
      authView := None;
      currentProject := None;
      previewImage := None;
      lookupResult := None;
    }

    /** `handleNewProject`: a blank building form, no photo, no open project. */
    method HandleNewProject()
      requires Valid()
      modifies this`formData, this`previewImage, this`currentProject
      ensures Valid()
      ensures formData == BlankProjectForm && previewImage == None && currentProject == None
    {
      formData := BlankProjectForm;
      previewImage := None;
      currentProject := None;
    }

    /** A portal button on the landing page: opens that role's login and resets the form. */
    method ChoosePortal(role: Role)
      requires Valid()
      modifies this`authView, this`formData, this`previewImage, this`currentProject
      ensures Valid()
      ensures authView == Some(AuthView(role, LoginMode))
      ensures formData == BlankProjectForm && previewImage == None && currentProject == None
    {
      authView := Some(AuthView(role, LoginMode));
      HandleNewProject();
    }

    /**
     * A plot photo arrives (`handleFileUpload`; `capturePhoto` does the same with a camera
     * frame): it becomes the preview, and a fulfilled analysis is merged into the building
     * form; a rejected one leaves the form as it was. Loading ends either way.
     */
    method LoadPlotPhoto(image: string, analysis: Result<Option<PlotAnalysis>>)
      requires Valid()
      modifies this`previewImage, this`isLoading, this`formData
      ensures Valid()
      ensures previewImage == Some(image) && !isLoading
      ensures formData == if analysis.Ok? then MergeAnalysis(old(formData), analysis.value) else old(formData)
    {
      previewImage := Some(image);
      isLoading := true;
      if analysis.Ok? {
        formData := MergeAnalysis(formData, analysis.value);
      }
      isLoading := false;
    }

    /**
     * `handleAdminSearch`: a blank or whitespace-only id changes nothing; any other id
     * (untrimmed) shows exactly that client's projects and rooms.
     */
    method HandleAdminSearch(searchClientId: string)
      requires Valid()
      modifies this`lookupResult
      ensures Valid()
      ensures IsBlank(searchClientId) ==> lookupResult == old(lookupResult)
      ensures !IsBlank(searchClientId) ==> lookupResult == Some(AdminLookup(projects, roomHistory, searchClientId))
    {
      TrimEmptyIffBlank(searchClientId);
      if Trim(searchClientId) == [] {
        return;
      }
      var clientProjects := OwnedBy(projects, ProjectOwner, searchClientId);
      var clientRooms := OwnedBy(roomHistory, RoomOwner, searchClientId);
      lookupResult := Some(LookupResult(clientProjects, clientRooms));
    }

    /**
     * `generateProject`: a rejected draft changes nothing (loading is not even set); else
     * loading is set while the four gateway outcomes are joined into a record (see
     * `SynthesizeProject`), which is prepended and opened when all fulfilled; nothing is
     * stored when any was rejected, and loading ends.
     */
    method GenerateProject(
      r: nat, date: string, renders: Result<Renders>, analysisText: Result<string>,
      interior: Result<string>, budget: Result<seq<BudgetLineItem>>)
      requires Valid() && r < 9000
      modifies this`projects, this`currentProject, this`isLoading
      ensures Valid()
      ensures var s := SynthesizeProject(old(formData), old(currentUser), old(previewImage), r, date,
                                         renders, analysisText, interior, budget);
        && projects == (if s.Created? then [s.record] + old(projects) else old(projects))
        && currentProject == (if s.Created? then Some(s.record) else old(currentProject))
        && isLoading == (if s.Rejected? then old(isLoading) else false)
    {
      if !ProjectDraftReady(formData, currentUser) {
        return;
      }
      isLoading := true;
      var outcome := SynthesizeProject(formData, currentUser, previewImage, r, date,
                                       renders, analysisText, interior, budget);
      if outcome.Created? {
        var finalProject := outcome.record;
        currentProject := Some(finalProject);
        projects := [finalProject] + projects;
      }
      isLoading := false;
    }

    /**
     * `handleGenerateRoom`: a rejected draft changes nothing; else loading is set while the
     * two gateway outcomes are joined into a room (see `SynthesizeRoom`); when both
     * fulfilled that room is prepended, selected and its photo slot cleared, otherwise the
     * history is unchanged; loading ends.
     */
    method HandleGenerateRoom(r: nat, date: string, visual: Result<string>, items: Result<seq<InteriorItem>>)
      requires Valid() && r < 9000
      modifies this`roomHistory, this`selectedRoomId, this`roomPreviewImage, this`isLoading
      ensures Valid()
      ensures var s := SynthesizeRoom(old(roomData), old(currentUser), old(roomPreviewImage), r, date, visual, items);
        && roomHistory == (if s.Created? then [s.record] + old(roomHistory) else old(roomHistory))
        && selectedRoomId == (if s.Created? then Some(s.record.id) else old(selectedRoomId))
        && roomPreviewImage == (if s.Created? then None else old(roomPreviewImage))
        && isLoading == (if s.Rejected? then old(isLoading) else false)
        && (s.Created? ==> SelectedRoom() == Some(s.record))
    {
      if !RoomDraftReady(roomData, currentUser) {
        return;
      }
      isLoading := true;
      var outcome := SynthesizeRoom(roomData, currentUser, roomPreviewImage, r, date, visual, items);
      if outcome.Created? {
        var finishedRoom := outcome.record;
        NewestRoomSelected(finishedRoom, roomHistory);
        roomHistory := [finishedRoom] + roomHistory;
        selectedRoomId := Some(finishedRoom.id);
        roomPreviewImage := None;
      }
      isLoading := false;
    }
  }
}
