/** The admin panel's controller: an access-code gate, the list of all
    packages, a draft edited in a form and saved through create or update,
    a two-click delete that removes the row at once and puts the whole list
    back if the service refuses, and the draft's feature list and image.
    Every handler is a function from the panel's state to a `Step`; the
    service calls a handler starts are named in the step, and their
    outcomes come back through the matching `...Settled` function. */
module Admin {
  import opened Base
  import opened Text
  import opened Seqs
  import opened Model
  import Store

  /** `initialPackageState`: the draft of a new package. */
  const InitialDraft := NoKeys.(title := Some(""), description := Some(""),
                                full_description := Some(""), image := Some(""),
                                duration := Some(""), date := Some(""), price := Some(""),
                                features := Some([]), is_active := Some(false))

  datatype AdminState = AdminState(
    authenticated: bool,
    accessCode: string,
    packages: seq<Package>,
    loading: bool,
    deletingId: Option<string>,
    confirmDeleteId: Option<string>,
    editing: bool,
    draft: Patch)

  /** The panel as it mounts. */
  const Init := AdminState(false, "", [], false, None, None, false, InitialDraft)

  /** A call the panel makes to the package service. */
  datatype Request =
    | FetchAll
    | CreateDraft(draft: Patch)
    | UpdateDraft(id: string, changes: Patch)
    | DeleteOne(id: string)

  /** What one handler does: the next state, the message shown with
      `alert`, and the service call started. */
  datatype Step = Step(state: AdminState, alert: Option<string>, request: Option<Request>)

  /** A handler that only changes the state. */
  function Quiet(s: AdminState): Step {
    Step(s, None, None)
  }

  // ---------------------------------------------------------------------
  // Access gate and loading.

  const WrongCode := "Wrong code. Try again."
  const LoadFailed := "Failed to load packages"

  /** Typing in the access-code field. */
  function TypeCode(s: AdminState, code: string): (r: AdminState)
    ensures r.accessCode == code
    ensures r == s.(accessCode := r.accessCode)
  {
    s.(accessCode := code)
  }

  /** `fetchPackages` up to the service call. */
  function BeginFetch(s: AdminState): Step {
    Step(s.(loading := true), None, Some(FetchAll))
  }

  /** `handleLogin`, with `secret` the configured `ADMIN_ACCESS_CODE`: the
      typed code must equal it exactly, and then the panel opens and loads
      the list; any other code is refused with no other change. */
  function Login(s: AdminState, secret: string): (r: Step)
    ensures r.state.authenticated <==> s.authenticated || s.accessCode == secret
    ensures s.accessCode == secret ==> r.state.loading && r.request == Some(FetchAll) && r.alert.None?
    ensures s.accessCode != secret ==> r == Step(s, Some(WrongCode), None)
    ensures r.state == s.(authenticated := r.state.authenticated, loading := r.state.loading)
  {
    if s.accessCode == secret then BeginFetch(s.(authenticated := true))
    else Step(s, Some(WrongCode), None)
  }

  /** `handleLogout`: close the panel and forget the typed code; the list of
      packages, the draft and every other field are kept. */
  function Logout(s: AdminState): (r: AdminState)
    ensures !r.authenticated && r.accessCode == ""
    ensures r == s.(authenticated := r.authenticated, accessCode := r.accessCode)
  {
    s.(authenticated := false, accessCode := "")
  }

  /** The panel mounts locked: with an access code configured, pressing
      enter on the empty code field is refused and loads nothing. */
  lemma MountedPanelIsLocked(secret: string)
    requires secret != ""
    ensures !Init.authenticated && Init.packages == [] && Init.draft == InitialDraft
    ensures !Login(Init, secret).state.authenticated && Login(Init, secret).request.None?
  {
  }

  /** Logging out forgets the code, so getting back in means typing it
      again: a login straight after a logout is refused. */
  lemma LogoutRequiresCodeAgain(s: AdminState, secret: string)
    requires secret != ""
    ensures !Login(Logout(s), secret).state.authenticated
    ensures Login(Logout(s), secret).request.None?
  {
  }

  /** Typing the configured code and pressing enter opens the panel and
      starts loading the list. */
  lemma TypingTheCodeOpens(s: AdminState, secret: string)
    ensures Login(TypeCode(s, secret), secret).state.authenticated
    ensures Login(TypeCode(s, secret), secret).request == Some(FetchAll)
  {
  }

  /** `fetchPackages` after the service settles: the result replaces the
      list; a failure keeps the list and shows an alert. Loading ends
      either way. */
  function FetchSettled(s: AdminState, result: Result<seq<Package>>): (r: Step)
    ensures !r.state.loading && r.request.None?
    ensures result.Ok? ==> r.state.packages == result.value && r.alert.None?
    ensures result.Err? ==> r.state.packages == s.packages && r.alert == Some(LoadFailed)
    ensures r.state == s.(packages := r.state.packages, loading := r.state.loading)
  {
    match result
    case Ok(data) => Quiet(s.(packages := data, loading := false))
    case Err(_) => Step(s.(loading := false), Some(LoadFailed), None)
  }

  // ---------------------------------------------------------------------
  // The edit form.

  /** The "new package" buttons: open the form on a fresh draft. */
  function StartCreate(s: AdminState): (r: AdminState)
    ensures r.editing && r.draft == InitialDraft
    ensures r == s.(editing := r.editing, draft := r.draft)
  {
    s.(editing := true, draft := InitialDraft)
  }

  /** The edit button of a row: open the form on that package. */
  function StartEdit(s: AdminState, p: Package): (r: AdminState)
    ensures r.editing && r.draft == View(p)
    ensures r == s.(editing := r.editing, draft := r.draft)
  {
    s.(editing := true, draft := View(p))
  }

  /** The close and cancel buttons: the form closes and the draft stays as
      it was, to be replaced by the next "new package" or edit click. */
  function CloseForm(s: AdminState): (r: AdminState)
    ensures !r.editing && r.draft == s.draft
    ensures r == s.(editing := r.editing)
  {
    s.(editing := false)
  }

  /** An input of the form: `setCurrentPkg({...currentPkg, key: value})`.
      Saving the edited draft over any package is the same as saving the
      old draft and then the edit. */
  function EditDraft(s: AdminState, u: Patch): (r: AdminState)
    ensures forall p :: Apply(p, r.draft) == Apply(Apply(p, s.draft), u)
    ensures r == s.(draft := r.draft)
  {
    s.(draft := Overlay(s.draft, u))
  }

  const MissingFields := "Title, Short Description and Image are required."
  const SaveFailed := "Failed to save"

  /** The draft has a non-empty title, short description and image. */
  predicate Complete(d: Patch) {
    Truthy(d.title) && Truthy(d.description) && Truthy(d.image)
  }

  /** `handleSave` up to the service call: an incomplete draft is refused
      with no call; a complete one is sent to `update` when it has an id and
      to `create` when it has none. The state waits unchanged. */
  function Save(s: AdminState): (r: Step)
    ensures r.state == s
    ensures r.request.None? <==> !Complete(s.draft)
    ensures !Complete(s.draft) ==> r.alert == Some(MissingFields)
    ensures Complete(s.draft) ==> r.alert.None?
    ensures Complete(s.draft) && Truthy(s.draft.id) ==> r.request == Some(UpdateDraft(s.draft.id.value, s.draft))
    ensures Complete(s.draft) && !Truthy(s.draft.id) ==> r.request == Some(CreateDraft(s.draft))
  {
    if !Complete(s.draft) then Step(s, Some(MissingFields), None)
    else if Truthy(s.draft.id) then Step(s, None, Some(UpdateDraft(s.draft.id.value, s.draft)))
    else Step(s, None, Some(CreateDraft(s.draft)))
  }

  /** A submit of the edit form. The title and short-description inputs
      carry `required` and show `value || ''`, so the browser blocks the
      submit while either is empty and `handleSave` never runs; otherwise
      `handleSave` runs on the draft. */
  function SubmitForm(s: AdminState): (r: Step)
    ensures !Truthy(s.draft.title) || !Truthy(s.draft.description) ==> r == Quiet(s)
    ensures Truthy(s.draft.title) && Truthy(s.draft.description) ==> r == Save(s)
  {
    if !Truthy(s.draft.title) || !Truthy(s.draft.description) then Quiet(s) else Save(s)
  }

  /** Behind the browser's check, the "required" alert of `handleSave` is
      seen exactly when title and short description are filled in and the
      image is missing; the form reaches the service exactly when all three
      are present. */
  lemma MissingFieldsAlertMeansNoImage(s: AdminState)
    ensures SubmitForm(s).alert == Some(MissingFields)
            <==> Truthy(s.draft.title) && Truthy(s.draft.description) && !Truthy(s.draft.image)
    ensures SubmitForm(s).request.Some? <==> Complete(s.draft)
  {
  }

  /** The form a "new package" button opens cannot be sent as it is: the
      required fields start empty, so the browser stops the submit, and
      `handleSave` on that draft would only alert. */
  lemma FreshFormIsRefused(s: AdminState)
    ensures SubmitForm(StartCreate(s)) == Quiet(StartCreate(s))
    ensures Save(StartCreate(s)) == Step(StartCreate(s), Some(MissingFields), None)
  {
  }

  /** A fresh draft has no id, so once title, short description and image
      are filled in, saving it creates a package rather than updating one. */
  lemma FreshDraftCreates(s: AdminState, title: string, description: string, image: string)
    requires title != "" && description != "" && image != ""
    ensures var u := NoKeys.(title := Some(title), description := Some(description), image := Some(image));
            var t := EditDraft(StartCreate(s), u);
            SubmitForm(t).request == Some(CreateDraft(t.draft))
  {
  }

  /** `handleSave` after the service settles: success closes the form,
      resets the draft and reloads the list; failure keeps the draft, the
      form and the list as they are. */
  function SaveSettled(s: AdminState, result: Result<()>): (r: Step)
    ensures result.Ok? ==> !r.state.editing && r.state.draft == InitialDraft
                           && r.state.loading && r.request == Some(FetchAll)
    ensures result.Ok? ==> r.alert.None?
    ensures result.Err? ==> r == Step(s, Some(SaveFailed), None)
    ensures r.state.packages == s.packages
    ensures r.state == s.(editing := r.state.editing, draft := r.state.draft, loading := r.state.loading)
  {
    if result.Ok? then BeginFetch(s.(editing := false, draft := InitialDraft))
    else Step(s, Some(SaveFailed), None)
  }

  // ---------------------------------------------------------------------
  // Two-click, optimistic delete.

  /** `disabled={!!deletingId && deletingId !== pkg.id}`: while a delete
      is in flight, every other row's delete button is disabled. */
  predicate DeleteDisabled(s: AdminState, id: string) {
    Truthy(s.deletingId) && s.deletingId.value != id
  }

  /** `handleDelete` up to the service call: the row goes from the list at
      once and the id is marked in flight. */
  function BeginDelete(s: AdminState, id: string): (r: AdminState)
    ensures r.packages == Filter(s.packages, Store.OtherThan(id))
    ensures forall p :: p in r.packages <==> p in s.packages && p.id != id
    ensures r.deletingId == Some(id)
    ensures r == s.(packages := r.packages, deletingId := r.deletingId)
  {
    s.(packages := Filter(s.packages, Store.OtherThan(id)), deletingId := Some(id))
  }

  /** `handleDeleteClick`: a click on the armed row confirms, starting the
      delete and disarming; a click on any other row arms that row. */
  function DeleteClick(s: AdminState, id: string): (r: Step)
    ensures s.confirmDeleteId == Some(id) ==>
              r.state == BeginDelete(s, id).(confirmDeleteId := None) && r.request == Some(DeleteOne(id))
    ensures s.confirmDeleteId != Some(id) ==>
              r.state == s.(confirmDeleteId := Some(id)) && r.request.None?
    ensures r.alert.None?
  {
    if s.confirmDeleteId == Some(id) then
      Step(BeginDelete(s, id).(confirmDeleteId := None), None, Some(DeleteOne(id)))
    else
      Quiet(s.(confirmDeleteId := Some(id)))
  }

  /** A click on a row's delete button, which does nothing while the
      button is disabled. */
  function PressDelete(s: AdminState, id: string): (r: Step)
    ensures DeleteDisabled(s, id) ==> r == Quiet(s)
    ensures !DeleteDisabled(s, id) ==> r == DeleteClick(s, id)
  {
    if DeleteDisabled(s, id) then Quiet(s) else DeleteClick(s, id)
  }

  /** The window click listener: any click that reaches it disarms. */
  function ClickOutside(s: AdminState): (r: AdminState)
    ensures r.confirmDeleteId.None?
    ensures r == s.(confirmDeleteId := r.confirmDeleteId)
  {
    s.(confirmDeleteId := None)
  }

  const BlockedAlert := "Deletion Blocked: You need to enable the 'DELETE' policy in your Supabase Dashboard."

  /** The alert for a failed delete: the policy advice when the message
      mentions Row Level Security or a policy, the message otherwise. */
  function DeleteAlert(message: string): (r: string)
    ensures Contains(message, "Row Level Security") ==> r == BlockedAlert
    ensures Contains(message, "Policy") ==> r == BlockedAlert
    ensures !Contains(message, "Row Level Security") && !Contains(message, "Policy")
            ==> r == "Error: " + (if message == "" then "Unknown error" else message)
  {
    if Contains(message, "Row Level Security") || Contains(message, "Policy") then BlockedAlert
    else "Error: " + (if message == "" then "Unknown error" else message)
  }

  /** `handleDelete` after the service settles. `snapshot` is the list as
      it was when the delete began: a failure puts it back exactly and
      shows an alert. The in-flight mark is cleared either way. */
  function DeleteSettled(s: AdminState, snapshot: seq<Package>, result: Result<()>): (r: Step)
    ensures r.state.deletingId.None? && r.request.None?
    ensures result.Ok? ==> r.state.packages == s.packages && r.alert.None?
    ensures result.Err? ==> r.state.packages == snapshot && r.alert == Some(DeleteAlert(result.message))
    ensures r.state == s.(packages := r.state.packages, deletingId := r.state.deletingId)
  {
    match result
    case Ok(_) => Quiet(s.(deletingId := None))
    case Err(m) => Step(s.(packages := snapshot, deletingId := None), Some(DeleteAlert(m)), None)
  }

  /** A confirmed delete from first effect to settlement, with nothing else
      happening in between. */
  function DeleteRound(s: AdminState, id: string, result: Result<()>): Step {
    DeleteSettled(BeginDelete(s, id), s.packages, result)
  }

  /** Clicking a row twice deletes it: the first click arms it and calls
      nothing, the second starts the delete. */
  lemma SecondClickConfirms(s: AdminState, id: string)
    requires s.confirmDeleteId != Some(id)
    ensures DeleteClick(s, id).request.None?
    ensures DeleteClick(DeleteClick(s, id).state, id).request == Some(DeleteOne(id))
    ensures DeleteClick(DeleteClick(s, id).state, id).state.confirmDeleteId.None?
  {
  }

  /** Arming does not survive a click elsewhere: after arming and clicking
      outside, the next click on the same row only arms it again. */
  lemma DisarmNeedsTwoClicksAgain(s: AdminState, id: string)
    requires s.confirmDeleteId != Some(id)
    ensures var s2 := ClickOutside(DeleteClick(s, id).state);
            DeleteClick(s2, id).request.None? && DeleteClick(s2, id).state.confirmDeleteId == Some(id)
  {
  }

  /** A click on another row moves the arming to that row without
      deleting anything. */
  lemma ClickOtherRowRearms(s: AdminState, armed: string, other: string)
    requires s.confirmDeleteId == Some(armed) && other != armed
    ensures DeleteClick(s, other).request.None?
    ensures DeleteClick(s, other).state.confirmDeleteId == Some(other)
    ensures DeleteClick(s, other).state.packages == s.packages
  {
  }

  /** A failed delete restores the list element for element and in order;
      a successful one leaves it without the deleted id, every other row
      kept in order. Neither leaves a delete in flight. */
  lemma DeleteRollsBackExactly(s: AdminState, id: string, result: Result<()>)
    ensures result.Err? ==> DeleteRound(s, id, result).state.packages == s.packages
    ensures result.Ok? ==> DeleteRound(s, id, result).state.packages == Filter(s.packages, Store.OtherThan(id))
    ensures result.Ok? ==> IsSubsequence(DeleteRound(s, id, result).state.packages, s.packages)
    ensures DeleteRound(s, id, result).state.deletingId.None?
  {
    FilterIsSubsequence(s.packages, Store.OtherThan(id));
  }

  /** While a delete is in flight, every other row's button is disabled and
      pressing it changes nothing and calls nothing; the row being deleted
      is not disabled. */
  lemma InFlightExcludesOtherDeletes(s: AdminState, id: string, other: string)
    requires s.confirmDeleteId == Some(id) && !DeleteDisabled(s, id) && id != ""
    requires other != id
    ensures var t := DeleteClick(s, id).state;
            DeleteDisabled(t, other) && PressDelete(t, other) == Quiet(t) && !DeleteDisabled(t, id)
  {
  }

  // ---------------------------------------------------------------------
  // The draft's feature list and image.

  /** `currentPkg.features || []`. */
  function Features(d: Patch): seq<string> {
    d.features.GetOr([])
  }

  /** `addFeature`: an empty entry is appended; the rest of the draft is
      kept. */
  function AddFeature(s: AdminState): (r: AdminState)
    ensures var f := Features(s.draft); var g := Features(r.draft);
            |g| == |f| + 1 && g[..|f|] == f && g[|f|] == ""
    ensures r.draft.features == Some(Features(r.draft))
    ensures r.draft == s.draft.(features := r.draft.features)
    ensures r == s.(draft := r.draft)
  {
    s.(draft := s.draft.(features := Some(Features(s.draft) + [""])))
  }

  /** `updateFeature`: the entry at `i` takes `value`; every other entry
      and the rest of the draft are kept. */
  function UpdateFeature(s: AdminState, i: int, value: string): (r: AdminState)
    requires 0 <= i < |Features(s.draft)|
    ensures var f := Features(s.draft); var g := Features(r.draft);
            |g| == |f| && g[i] == value && forall j :: 0 <= j < |f| && j != i ==> g[j] == f[j]
    ensures r.draft.features == Some(Features(r.draft))
    ensures r.draft == s.draft.(features := r.draft.features)
    ensures r == s.(draft := r.draft)
  {
    s.(draft := s.draft.(features := Some(Features(s.draft)[i := value])))
  }

  /** The start index `splice(i, 1)` uses: a negative index counts from
      the end, clamped at 0. */
  function SpliceStart(i: int, len: nat): int {
    if i < 0 then (if len + i < 0 then 0 else len + i) else i
  }

  /** `removeFeature`: `splice(i, 1)` on the list; the entry at that index
      goes, the others keep their order; an index past the end removes
      nothing. The rest of the draft is kept. */
  function RemoveFeature(s: AdminState, i: int): (r: AdminState)
    ensures var f := Features(s.draft); var g := Features(r.draft); var k := SpliceStart(i, |f|);
            && (k < |f| ==> |g| == |f| - 1 && g[..k] == f[..k] && g[k..] == f[k + 1..])
            && (k >= |f| ==> g == f)
    ensures r.draft.features == Some(Features(r.draft))
    ensures r.draft == s.draft.(features := r.draft.features)
    ensures r == s.(draft := r.draft)
  {
    var f := Features(s.draft);
    var k := SpliceStart(i, |f|);
    s.(draft := s.draft.(features := Some(if k < |f| then f[..k] + f[k + 1..] else f)))
  }

  /** Removing the entry just added gives back the list from before. */
  lemma RemoveUndoesAdd(s: AdminState)
    ensures Features(RemoveFeature(AddFeature(s), |Features(s.draft)|).draft) == Features(s.draft)
  {
  }

  /** Removing a package's only feature and saving the edit leaves the
      package with an empty feature list: the key stays present, so the
      spread over the stored record clears the old list. */
  lemma RemovingOnlyFeatureClearsIt(s: AdminState, p: Package, f: string)
    requires p.features == Some([f])
    ensures Apply(p, RemoveFeature(StartEdit(s, p), 0).draft).features == Some([])
  {
  }

  /** Writing an entry's own value back changes nothing in the list. */
  lemma UpdateWithSameValue(s: AdminState, i: int)
    requires 0 <= i < |Features(s.draft)|
    ensures Features(UpdateFeature(s, i, Features(s.draft)[i]).draft) == Features(s.draft)
  {
  }

  /** A file handed to the image input or dropped on it. */
  datatype File = File(mimeType: string)

  const NotAnImage := "Please upload an image file"

  /** `processFile`: no file does nothing; a file whose type does not start
      with `image/` is refused with no change; an image becomes the draft's
      image as the data URL `dataUrl` read from it. */
  function ProcessFile(s: AdminState, file: Option<File>, dataUrl: string): (r: Step)
    ensures file.None? ==> r == Quiet(s)
    ensures file.Some? && !StartsWith(file.value.mimeType, "image/") ==> r == Step(s, Some(NotAnImage), None)
    ensures file.Some? && StartsWith(file.value.mimeType, "image/")
            ==> r == Quiet(s.(draft := s.draft.(image := Some(dataUrl))))
  {
    match file
    case None => Quiet(s)
    case Some(f) =>
      if !StartsWith(f.mimeType, "image/") then Step(s, Some(NotAnImage), None)
      else Quiet(s.(draft := s.draft.(image := Some(dataUrl))))
  }

  /** Uploading an image into a draft that has a title and a short
      description makes it complete, so the next save calls the service. */
  lemma ImageCompletesDraft(s: AdminState, file: File, dataUrl: string)
    requires Truthy(s.draft.title) && Truthy(s.draft.description)
    requires StartsWith(file.mimeType, "image/") && dataUrl != ""
    ensures SubmitForm(ProcessFile(s, Some(file), dataUrl).state).request.Some?
  {
  }

  /** A blocked delete on the live store is reported with the policy
      advice. */
  lemma BlockedDeleteShowsPolicyAdvice()
    ensures DeleteAlert(Store.BlockedMessage) == BlockedAlert
  {
    ContainsInfix(Store.BlockedLead, "Row Level Security", Store.BlockedTail);
  }
}
