/** Properties that span the admin panel and the package service: the
    panel's list after a save and a reload, and after an optimistic delete,
    in each backend. */
module Scenarios {
  import opened Base
  import opened Model
  import Store
  import opened Admin

  /** The panel awaits a service call only for whether it settled. */
  function Settled<T>(r: Result<T>): Result<()> {
    match r
    case Ok(_) => Ok(())
    case Err(m) => Err(m)
  }

  /** Creating in demo mode: a complete new draft is saved through
      `create`, the form closes, and the reloaded list starts with the new
      package, carrying the draft's title and the assigned id, followed by
      the store's earlier packages. */
  lemma DemoCreateThenReload(s: AdminState, mock: seq<Package>, id: string, now: string,
                             reply: Store.Reply<Package>, listReply: Store.Reply<seq<Package>>)
    requires Complete(s.draft) && !Truthy(s.draft.id)
    ensures SubmitForm(s).request == Some(CreateDraft(s.draft))
    ensures var call := Store.Create(true, mock, s.draft, id, now, reply);
            var saved := SaveSettled(SubmitForm(s).state, Settled(call.result));
            var listed := FetchSettled(saved.state, Store.GetAll(true, call.mock, listReply)).state;
            && saved.request == Some(FetchAll)
            && |listed.packages| == |mock| + 1
            && listed.packages[0].id == id
            && listed.packages[0].title == s.draft.title.value
            && listed.packages[1..] == mock
            && !listed.editing && listed.draft == InitialDraft
  {
  }

  /** Editing a stored package and saving it in demo mode changes exactly
      the keys edited in the form: the record becomes `{...p, ...u}`. The
      edit leaves the id alone (the form has no id input) and leaves title,
      short description and image non-empty, as the form demands. */
  lemma DemoEditSavesOnlyEdits(s: AdminState, mock: seq<Package>, i: int, u: Patch, error: Option<string>)
    requires 0 <= i < |mock|
    requires mock[i].id != "" && mock[i].title != "" && mock[i].description != "" && mock[i].image != ""
    requires u.id.None?
    requires u.title.None? || Truthy(u.title)
    requires u.description.None? || Truthy(u.description)
    requires u.image.None? || Truthy(u.image)
    ensures var t := EditDraft(StartEdit(s, mock[i]), u);
            SubmitForm(t).request == Some(UpdateDraft(mock[i].id, t.draft))
    ensures var t := EditDraft(StartEdit(s, mock[i]), u);
            Store.Update(true, mock, mock[i].id, t.draft, error).mock[i] == Apply(mock[i], u)
  {
  }

  /** A delete the live store reports as removing no row: the panel puts
      the list back exactly as it was, clears the in-flight mark and shows
      the policy advice. */
  lemma BlockedDeleteRestoresList(s: AdminState, id: string, mock: seq<Package>)
    ensures var r := DeleteRound(s, id, Store.Delete(false, mock, id, Store.DeleteReply(None, Some(0))).result);
            && r.state.packages == s.packages
            && r.state.deletingId.None?
            && r.alert == Some(BlockedAlert)
  {
  }

  /** In demo mode the panel's optimistic list and the store agree after a
      delete, when they agreed before it. */
  lemma DemoDeleteKeepsListInStep(s: AdminState, id: string, reply: Store.DeleteReply)
    ensures var call := Store.Delete(true, s.packages, id, reply);
            DeleteRound(s, id, call.result).state.packages == call.mock
  {
  }
}
