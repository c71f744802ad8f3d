/** The admin categories page (src/app/admin/categories/page.tsx): the
    category list and the one form that creates a category or renames an
    existing one.

    `handleSubmit` is asynchronous and its submit button is disabled while
    it runs; it is modelled as `BeginSubmit` (up to the awaited save) and
    `CompleteSubmit` (after it, given the save's outcome and, after a
    successful save, the outcome of reloading the list). */
module AdminCategories {
  import opened Outcomes
  import opened Strings
  import opened Commerce
  import opened Lists

  const NameRequired: string := "Category name is required."
  const SaveFailed: string := "Failed to save category"

  /** The save a submit asks the backend for. */
  datatype CategoryRequest = CreateCategory(name: string) | UpdateCategory(id: string, name: string)

  /** What a submit sends for the form's name and `editingId`: nothing for a
      name that is blank after trimming; otherwise the trimmed name, as an
      update of the edited category when `editingId` is a non-empty string
      and as a new category when it is null or empty. */
  function SubmitRequest(name: string, editingId: Option<string>): (r: Option<CategoryRequest>)
    ensures r.None? <==> IsBlank(name)
    ensures r.Some? ==> r.value.name == Trim(name) && r.value.name != [] && Unpadded(r.value.name)
    ensures r.Some? ==> (r.value.UpdateCategory? <==> Truthy(editingId))
    ensures r.Some? && r.value.UpdateCategory? ==> r.value.id == editingId.value
  {
    if IsBlank(name) then None
    else if Truthy(editingId) then Some(UpdateCategory(editingId.value, Trim(name)))
    else Some(CreateCategory(Trim(name)))
  }

  class AdminCategoriesPage {
    var categories: seq<Category>
    var loading: bool
    var showForm: bool
    var editingId: Option<string>
    var name: string
    var saving: bool
    var error: string

    constructor ()
      ensures categories == [] && loading && !showForm && editingId == None
      ensures name == "" && !saving && error == ""
    {
      categories, loading, showForm, editingId := [], true, false, None;
      name, saving, error := "", false, "";
    }

    /** `loadData`: the fetched list replaces the categories; a failed
        fetch keeps them. Loading ends either way. */
    method LoadData(fetched: Result<seq<Category>>)
      modifies this
      ensures !loading
      ensures fetched.Ok? ==> categories == fetched.value
      ensures fetched.Err? ==> categories == old(categories)
      ensures showForm == old(showForm) && editingId == old(editingId) && name == old(name)
      ensures saving == old(saving) && error == old(error)
    {
      if fetched.Ok? {
        categories := fetched.value;
      }
      loading := false;
    }

    /** `resetForm`: empty name, no category being edited, form hidden, no
        error. */
    method ResetForm()
      modifies this
      ensures name == "" && editingId == None && !showForm && error == ""
      ensures categories == old(categories) && loading == old(loading) && saving == old(saving)
    {
      name := "";
      editingId := None;
      showForm := false;
      error := "";
    }

    /** "+ Add Category": a reset form, shown. */
    method OpenNew()
      modifies this
      ensures name == "" && editingId == None && showForm && error == ""
      ensures categories == old(categories) && loading == old(loading) && saving == old(saving)
    {
      ResetForm();
      showForm := true;
    }

    /** `handleEdit`: the form shows the category's name and edits its
        id, with no error. */
    method HandleEdit(c: Category)
      modifies this
      ensures name == c.name && editingId == Some(c.id) && showForm && error == ""
      ensures categories == old(categories) && loading == old(loading) && saving == old(saving)
    {
      name := c.name;
      editingId := Some(c.id);
      showForm := true;
      error := "";
    }

    /** Typing into the name input. */
    method EditName(v: string)
      modifies this
      ensures name == v
      ensures categories == old(categories) && loading == old(loading) && showForm == old(showForm)
      ensures editingId == old(editingId) && saving == old(saving) && error == old(error)
    {
      name := v;
    }

    /** `handleDelete`: only after confirmation is the backend asked
        (`requested`); a successful delete removes that category id from
        the list, keeping the others in order; a failure keeps the list. */
    method HandleDelete(c: Category, confirmed: bool, outcome: Outcome) returns (requested: bool)
      modifies this
      ensures requested == confirmed
      ensures confirmed && outcome.Done? ==>
        categories == Reject(old(categories), CategoryKey, c.id)
        && IsSubsequence(categories, old(categories))
      ensures !confirmed || outcome.Threw? ==> categories == old(categories)
      ensures loading == old(loading) && showForm == old(showForm) && editingId == old(editingId)
      ensures name == old(name) && saving == old(saving) && error == old(error)
    {
      if !confirmed {
        return false;
      }
      requested := true;
      if outcome.Done? {
        RejectIsSubsequence(categories, CategoryKey, c.id);
        categories := Reject(categories, CategoryKey, c.id);
      }
    }

    /** The first half of `handleSubmit`. Nothing happens while a save is
        in flight. A blank name shows "Category name is required." and sends
        nothing; otherwise saving starts, the error is cleared and the
        request of `SubmitRequest` is sent. */
    method BeginSubmit() returns (request: Option<CategoryRequest>)
      modifies this
      ensures categories == old(categories) && loading == old(loading) && showForm == old(showForm)
      ensures editingId == old(editingId) && name == old(name)
      ensures old(saving) ==> request.None? && saving && error == old(error)
      ensures !old(saving) ==> request == SubmitRequest(name, editingId)
      ensures !old(saving) && request.None? ==> !saving && error == NameRequired
      ensures !old(saving) && request.Some? ==> saving && error == ""
    {
      if saving {
        return None;
      }
      if IsBlank(name) {
        error := NameRequired;
        return None;
      }
      saving := true;
      error := "";
      if Truthy(editingId) {
        request := Some(UpdateCategory(editingId.value, Trim(name)));
      } else {
        request := Some(CreateCategory(Trim(name)));
      }
    }

    /** The second half of `handleSubmit`, once the save has settled. A
        successful save resets the form and reloads the list (`reload` is
        the fetch's result; a failed reload keeps the old list). A failed
        save shows the thrown message, or "Failed to save category" when
        what was thrown is not an `Error`, and keeps the form as it was.
        Saving stops either way. */
    method CompleteSubmit(saved: Outcome, reload: Result<seq<Category>>)
      requires saving
      modifies this
      ensures !saving
      ensures saved.Done? ==>
        name == "" && editingId == None && !showForm && error == "" && !loading
        && categories == (if reload.Ok? then reload.value else old(categories))
      ensures saved.Threw? ==>
        error == MessageOr(saved.error, SaveFailed)
        && name == old(name) && editingId == old(editingId) && showForm == old(showForm)
        && categories == old(categories) && loading == old(loading)
    {
      if saved.Done? {
        ResetForm();
        LoadData(reload);
      } else {
        error := MessageOr(saved.error, SaveFailed);
      }
      saving := false;
    }
  }
}
