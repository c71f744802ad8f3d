/** The admin products page (src/app/admin/products/page.tsx): the product
    list and the form that creates or edits a product, with the ordered
    backend calls its submit and delete make.

    The asynchronous `handleSubmit` (its submit button disabled while it
    runs) is modelled as `BeginSubmit` (the checks before the first awaited
    call) and `CompleteSubmit` (the awaited calls, given the outcome each
    would have). The calls a handler makes are returned, in order, as a
    sequence of effects: a call that throws is the last one made. */
module AdminProducts {
  import opened Outcomes
  import opened Strings
  import opened Commerce
  import opened Lists

  const FieldsRequired: string := "Name and price are required."
  const SaveFailed: string := "Failed to save product"

  /** The form's five text inputs. */
  datatype ProductForm = ProductForm(
    name: string,
    description: string,
    price: string,
    categoryId: string,
    imageUrl: string)

  const EmptyForm: ProductForm := ProductForm("", "", "", "", "")

  /** The file chosen in the image input. */
  datatype ImageFile = ImageFile(fileName: string)

  /** What `createProduct` and `updateProduct` receive. The price is kept
      as the form's text. */
  datatype ProductPayload = ProductPayload(
    name: string,
    description: string,
    price: string,
    categoryId: Option<string>,
    imageUrl: Option<string>)

  datatype ProductRequest = CreateProduct(payload: ProductPayload) | UpdateProduct(id: string, payload: ProductPayload)

  /** A call into the backend, as the handlers make them. */
  datatype Effect =
    | DeleteImage(url: string)
    | UploadImage(file: ImageFile)
    | SaveProduct(request: ProductRequest)
    | DeleteProduct(id: string)

  /** What `handleSubmit` captured when the form was submitted: the form,
      the chosen file and the id being edited. Its awaited calls use these,
      whatever the page's state becomes while they run. */
  datatype Submission = Submission(form: ProductForm, file: Option<ImageFile>, editingId: Option<string>)

  /** The calls a handler made, and what the last one threw, if anything. */
  datatype Run = Run(effects: seq<Effect>, failure: Option<Thrown>)

  /** `handleEdit`'s form: the product's fields, the price as
      `String(price)`, and "" for a missing category or image. */
  function FormOf(p: Product): (f: ProductForm)
    ensures f.name == p.name && f.description == p.description
    ensures AllDigits(f.price) <==> p.price >= 0
    ensures p.price >= 0 ==> DigitsValue(f.price) == p.price
    ensures p.categoryId.None? ==> f.categoryId == ""
    ensures p.categoryId.Some? ==> f.categoryId == p.categoryId.value
    ensures p.imageUrl.None? ==> f.imageUrl == ""
    ensures p.imageUrl.Some? ==> f.imageUrl == p.imageUrl.value
  {
    ProductForm(p.name, p.description, DecimalString(p.price), p.categoryId.GetOr(""), p.imageUrl.GetOr(""))
  }

  /** `!form.name.trim() || !form.price`: the name is blank after trimming,
      or the price input is empty (the price is not trimmed). */
  predicate Incomplete(f: ProductForm) {
    IsBlank(f.name) || f.price == []
  }

  /** `x || null` for a text input. */
  function NullIfEmpty(s: string): (r: Option<string>)
    ensures r.None? <==> s == []
    ensures r.Some? ==> r.value == s
  {
    if s == [] then None else Some(s)
  }

  /** The payload built from the form and the image URL to store: trimmed
      name and description, the price text, and null for an empty category
      or image URL. */
  function Payload(f: ProductForm, imageUrl: string): (p: ProductPayload)
    ensures p.name == Trim(f.name) && p.description == Trim(f.description)
    ensures Unpadded(p.name) && Unpadded(p.description) && p.price == f.price
    ensures p.categoryId == NullIfEmpty(f.categoryId) && p.imageUrl == NullIfEmpty(imageUrl)
  {
    ProductPayload(Trim(f.name), Trim(f.description), f.price, NullIfEmpty(f.categoryId), NullIfEmpty(imageUrl))
  }

  /** An update of the edited product when `editingId` is a non-empty
      string, a new product otherwise. */
  function SaveRequest(f: ProductForm, editingId: Option<string>, imageUrl: string): (r: ProductRequest)
    ensures r.payload == Payload(f, imageUrl)
    ensures r.UpdateProduct? <==> Truthy(editingId)
    ensures r.UpdateProduct? ==> r.id == editingId.value
  {
    if Truthy(editingId) then UpdateProduct(editingId.value, Payload(f, imageUrl))
    else CreateProduct(Payload(f, imageUrl))
  }

  /** Whether a submit replaces a stored image: a new file is chosen while
      editing a product whose form still holds an image URL. */
  predicate ReplacesImage(f: ProductForm, file: Option<ImageFile>, editingId: Option<string>) {
    file.Some? && Truthy(editingId) && f.imageUrl != []
  }

  /** What a call's outcome makes the run's failure. */
  function FailureOf(o: Outcome): (t: Option<Thrown>)
    ensures t.None? <==> o.Done?
    ensures t.Some? ==> t.value == o.error
  {
    if o.Threw? then Some(o.error) else None
  }

  /** The calls `handleSubmit` makes once its checks pass, given the outcome
      each call would have: the old image's deletion (only when replacing
      it), the new file's upload (only when there is one), then the save,
      stopping at the first call that throws. The save stores the uploaded
      image's URL when a file was chosen, and the form's own URL otherwise. */
  function SubmitRun(f: ProductForm, file: Option<ImageFile>, editingId: Option<string>,
                     deleted: Outcome, uploaded: Result<string>, saved: Outcome): (run: Run)
    ensures run.effects != []
  {
    if file.None? then
      Run([SaveProduct(SaveRequest(f, editingId, f.imageUrl))], FailureOf(saved))
    else
      var removal := if ReplacesImage(f, file, editingId) then [DeleteImage(f.imageUrl)] else [];
      if ReplacesImage(f, file, editingId) && deleted.Threw? then Run(removal, Some(deleted.error))
      else if uploaded.Err? then Run(removal + [UploadImage(file.value)], Some(uploaded.error))
      else Run(removal + [UploadImage(file.value)] + [SaveProduct(SaveRequest(f, editingId, uploaded.value))],
               FailureOf(saved))
  }

  /** The order of the submit's calls: the old image's deletion can only
      come first, and only when replacing the image, with the form's URL;
      the upload of the chosen file comes first or right after that
      deletion, and only when the deletion did not throw; the save can only
      come last, only when every earlier call succeeded, and stores the
      uploaded URL when a file was chosen; no product is ever deleted. */
  lemma {:induction false} SubmitOrder(f: ProductForm, file: Option<ImageFile>, editingId: Option<string>,
                                       deleted: Outcome, uploaded: Result<string>, saved: Outcome)
    ensures var e := SubmitRun(f, file, editingId, deleted, uploaded, saved).effects;
      forall i :: 0 <= i < |e| ==>
        !e[i].DeleteProduct?
        && (e[i].DeleteImage? ==> i == 0 && ReplacesImage(f, file, editingId) && e[i].url == f.imageUrl)
        && (e[i].UploadImage? ==>
              file == Some(e[i].file) && (i == 0 || (i == 1 && ReplacesImage(f, file, editingId)))
              && (ReplacesImage(f, file, editingId) ==> deleted.Done?))
        && (e[i].SaveProduct? ==>
              i == |e| - 1 && (file.Some? ==> uploaded.Ok?)
              && (ReplacesImage(f, file, editingId) ==> deleted.Done?)
              && e[i].request == SaveRequest(f, editingId, if file.Some? then uploaded.value else f.imageUrl))
  {
  }

  /** The submit succeeds exactly when every call it makes does: the
      deletion when replacing an image, the upload when a file was chosen,
      and the save. */
  lemma {:induction false} SubmitSucceeds(f: ProductForm, file: Option<ImageFile>, editingId: Option<string>,
                                          deleted: Outcome, uploaded: Result<string>, saved: Outcome)
    ensures SubmitRun(f, file, editingId, deleted, uploaded, saved).failure.None? <==>
      (ReplacesImage(f, file, editingId) ==> deleted.Done?) && (file.Some? ==> uploaded.Ok?) && saved.Done?
  {
  }

  /** A successful submit always ends with the save, after the upload when
      a file was chosen, and after the old image's deletion only when it
      was replaced. */
  lemma {:induction false} SuccessfulSubmitOrder(f: ProductForm, file: Option<ImageFile>, editingId: Option<string>,
                                                 deleted: Outcome, uploaded: Result<string>, saved: Outcome)
    requires SubmitRun(f, file, editingId, deleted, uploaded, saved).failure.None?
    ensures var e := SubmitRun(f, file, editingId, deleted, uploaded, saved).effects;
      e[|e| - 1].SaveProduct?
      && |e| == 1 + (if file.Some? then 1 else 0) + (if ReplacesImage(f, file, editingId) then 1 else 0)
      && (file.Some? ==> e[|e| - 2] == UploadImage(file.value))
      && (ReplacesImage(f, file, editingId) ==> e[0] == DeleteImage(f.imageUrl))
  {
  }

  /** The calls `handleDelete` makes: none without confirmation; otherwise
      the image's deletion first when the product has a non-empty image
      URL, then the product's, stopping at the first that throws. */
  function DeleteRun(p: Product, confirmed: bool, imageDeleted: Outcome, deleted: Outcome): (run: Run)
    ensures !confirmed ==> run == Run([], None)
    ensures forall i :: 0 <= i < |run.effects| && run.effects[i].DeleteImage? ==>
      i == 0 && Truthy(p.imageUrl) && run.effects[i].url == p.imageUrl.value
    ensures forall i :: 0 <= i < |run.effects| && run.effects[i].DeleteProduct? ==>
      i == |run.effects| - 1 && run.effects[i].id == p.id
      && (Truthy(p.imageUrl) ==> imageDeleted.Done?)
    ensures forall i :: 0 <= i < |run.effects| ==> run.effects[i].DeleteImage? || run.effects[i].DeleteProduct?
    ensures confirmed ==>
      (run.failure.None? <==> (Truthy(p.imageUrl) ==> imageDeleted.Done?) && deleted.Done?)
    ensures confirmed ==>
      |run.effects| == (if Truthy(p.imageUrl) then 1 else 0)
                       + (if Truthy(p.imageUrl) && imageDeleted.Threw? then 0 else 1)
  {
    if !confirmed then Run([], None)
    else
      var removal := if Truthy(p.imageUrl) then [DeleteImage(p.imageUrl.value)] else [];
      if Truthy(p.imageUrl) && imageDeleted.Threw? then Run(removal, Some(imageDeleted.error))
      else Run(removal + [DeleteProduct(p.id)], if deleted.Threw? then Some(deleted.error) else None)
  }

  /** The payload of a product's own form, unchanged and without a new
      file, is the product's fields again (when its name and description
      carry no padding and neither its category nor its image URL is an
      empty string). */
  lemma {:induction false} EditedPayload(p: Product)
    requires Unpadded(p.name) && Unpadded(p.description)
    requires p.categoryId != Some([]) && p.imageUrl != Some([])
    ensures Payload(FormOf(p), FormOf(p).imageUrl)
      == ProductPayload(p.name, p.description, FormOf(p).price, p.categoryId, p.imageUrl)
  {
    var f := FormOf(p);
    TrimUnpadded(p.name);
    TrimUnpadded(p.description);
    assert NullIfEmpty(f.categoryId) == p.categoryId;
    assert NullIfEmpty(f.imageUrl) == p.imageUrl;
  }

  /** A product's own form passes the submit's checks when the product has
      a name without padding: the price text is never empty. */
  lemma EditedFormComplete(p: Product)
    requires p.name != [] && Unpadded(p.name)
    ensures !Incomplete(FormOf(p))
  {
    TrimUnpadded(p.name);
  }

  /** Editing a product and saving it unchanged, without a new file, makes
      one call: the update of that product with its own fields (its price
      text reads back as its price, as `FormOf` states). */
  lemma {:induction false} EditThenSaveRoundTrip(p: Product, saved: Outcome)
    requires p.id != [] && Unpadded(p.name) && Unpadded(p.description)
    requires p.categoryId != Some([]) && p.imageUrl != Some([])
    ensures SubmitRun(FormOf(p), None, Some(p.id), Done, Err(OtherValue), saved).effects
      == [SaveProduct(UpdateProduct(p.id,
            ProductPayload(p.name, p.description, FormOf(p).price, p.categoryId, p.imageUrl)))]
  {
    var f := FormOf(p);
    EditedPayload(p);
    var payload := ProductPayload(p.name, p.description, f.price, p.categoryId, p.imageUrl);
    assert SaveRequest(f, Some(p.id), f.imageUrl) == UpdateProduct(p.id, payload);
  }

  /** The awaited calls of `handleSubmit` for a submission, made one after
      the other until one throws: the old image's deletion when replacing
      it, the new file's upload, then the save with the uploaded URL (or
      the form's own URL when no file was chosen). */
  method SubmitCalls(sub: Submission, deleted: Outcome, uploaded: Result<string>, saved: Outcome)
    returns (effects: seq<Effect>, failure: Option<Thrown>)
    ensures Run(effects, failure) == SubmitRun(sub.form, sub.file, sub.editingId, deleted, uploaded, saved)
  {
    var f, file, id := sub.form, sub.file, sub.editingId;
    failure := None;
    effects := [];
    var imageUrl := f.imageUrl;
    if file.Some? {
      if id.Some? && id.value != [] && f.imageUrl != [] {
        effects := effects + [DeleteImage(f.imageUrl)];
        if deleted.Threw? {
          return effects, Some(deleted.error);
        }
      }
      effects := effects + [UploadImage(file.value)];
      assert effects == (if ReplacesImage(f, file, id) then [DeleteImage(f.imageUrl)] else [])
        + [UploadImage(file.value)];
      if uploaded.Err? {
        return effects, Some(uploaded.error);
      }
      imageUrl := uploaded.value;
    }
    var payload := Payload(f, imageUrl);
    var request: ProductRequest;
    if id.Some? && id.value != [] {
      request := UpdateProduct(id.value, payload);
    } else {
      request := CreateProduct(payload);
    }
    assert request == SaveRequest(f, id, imageUrl);
    effects := effects + [SaveProduct(request)];
    if saved.Threw? {
      failure := Some(saved.error);
    }
  }

  class AdminProductsPage {
    var products: seq<Product>
    var categories: seq<Category>
    var loading: bool
    var showForm: bool
    var editingId: Option<string>
    var form: ProductForm
    var imageFile: Option<ImageFile>
    var saving: bool
    var error: string

    constructor ()
      ensures products == [] && categories == [] && loading && !showForm && editingId == None
      ensures form == EmptyForm && imageFile == None && !saving && error == ""
    {
      products, categories, loading, showForm := [], [], true, false;
      editingId, form, imageFile := None, EmptyForm, None;
      saving, error := false, "";
    }

    /** `loadData`: products and categories are fetched together and both
        replaced only when both fetches succeed. Loading ends either way. */
    method LoadData(fetchedProducts: Result<seq<Product>>, fetchedCategories: Result<seq<Category>>)
      modifies this
      ensures !loading
      ensures fetchedProducts.Ok? && fetchedCategories.Ok? ==>
        products == fetchedProducts.value && categories == fetchedCategories.value
      ensures fetchedProducts.Err? || fetchedCategories.Err? ==>
        products == old(products) && categories == old(categories)
      ensures showForm == old(showForm) && editingId == old(editingId) && form == old(form)
      ensures imageFile == old(imageFile) && saving == old(saving) && error == old(error)
    {
      if fetchedProducts.Ok? && fetchedCategories.Ok? {
        products := fetchedProducts.value;
        categories := fetchedCategories.value;
      }
      loading := false;
    }

    /** `resetForm`: empty form, no image file, nothing being edited, form
        hidden, no error. */
    method ResetForm()
      modifies this
      ensures form == EmptyForm && imageFile == None && editingId == None && !showForm && error == ""
      ensures products == old(products) && categories == old(categories)
      ensures loading == old(loading) && saving == old(saving)
    {
      form := EmptyForm;
      imageFile := None;
      editingId := None;
      showForm := false;
      error := "";
    }

    /** "+ Add Product": a reset form, shown. */
    method OpenNew()
      modifies this
      ensures form == EmptyForm && imageFile == None && editingId == None && showForm && error == ""
      ensures products == old(products) && categories == old(categories)
      ensures loading == old(loading) && saving == old(saving)
    {
      ResetForm();
      showForm := true;
    }

    /** `handleEdit`: the form shows the product, which is the one being
        edited; the chosen image file is kept as it was. */
    method HandleEdit(p: Product)
      modifies this
      ensures form == FormOf(p) && editingId == Some(p.id) && showForm && error == ""
      ensures imageFile == old(imageFile) && products == old(products) && categories == old(categories)
      ensures loading == old(loading) && saving == old(saving)
    {
      form := FormOf(p);
      editingId := Some(p.id);
      showForm := true;
      error := "";
    }

    /** Typing into an input or choosing a file. */
    method EditForm(f: ProductForm, file: Option<ImageFile>)
      modifies this
      ensures form == f && imageFile == file
      ensures editingId == old(editingId) && showForm == old(showForm) && error == old(error)
      ensures products == old(products) && categories == old(categories)
      ensures loading == old(loading) && saving == old(saving)
    {
      form := f;
      imageFile := file;
    }

    /** `handleDelete`: the calls of `DeleteRun`; the product leaves the
        list (with every other product with its id) only when they all
        succeed, and the others keep their order. */
    method HandleDelete(p: Product, confirmed: bool, imageDeleted: Outcome, deleted: Outcome)
      returns (effects: seq<Effect>)
      modifies this
      ensures effects == DeleteRun(p, confirmed, imageDeleted, deleted).effects
      ensures confirmed && DeleteRun(p, confirmed, imageDeleted, deleted).failure.None? ==>
        products == Reject(old(products), ProductKey, p.id) && IsSubsequence(products, old(products))
      ensures !confirmed || DeleteRun(p, confirmed, imageDeleted, deleted).failure.Some? ==>
        products == old(products)
      ensures categories == old(categories) && loading == old(loading) && showForm == old(showForm)
      ensures editingId == old(editingId) && form == old(form) && imageFile == old(imageFile)
      ensures saving == old(saving) && error == old(error)
    {
      effects := [];
      if !confirmed {
        return;
      }
      if p.imageUrl.Some? && p.imageUrl.value != [] {
        effects := effects + [DeleteImage(p.imageUrl.value)];
        if imageDeleted.Threw? {
          return;
        }
      }
      effects := effects + [DeleteProduct(p.id)];
      if deleted.Done? {
        RejectIsSubsequence(products, ProductKey, p.id);
        products := Reject(products, ProductKey, p.id);
      }
    }

    /** The checks of `handleSubmit`. Nothing happens while a save is in
        flight; an incomplete form shows "Name and price are required." and
        makes no call; otherwise saving starts, the error is cleared, and
        the form, file and editing id are captured for `CompleteSubmit`. */
    method BeginSubmit() returns (submission: Option<Submission>)
      modifies this
      ensures submission.Some? <==> !old(saving) && !Incomplete(form)
      ensures submission.Some? ==> submission.value == Submission(form, imageFile, editingId)
      ensures !old(saving) && Incomplete(form) ==> !saving && error == FieldsRequired
      ensures submission.Some? ==> saving && error == ""
      ensures old(saving) ==> saving && error == old(error)
      ensures products == old(products) && categories == old(categories) && loading == old(loading)
      ensures showForm == old(showForm) && editingId == old(editingId) && form == old(form)
      ensures imageFile == old(imageFile)
    {
      if saving {
        return None;
      }
      if IsBlank(form.name) || form.price == [] {
        error := FieldsRequired;
        return None;
      }
      saving := true;
      error := "";
      submission := Some(Submission(form, imageFile, editingId));
    }

    /** The rest of `handleSubmit`: the calls of `SubmitCalls` for the
        submission captured by `BeginSubmit` (even if the form was edited
        meanwhile), given the outcome each would have, and what follows
        them. When all succeed the form is reset and the lists reloaded
        (from `reloadedProducts` and `reloadedCategories`); when one throws,
        the error shows its message (or "Failed to save product") and the
        form, the file and the lists are kept. Saving stops either way. */
    method CompleteSubmit(sub: Submission, deleted: Outcome, uploaded: Result<string>, saved: Outcome,
                          reloadedProducts: Result<seq<Product>>, reloadedCategories: Result<seq<Category>>)
      returns (effects: seq<Effect>)
      requires saving
      modifies this
      ensures var run := SubmitRun(sub.form, sub.file, sub.editingId, deleted, uploaded, saved);
        effects == run.effects
        && (run.failure.None? ==>
              form == EmptyForm && imageFile == None && editingId == None && !showForm
              && error == "" && !loading
              && (reloadedProducts.Ok? && reloadedCategories.Ok? ==>
                    products == reloadedProducts.value && categories == reloadedCategories.value)
              && (reloadedProducts.Err? || reloadedCategories.Err? ==>
                    products == old(products) && categories == old(categories)))
        && (run.failure.Some? ==>
              error == MessageOr(run.failure.value, SaveFailed)
              && form == old(form) && imageFile == old(imageFile) && editingId == old(editingId)
              && showForm == old(showForm) && products == old(products)
              && categories == old(categories) && loading == old(loading))
      ensures !saving
    {
      var failure;
      effects, failure := SubmitCalls(sub, deleted, uploaded, saved);
      match failure {
        case Some(t) =>
          error := MessageOr(t, SaveFailed);
        case None =>
          ResetForm();
          LoadData(reloadedProducts, reloadedCategories);
      }
      saving := false;
    }
  }
}
