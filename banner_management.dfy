/** The banner-management page: the one dialog that creates or edits a banner, the form it
    sends, the delete confirmation, the status switch and the image preview. */
module BannerManagement {
  import opened Wrappers
  import opened JsText
  import opened JsonText
  import opened Http
  import BannerApi
  import BaseApi

  /** A banner as the list returns it. Its `_id`, `image` and `status` may be missing, and its
      status may be any JSON value. */
  datatype Banner = Banner(
    id: Option<string>,
    name: string,
    description: string,
    url: string,
    image: Option<string>,
    status: Option<JsonValue>)

  /** The three form fields. */
  datatype FormValues = FormValues(name: string, description: string, url: string)

  /** The form's default values: empty fields. */
  const EmptyValues := FormValues("", "", "")

  // ---------------------------------------------------------------- the form schema

  /** The schema: each field must be at least one character long. */
  predicate SchemaValid(values: FormValues) {
    values.name != "" && values.description != "" && values.url != ""
  }

  /** The schema's messages for the form, in field order, one per empty field. */
  function SchemaErrors(values: FormValues): (errors: seq<string>)
    ensures |errors| <= 3
    ensures errors == [] <==> SchemaValid(values)
    ensures "Name is required" in errors <==> values.name == ""
    ensures "Description is required" in errors <==> values.description == ""
    ensures "URL is required" in errors <==> values.url == ""
  {
    (if values.name == "" then ["Name is required"] else [])
    + (if values.description == "" then ["Description is required"] else [])
    + (if values.url == "" then ["URL is required"] else [])
  }

  // ---------------------------------------------------------------- what is sent

  /** The three form fields, in order and without the banner's id. */
  function FormPairs(values: FormValues): seq<(string, string)> {
    [("name", values.name), ("description", values.description), ("url", values.url)]
  }

  /** The text of the "data" part: the JSON text of the form fields. */
  function DataField(values: FormValues): string {
    StringifyObject(FormPairs(values))
  }

  /** Reading the "data" part back gives exactly the three form fields, in order. */
  lemma DataFieldParsesBack(values: FormValues)
    ensures ParseObject(DataField(values)) ==
      Some([("name", values.name), ("description", values.description), ("url", values.url)])
  {
    StringifyParseRoundTrip(FormPairs(values));
  }

  /** The multipart form of a submit: "data" first, then "image" exactly when a file is
      selected. */
  function SubmitForm(values: FormValues, imageFile: Option<File>): (entries: seq<FormEntry>)
    ensures FormNames(entries) == if imageFile.Some? then ["data", "image"] else ["data"]
    ensures entries[0] == JsonEntry("data", FormPairs(values))
    ensures imageFile.Some? ==> entries[1] == FileEntry("image", imageFile.value)
  {
    var data := [JsonEntry("data", FormPairs(values))];
    var entries := data + if imageFile.Some? then [FileEntry("image", imageFile.value)] else [];
    assert entries[1..] == if imageFile.Some? then [FileEntry("image", imageFile.value)] else [];
    entries
  }

  /** A banner being edited is updated when it has a non-empty id; otherwise the form creates
      a banner. */
  predicate UpdatesBanner(editing: Option<Banner>) {
    editing.Some? && editing.value.id.Some? && Truthy(editing.value.id.value)
  }

  /** The request a submit sends: the update of the edited banner under its id, or else the
      creation of a new one, with the same form either way. */
  function SubmitRequest(editing: Option<Banner>, values: FormValues, imageFile: Option<File>): (r: Request)
    ensures r.verb == PATCH <==> UpdatesBanner(editing)
    ensures r.verb == POST <==> !UpdatesBanner(editing)
    ensures UpdatesBanner(editing) ==> r == BannerApi.UpdateBannerRequest(editing.value.id.value, SubmitForm(values, imageFile))
    ensures !UpdatesBanner(editing) ==> r == BannerApi.CreateBannerRequest(SubmitForm(values, imageFile))
  {
    if UpdatesBanner(editing) then BannerApi.UpdateBannerRequest(editing.value.id.value, SubmitForm(values, imageFile))
    else BannerApi.CreateBannerRequest(SubmitForm(values, imageFile))
  }

  /** `error?.data?.message || \`Failed to ${isEditMode ? "update" : "create"} banner\``. */
  function SubmitFailureMessage(message: Option<string>, isEditMode: bool): (r: string)
    ensures r != ""
    ensures message.Some? && message.value != "" ==> r == message.value
    ensures message.None? || message.value == "" ==>
      r == (if isEditMode then "Failed to update banner" else "Failed to create banner")
  {
    if message.Some? && Truthy(message.value) then message.value
    else if isEditMode then "Failed to update banner"
    else "Failed to create banner"
  }

  // ---------------------------------------------------------------- the status switch

  /** `record?.status === false ? true : false`: only a status that is exactly `false` is
      switched on; `true`, a missing status and any other value are switched off. */
  function NextBannerStatus(status: Option<JsonValue>): (r: bool)
    ensures r <==> status == Some(JBool(false))
  {
    status == Some(JBool(false))
  }

  /** The request of a status switch: the banner's id in the path and the new status in the
      body. */
  function StatusChangeRequest(record: Banner): (r: Request)
    ensures r == BannerApi.UpdateStatusRequest(BannerApi.StatusUpdate(record.id, NextBannerStatus(record.status)))
    ensures r.body.JsonBody? && r.body.fields[|r.body.fields| - 1] == ("status", JBool(NextBannerStatus(record.status)))
  {
    BannerApi.UpdateStatusRequest(BannerApi.StatusUpdate(record.id, NextBannerStatus(record.status)))
  }

  /** On a banner with a boolean status the switch sends the opposite status. */
  lemma StatusSwitchFlips(record: Banner, b: bool)
    requires record.status == Some(JBool(b))
    ensures StatusChangeRequest(record).body.fields[|StatusChangeRequest(record).body.fields| - 1] == ("status", JBool(!b))
  {
  }

  // ---------------------------------------------------------------- the preview

  const ImagePrefix := "/image"

  /** The preview's source: a path under "/image" is loaded from the image host, and anything
      else (the data URL of a chosen file, an absolute URL) is used as it is. */
  function PreviewSrc(preview: string): (r: string)
    ensures StartsWith(preview, ImagePrefix) ==> r == BaseApi.ImageUrl + preview
    ensures !StartsWith(preview, ImagePrefix) ==> r == preview
  {
    if StartsWith(preview, ImagePrefix) then BaseApi.ImageUrl + preview else preview
  }

  /** A source that has been prefixed no longer starts with "/image", so prefixing again
      changes nothing. */
  lemma PreviewSrcIdempotent(preview: string)
    ensures PreviewSrc(PreviewSrc(preview)) == PreviewSrc(preview)
  {
    if StartsWith(preview, ImagePrefix) {
      var r := BaseApi.ImageUrl + preview;
      assert r[0] == 'h';
      assert !StartsWith(r, ImagePrefix);
    }
  }

  // ---------------------------------------------------------------- the page state

  /** What the answer of an API call was. */
  datatype Reply = Succeeded | Failed(message: Option<string>)

  /** What a submit shows: the schema's field messages, or a toast. */
  datatype Notice = FieldErrors(messages: seq<string>) | Toast(title: string, description: string)

  class BannerPage {
    var isDialogOpen: bool
    var isDeleteDialogOpen: bool
    /** The banner being edited or deleted; `None` is create mode. */
    var editingBanner: Option<Banner>
    var imageFile: Option<File>
    var previewImage: Option<string>
    var values: FormValues
    /** The values `form.reset()` returns the form to: the form's default values at first, and
      afterwards the values of the last `form.reset(values)` call. */
    var defaults: FormValues
    /** The requests sent to the banner endpoints so far. */
    var sent: seq<Request>

    constructor ()
      ensures !isDialogOpen && !isDeleteDialogOpen && editingBanner.None?
      ensures imageFile.None? && previewImage.None? && values == EmptyValues && defaults == EmptyValues
      ensures sent == []
    {
      isDialogOpen := false;
      isDeleteDialogOpen := false;
      editingBanner := None;
      imageFile := None;
      previewImage := None;
      values := EmptyValues;
      defaults := EmptyValues;
      sent := [];
    }

    /** "Add banner": create mode with empty fields and no image. */
    method HandleCreate()
      modifies this
      ensures isDialogOpen && editingBanner.None? && values == EmptyValues && defaults == EmptyValues
      ensures imageFile.None? && previewImage.None?
      ensures isDeleteDialogOpen == old(isDeleteDialogOpen) && sent == old(sent)
    {
      editingBanner := None;
      values := EmptyValues;
      defaults := EmptyValues;
      imageFile := None;
      previewImage := None;
      isDialogOpen := true;
    }

    /** The edit button: edit mode on that banner, its fields in the form (and as the values a
      later reset returns to), its image as the preview and no new file. */
    method HandleEdit(banner: Banner)
      modifies this
      ensures isDialogOpen && editingBanner == Some(banner)
      ensures values == FormValues(banner.name, banner.description, banner.url) && defaults == values
      ensures imageFile.None? && previewImage == banner.image
      ensures isDeleteDialogOpen == old(isDeleteDialogOpen) && sent == old(sent)
    {
      editingBanner := Some(banner);
      values := FormValues(banner.name, banner.description, banner.url);
      defaults := values;
      imageFile := None;
      previewImage := banner.image;
      isDialogOpen := true;
    }

    /** A file choice: a chosen file becomes the image to send and its data URL the preview;
      an empty choice changes nothing. */
    method HandleImageChange(file: Option<File>, dataUrl: string)
      modifies this
      ensures file.Some? ==> imageFile == file && previewImage == Some(dataUrl)
      ensures file.None? ==> imageFile == old(imageFile) && previewImage == old(previewImage)
      ensures isDialogOpen == old(isDialogOpen) && isDeleteDialogOpen == old(isDeleteDialogOpen)
      ensures editingBanner == old(editingBanner)
      ensures values == old(values) && defaults == old(defaults) && sent == old(sent)
    {
      if file.Some? {
        imageFile := file;
        previewImage := Some(dataUrl);
      }
    }

    /** The submit of the form. The form holds the submitted values on every path but success.
      Fields the schema refuses are reported and nothing else changes; in
      create mode without an image an error is shown and nothing is sent; otherwise the request
      is sent, and on success the dialog closes and everything is reset, while on failure the
      dialog stays as it was, holding the submitted values. */
    method Submit(newValues: FormValues, reply: Reply) returns (notice: Notice)
      modifies this
      ensures !SchemaValid(newValues) ==>
        notice == FieldErrors(SchemaErrors(newValues)) && sent == old(sent)
        && isDialogOpen == old(isDialogOpen) && editingBanner == old(editingBanner)
        && imageFile == old(imageFile) && previewImage == old(previewImage) && values == newValues
      ensures SchemaValid(newValues) && old(editingBanner).None? && old(imageFile).None? ==>
        notice == Toast("Error", "Please select an image") && sent == old(sent)
        && isDialogOpen == old(isDialogOpen) && editingBanner == old(editingBanner)
        && imageFile == old(imageFile) && previewImage == old(previewImage) && values == newValues
      ensures SchemaValid(newValues) && (old(editingBanner).Some? || old(imageFile).Some?) ==>
        sent == old(sent) + [SubmitRequest(old(editingBanner), newValues, old(imageFile))]
      ensures SchemaValid(newValues) && (old(editingBanner).Some? || old(imageFile).Some?) && reply.Succeeded? ==>
        !isDialogOpen && editingBanner.None? && imageFile.None? && previewImage.None? && values == old(defaults)
        && notice == Toast("Success", if UpdatesBanner(old(editingBanner)) then "Banner updated successfully" else "Banner created successfully")
      ensures SchemaValid(newValues) && (old(editingBanner).Some? || old(imageFile).Some?) && reply.Failed? ==>
        isDialogOpen == old(isDialogOpen) && editingBanner == old(editingBanner)
        && imageFile == old(imageFile) && previewImage == old(previewImage) && values == newValues
        && notice == Toast("Error", SubmitFailureMessage(reply.message, old(editingBanner).Some?))
      ensures isDeleteDialogOpen == old(isDeleteDialogOpen) && defaults == old(defaults)
    {
      values := newValues;
      if !SchemaValid(newValues) {
        notice := FieldErrors(SchemaErrors(newValues));
        return;
      }
      if editingBanner.None? && imageFile.None? {
        notice := Toast("Error", "Please select an image");
        return;
      }
      notice := Send(reply);
    }

    /** The second half of the submit, for form values already taken and a request that can
      be made: the request is sent, and on success the dialog closes and everything is reset,
      while on failure the page keeps its state and shows the failure's message. */
    method Send(reply: Reply) returns (notice: Notice)
      requires editingBanner.Some? || imageFile.Some?
      modifies this
      ensures sent == old(sent) + [SubmitRequest(old(editingBanner), old(values), old(imageFile))]
      ensures reply.Succeeded? ==>
        !isDialogOpen && editingBanner.None? && imageFile.None? && previewImage.None? && values == old(defaults)
        && notice == Toast("Success", if UpdatesBanner(old(editingBanner)) then "Banner updated successfully" else "Banner created successfully")
      ensures reply.Failed? ==>
        isDialogOpen == old(isDialogOpen) && editingBanner == old(editingBanner) && imageFile == old(imageFile)
        && previewImage == old(previewImage) && values == old(values)
        && notice == Toast("Error", SubmitFailureMessage(reply.message, old(editingBanner).Some?))
      ensures isDeleteDialogOpen == old(isDeleteDialogOpen) && defaults == old(defaults)
    {
      var request := SubmitRequest(editingBanner, values, imageFile);
      sent := sent + [request];
      match reply
      case Succeeded =>
        notice := Toast("Success", if UpdatesBanner(editingBanner) then "Banner updated successfully" else "Banner created successfully");
        isDialogOpen := false;
        editingBanner := None;
        values := defaults;
        imageFile := None;
        previewImage := None;
      case Failed(message) =>
        notice := Toast("Error", SubmitFailureMessage(message, editingBanner.Some?));
    }

    /** The delete button: the banner is remembered and the confirmation opens. */
    method HandleDelete(banner: Banner)
      modifies this
      ensures editingBanner == Some(banner) && isDeleteDialogOpen
      ensures isDialogOpen == old(isDialogOpen) && sent == old(sent)
      ensures values == old(values) && defaults == old(defaults)
      ensures imageFile == old(imageFile) && previewImage == old(previewImage)
    {
      editingBanner := Some(banner);
      isDeleteDialogOpen := true;
    }

    /** The confirmation's Cancel: closes it and forgets the banner. */
    method CancelDelete()
      modifies this
      ensures !isDeleteDialogOpen && editingBanner.None?
      ensures isDialogOpen == old(isDialogOpen) && sent == old(sent)
      ensures values == old(values) && defaults == old(defaults)
      ensures imageFile == old(imageFile) && previewImage == old(previewImage)
    {
      isDeleteDialogOpen := false;
      editingBanner := None;
    }

    /** The confirmation's Delete: with no remembered banner nothing happens; otherwise the
      delete is sent under the banner's id (an absent id is written "undefined"), and on
      success the confirmation closes and the banner is forgotten. */
    method HandleDeleteConfirm(succeeded: bool)
      modifies this
      ensures old(editingBanner).None? ==>
        sent == old(sent) && isDeleteDialogOpen == old(isDeleteDialogOpen) && editingBanner == old(editingBanner)
      ensures old(editingBanner).Some? ==>
        sent == old(sent) + [BannerApi.DeleteBannerRequest(Interpolate(old(editingBanner).value.id))]
      ensures old(editingBanner).Some? && succeeded ==> !isDeleteDialogOpen && editingBanner.None?
      ensures old(editingBanner).Some? && !succeeded ==>
        isDeleteDialogOpen == old(isDeleteDialogOpen) && editingBanner == old(editingBanner)
      ensures isDialogOpen == old(isDialogOpen) && values == old(values) && defaults == old(defaults)
      ensures imageFile == old(imageFile) && previewImage == old(previewImage)
    {
      if editingBanner.None? {
        return;
      }
      sent := sent + [BannerApi.DeleteBannerRequest(Interpolate(editingBanner.value.id))];
      if succeeded {
        isDeleteDialogOpen := false;
        editingBanner := None;
      }
    }

    /** The status switch of a row sends that banner's status change and nothing else. */
    method HandleStatusChange(record: Banner)
      modifies this
      ensures sent == old(sent) + [StatusChangeRequest(record)]
      ensures isDialogOpen == old(isDialogOpen) && isDeleteDialogOpen == old(isDeleteDialogOpen)
      ensures editingBanner == old(editingBanner) && values == old(values) && defaults == old(defaults)
      ensures imageFile == old(imageFile) && previewImage == old(previewImage)
    {
      sent := sent + [StatusChangeRequest(record)];
    }

    /** Closing the dialog leaves create mode with no image, the form reset to the values of
      the last explicit reset. */
    method HandleDialogClose()
      modifies this
      ensures !isDialogOpen && editingBanner.None? && values == old(defaults) && defaults == old(defaults)
      ensures imageFile.None? && previewImage.None?
      ensures isDeleteDialogOpen == old(isDeleteDialogOpen) && sent == old(sent)
    {
      isDialogOpen := false;
      editingBanner := None;
      values := defaults;
      imageFile := None;
      previewImage := None;
    }
  }

  /** Closing the dialog after opening it on a banner leaves that banner's fields in the form:
      `form.reset()` returns to the last values given to `form.reset`. */
  method EditThenClose(banner: Banner) returns (values: FormValues)
    ensures values == FormValues(banner.name, banner.description, banner.url)
  {
    var page := new BannerPage();
    page.HandleEdit(banner);
    page.HandleDialogClose();
    values := page.values;
  }
}
