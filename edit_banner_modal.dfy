/** The edit-banner modal: the form reset when it opens, the acceptance of a chosen image (type
    check, compression, size limit), and the submit that updates the banner. */
module EditBannerModal {
  import opened Wrappers
  import opened JsText
  import opened JsonText
  import opened Http
  import opened BannerManagement
  import BannerApi

  /** The size limit of an image, in bytes: 2 MB. */
  const MaxFileSize: nat := 2 * 1024 * 1024

  /** The browser's image compression (`compressImage(file, maxWidth, quality)`), drawn on a
      canvas outside this model, so given as a parameter. */
  type Compress = (File, nat, real) -> File

  /** The browser's `FileReader` data URL of a file, given as a parameter. */
  type DataUrl = File -> string

  /** The banner the modal edits, as its caller hands it over: any field may be missing. */
  datatype EditedBanner = EditedBanner(
    id: Option<string>,
    name: Option<string>,
    description: Option<string>,
    url: Option<string>,
    image: Option<string>)

  /** `x || ""`. */
  function OrEmpty(x: Option<string>): (r: string)
    ensures x.Some? ==> r == x.value
    ensures x.None? ==> r == ""
  {
    if x.Some? && Truthy(x.value) then x.value else ""
  }

  /** The form values the modal opens with: the banner's fields, a missing one as "". */
  function OpeningValues(banner: EditedBanner): (v: FormValues)
    ensures v.name == OrEmpty(banner.name) && v.description == OrEmpty(banner.description)
    ensures v.url == OrEmpty(banner.url)
  {
    FormValues(OrEmpty(banner.name), OrEmpty(banner.description), OrEmpty(banner.url))
  }

  /** `banner.image || null`: the preview the modal opens with. */
  function OpeningPreview(banner: EditedBanner): (r: Option<string>)
    ensures r.Some? <==> banner.image.Some? && banner.image.value != ""
    ensures r.Some? ==> r == banner.image
  {
    if banner.image.Some? && Truthy(banner.image.value) then banner.image else None
  }

  // ---------------------------------------------------------------- the image pipeline

  /** What becomes of a chosen file. */
  datatype ImageOutcome = Accepted(file: File) | InvalidType | TooLarge

  /** The acceptance of a chosen file. A file whose type is not "image/..." is refused. A file
      within the limit is taken as it is, uncompressed. A larger one is compressed at width 800
      and quality 0.8; if that is still too large, the ORIGINAL is compressed again at 600 and
      0.6; if that is still too large the file is refused. Whatever is accepted is within the
      limit. */
  function ProcessImage(file: File, compress: Compress): (r: ImageOutcome)
    ensures r == InvalidType <==> !StartsWith(file.mimeType, "image/")
    ensures r.Accepted? ==> r.file.size <= MaxFileSize
    ensures StartsWith(file.mimeType, "image/") && file.size <= MaxFileSize ==> r == Accepted(file)
    ensures StartsWith(file.mimeType, "image/") && file.size > MaxFileSize ==>
      r == (if compress(file, 800, 0.8).size <= MaxFileSize then Accepted(compress(file, 800, 0.8))
            else if compress(file, 600, 0.6).size <= MaxFileSize then Accepted(compress(file, 600, 0.6))
            else TooLarge)
  {
    if !StartsWith(file.mimeType, "image/") then InvalidType
    else if file.size <= MaxFileSize then Accepted(file)
    else
      var first := compress(file, 800, 0.8);
      if first.size <= MaxFileSize then Accepted(first)
      else
        var second := compress(file, 600, 0.6);
        if second.size <= MaxFileSize then Accepted(second) else TooLarge
  }

  /** Only a file over the limit is ever compressed: with a compression that would make every
      file too large, a small image is still accepted, and a large one is refused. */
  lemma CompressionOnlyForLargeFiles(file: File, compress: Compress)
    requires StartsWith(file.mimeType, "image/")
    requires forall f: File, w: nat, q: real :: compress(f, w, q).size > MaxFileSize
    ensures file.size <= MaxFileSize <==> ProcessImage(file, compress) == Accepted(file)
    ensures file.size > MaxFileSize <==> ProcessImage(file, compress) == TooLarge
  {
  }

  // ---------------------------------------------------------------- the submit

  /** `formData` of the submit: the banner's id (an absent one written "undefined"), the JSON
      of the form values, and the image exactly when a new file was chosen. */
  function UpdateForm(bannerId: Option<string>, values: FormValues, imageFile: Option<File>): (entries: seq<FormEntry>)
    ensures FormNames(entries) == if imageFile.Some? then ["id", "data", "image"] else ["id", "data"]
    ensures entries[0] == TextEntry("id", Interpolate(bannerId))
    ensures entries[1] == JsonEntry("data", FormPairs(values))
    ensures imageFile.Some? ==> entries[2] == FileEntry("image", imageFile.value)
  {
    var fixed := [TextEntry("id", Interpolate(bannerId)), JsonEntry("data", FormPairs(values))];
    var entries := fixed + if imageFile.Some? then [FileEntry("image", imageFile.value)] else [];
    assert FormNames(entries) == FormNames(fixed) + FormNames(entries[2..]);
    entries
  }

  /** The toast of a failed update: the server's message, else the error's own message, else
      a fixed text. */
  function UpdateErrorMessage(dataMessage: Option<string>, message: Option<string>): (r: string)
    ensures r != ""
    ensures dataMessage.Some? && dataMessage.value != "" ==> r == dataMessage.value
    ensures (dataMessage.None? || dataMessage.value == "") && message.Some? && message.value != "" ==> r == message.value
    ensures (dataMessage.None? || dataMessage.value == "") && (message.None? || message.value == "") ==>
      r == "Failed to update banner"
  {
    if dataMessage.Some? && Truthy(dataMessage.value) then dataMessage.value
    else if message.Some? && Truthy(message.value) then message.value
    else "Failed to update banner"
  }

  /** How the update call ended. */
  datatype UpdateReply = Updated | UpdateFailed(dataMessage: Option<string>, message: Option<string>)

  // ---------------------------------------------------------------- the modal state

  class EditModal {
    var imageFile: Option<File>
    var previewImage: Option<string>
    var isCompressing: bool
    var values: FormValues
    /** The values `form.reset()` returns the form to: the empty default values at first, and
      afterwards the values the last opening gave to `form.reset`. */
    var defaults: FormValues
    /** The update requests sent so far. */
    var sent: seq<Request>

    /** Between two events no compression is under way. */
    predicate Idle()
      reads this
    {
      !isCompressing
    }

    constructor ()
      ensures imageFile.None? && previewImage.None? && values == EmptyValues && defaults == EmptyValues
      ensures sent == [] && Idle()
    {
      imageFile := None;
      previewImage := None;
      isCompressing := false;
      values := EmptyValues;
      defaults := EmptyValues;
      sent := [];
    }

    /** The effect on opening: with a banner and the modal open, the form takes the banner's
      values (which become the values a later reset returns to), the preview its image, and no
      new file is chosen; otherwise nothing changes. */
    method OnOpen(banner: Option<EditedBanner>, isOpen: bool)
      modifies this
      ensures banner.Some? && isOpen ==>
        values == OpeningValues(banner.value) && defaults == values
        && previewImage == OpeningPreview(banner.value) && imageFile.None?
      ensures !(banner.Some? && isOpen) ==>
        values == old(values) && defaults == old(defaults)
        && previewImage == old(previewImage) && imageFile == old(imageFile)
      ensures isCompressing == old(isCompressing) && sent == old(sent)
    {
      if banner.Some? && isOpen {
        values := OpeningValues(banner.value);
        defaults := values;
        previewImage := OpeningPreview(banner.value);
        imageFile := None;
      }
    }

    /** A file choice. An accepted file becomes the file to send and its data URL the preview;
      a refused one, or no file, changes nothing. The compression flag is down again whenever
      the handler ends. */
    method HandleImageChange(file: Option<File>, compress: Compress, dataUrl: DataUrl)
      requires Idle()
      modifies this
      ensures Idle()
      ensures file.Some? && ProcessImage(file.value, compress).Accepted? ==>
        imageFile == Some(ProcessImage(file.value, compress).file)
        && previewImage == Some(dataUrl(ProcessImage(file.value, compress).file))
      ensures file.None? || !ProcessImage(file.value, compress).Accepted? ==>
        imageFile == old(imageFile) && previewImage == old(previewImage)
      ensures values == old(values) && defaults == old(defaults) && sent == old(sent)
    {
      if file.None? {
        return;
      }
      var f := file.value;
      if !StartsWith(f.mimeType, "image/") {
        return;
      }
      isCompressing := true;
      var processed := f;
      if f.size > MaxFileSize {
        processed := compress(f, 800, 0.8);
        if processed.size > MaxFileSize {
          processed := compress(f, 600, 0.6);
        }
        if processed.size > MaxFileSize {
          isCompressing := false;
          return;
        }
      }
      imageFile := Some(processed);
      previewImage := Some(dataUrl(processed));
      isCompressing := false;
    }

    /** The close: the form back to the values of the last reset, no file and no preview. */
    method HandleClose()
      modifies this
      ensures values == old(defaults) && imageFile.None? && previewImage.None?
      ensures defaults == old(defaults) && isCompressing == old(isCompressing) && sent == old(sent)
    {
      values := defaults;
      imageFile := None;
      previewImage := None;
    }

    /** The submit of form values the schema accepted; the form holds them unless the submit
      succeeds. Without a banner nothing else happens. Otherwise the update is sent under the
      banner's id; on success the modal closes (and `closed` tells the caller so), on failure
      the error's message is returned and the file and preview are kept. */
    method HandleSubmit(banner: Option<EditedBanner>, newValues: FormValues, reply: UpdateReply)
      returns (closed: bool, error: Option<string>)
      requires SchemaValid(newValues)
      modifies this
      ensures banner.None? ==>
        !closed && error.None? && sent == old(sent) && values == newValues && imageFile == old(imageFile) && previewImage == old(previewImage)
      ensures banner.Some? ==> sent == old(sent) + [BannerApi.UpdateBannerRequest(
        Interpolate(banner.value.id), UpdateForm(banner.value.id, newValues, old(imageFile)))]
      ensures banner.Some? && reply.Updated? ==>
        closed && error.None? && values == old(defaults) && imageFile.None? && previewImage.None?
      ensures banner.Some? && reply.UpdateFailed? ==>
        !closed && error == Some(UpdateErrorMessage(reply.dataMessage, reply.message))
        && values == newValues && imageFile == old(imageFile) && previewImage == old(previewImage)
      ensures defaults == old(defaults) && isCompressing == old(isCompressing)
    {
      closed := false;
      error := None;
      values := newValues;
      if banner.None? {
        return;
      }
      var id := Interpolate(banner.value.id);
      var form := UpdateForm(banner.value.id, newValues, imageFile);
      sent := sent + [BannerApi.UpdateBannerRequest(id, form)];
      match reply
      case Updated =>
        HandleClose();
        closed := true;
      case UpdateFailed(dataMessage, message) =>
        error := Some(UpdateErrorMessage(dataMessage, message));
    }
  }

  /** Closing the modal after it opened on a banner leaves that banner's values in the form:
      `form.reset()` returns to the values the opening gave to `form.reset`. */
  method OpenThenClose(banner: EditedBanner) returns (values: FormValues)
    ensures values == OpeningValues(banner)
  {
    var modal := new EditModal();
    modal.OnOpen(Some(banner), true);
    modal.HandleClose();
    values := modal.values;
  }
}
