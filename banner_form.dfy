/** The banner create/edit dialog of the admin screen: the form's defaults, its validation, the
    field resets, the media-type detection of uploads and the write it submits. */
module BannerForm {
  import opened Types
  import opened Strings

  /** The form record. */
  datatype Form = Form(
    title: string,
    subtitle: string,
    imageUrl: string,
    buttonText: string,
    redirectType: string,
    redirectId: string,
    order: int,
    mediaType: string)

  /** `value || fallback` on a string. */
  function OrElse(value: string, fallback: string): (r: string)
    ensures value != "" ==> r == value
    ensures value == "" ==> r == fallback
  {
    if value == "" then fallback else value
  }

  /** The initial form: the edited banner's fields, each falsy one replaced by its default. */
  function InitialForm(banner: Option<Banner>): (f: Form)
    ensures banner.None? ==> f == Form("", "", "", "Listen Now", "song", "", 1, "image")
    ensures banner.Some? ==>
      var b := banner.value;
      && f.title == b.title && f.subtitle == b.subtitle && f.imageUrl == b.imageUrl
      && f.redirectId == b.redirectId
      && f.buttonText == OrElse(b.buttonText, "Listen Now")
      && f.redirectType == OrElse(b.redirectType, "song")
      && f.mediaType == OrElse(b.mediaType, "image")
      && f.order == (if b.order == 0 then 1 else b.order)
  {
    match banner
    case None => Form("", "", "", "Listen Now", "song", "", 1, "image")
    case Some(b) =>
      Form(
        OrElse(b.title, ""),
        OrElse(b.subtitle, ""),
        OrElse(b.imageUrl, ""),
        OrElse(b.buttonText, "Listen Now"),
        OrElse(b.redirectType, "song"),
        OrElse(b.redirectId, ""),
        if b.order == 0 then 1 else b.order,
        OrElse(b.mediaType, "image"))
  }

  /** Whatever banner is edited, the form starts with a button text, a redirect type, a media
      type and a non-zero order. */
  lemma InitialFormHasDefaults(banner: Option<Banner>)
    ensures var f := InitialForm(banner);
      f.buttonText != "" && f.redirectType != "" && f.mediaType != "" && f.order != 0
  {
  }

  /** The check at the top of `handleSubmit`: only the title and the image are required, so it
      passes every form the submit button lets through, and some with no redirect target. */
  predicate SubmitAllowed(f: Form)
    ensures SubmitEnabled(f, false, false) ==> SubmitAllowed(f)
    ensures f.title != "" && f.imageUrl != "" && f.redirectId == "" ==> SubmitAllowed(f)
  {
    f.title != "" && f.imageUrl != ""
  }

  /** The `disabled` rule of the submit button, negated. */
  function SubmitEnabled(f: Form, loading: bool, uploading: bool): (enabled: bool)
    ensures enabled <==> !loading && !uploading && f.title != "" && f.imageUrl != "" && f.redirectId != ""
  {
    !(loading || uploading || f.title == "" || f.imageUrl == "" || f.redirectId == "")
  }

  /** The button is stricter than the handler: an enabled button always passes the handler's
      check, but the handler alone would accept a form with no redirect id. */
  lemma EnabledImpliesAllowed(f: Form, loading: bool, uploading: bool)
    ensures SubmitEnabled(f, loading, uploading) ==> SubmitAllowed(f)
    ensures SubmitAllowed(f) && f.redirectId == "" ==> !SubmitEnabled(f, loading, uploading)
  {
  }

  /** Choosing a redirect type always clears the redirect id. */
  function SetRedirectType(f: Form, redirectType: string): (g: Form)
    ensures g.redirectType == redirectType && g.redirectId == ""
    ensures g.(redirectType := f.redirectType, redirectId := f.redirectId) == f
  {
    f.(redirectType := redirectType, redirectId := "")
  }

  /** Changing the redirect type therefore disables the submit button until an id is picked. */
  lemma RedirectTypeChangeDisablesSubmit(f: Form, redirectType: string, loading: bool, uploading: bool)
    ensures !SubmitEnabled(SetRedirectType(f, redirectType), loading, uploading)
  {
  }

  /** The media type recorded for an uploaded file of the given MIME type. */
  function MediaTypeFor(mime: string): (m: string)
    ensures m == "video" <==> StartsWith(mime, "video")
    ensures m == "image" <==> !StartsWith(mime, "video")
  {
    if StartsWith(mime, "video") then "video" else "image"
  }

  /** The form after a successful upload returned `url` for a file of type `mime`. */
  function AfterUpload(f: Form, url: string, mime: string): (g: Form)
    ensures g.imageUrl == url && g.mediaType == MediaTypeFor(mime)
    ensures g.(imageUrl := f.imageUrl, mediaType := f.mediaType) == f
  {
    f.(imageUrl := url, mediaType := MediaTypeFor(mime))
  }

  /** The write a submit issues. */
  datatype Submission =
    | Refused
    | UpdateBanner(id: string, fields: Form)
    | AddBanner(fields: Form, isActive: bool)

  /** `handleSubmit`'s choice: refuse an invalid form, update the edited banner in place, or add
      a new active banner. */
  function SubmitWrite(f: Form, editing: Option<Banner>): (w: Submission)
    ensures w == Refused <==> !SubmitAllowed(f)
    ensures w.UpdateBanner? <==> SubmitAllowed(f) && editing.Some?
    ensures w.UpdateBanner? ==> w.id == editing.value.id && w.fields == f
    ensures w.AddBanner? ==> editing.None? && w.fields == f && w.isActive
  {
    if !SubmitAllowed(f) then Refused
    else if editing.Some? then UpdateBanner(editing.value.id, f)
    else AddBanner(f, true)
  }

  /** Creating a banner without touching any field is refused: the defaults have no title. */
  lemma UntouchedNewFormRefused()
    ensures SubmitWrite(InitialForm(None), None) == Refused
  {
  }

  /** The dialog's own state. */
  class BannerFormModal {
    const editing: Option<Banner>
    var form: Form
    var loading: bool
    var uploading: bool
    var imagePreview: string

    constructor (banner: Option<Banner>)
      ensures editing == banner && form == InitialForm(banner)
      ensures !loading && !uploading
      ensures imagePreview == (if banner.Some? then banner.value.imageUrl else "")
    {
      editing := banner;
      form := InitialForm(banner);
      loading, uploading := false, false;
      imagePreview := if banner.Some? then OrElse(banner.value.imageUrl, "") else "";
    }

    /** The redirect-type select. */
    method ChangeRedirectType(redirectType: string)
      modifies this
      ensures form == SetRedirectType(old(form), redirectType)
      ensures loading == old(loading) && uploading == old(uploading) && imagePreview == old(imagePreview)
    {
      form := form.(redirectType := redirectType, redirectId := "");
    }

    /** `handleFileUpload`: no file does nothing; otherwise the upload runs with `uploading` set,
        and only a successful one (returning `url`) changes the preview and the form. */
    method HandleFileUpload(hasFile: bool, mime: string, uploadOk: bool, url: string, previewUrl: string)
      modifies this
      ensures !hasFile ==> form == old(form) && uploading == old(uploading) && imagePreview == old(imagePreview)
      ensures hasFile ==> !uploading
      ensures hasFile && uploadOk ==> form == AfterUpload(old(form), url, mime) && imagePreview == previewUrl
      ensures hasFile && !uploadOk ==> form == old(form) && imagePreview == old(imagePreview)
      ensures loading == old(loading)
    {
      if !hasFile {
        return;
      }
      uploading := true;
      if uploadOk {
        imagePreview := previewUrl;
        form := form.(imageUrl := url, mediaType := if StartsWith(mime, "video") then "video" else "image");
      }
      uploading := false;
    }

    /** `handleSubmit`: returns the write issued and whether the dialog closes (only after a
        write that succeeded). */
    method HandleSubmit(writeOk: bool) returns (write: Submission, closes: bool)
      modifies this
      ensures write == SubmitWrite(old(form), editing)
      ensures closes <==> write != Refused && writeOk
      ensures form == old(form) && uploading == old(uploading) && imagePreview == old(imagePreview)
      ensures write == Refused ==> loading == old(loading)
      ensures write != Refused ==> !loading
    {
      if form.title == "" || form.imageUrl == "" {
        return Refused, false;
      }
      loading := true;
      if editing.Some? {
        write := UpdateBanner(editing.value.id, form);
      } else {
        write := AddBanner(form, true);
      }
      closes := writeOk;
      loading := false;
    }
  }
}
