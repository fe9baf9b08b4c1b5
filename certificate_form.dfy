/**
 * The certificate editor of the admin panel. A certificate needs an image:
 * either a typed URL or an uploaded file read into a data URL, never both.
 * Like the experience editor, it stays mounted and re-initialises whenever
 * the certificate it is given changes.
 */
module CertificateFormComponent {
  import opened Wrappers
  import opened Text
  import opened Records
  import opened Remote
  import opened ImageUpload

  /** `formData`: the date as `YYYY-MM-DD` text, an absent description as ''. */
  datatype CertificateDraft = CertificateDraft(
    title: string,
    institution: string,
    date: string,
    imageUrl: string,
    description: string)

  const EmptyDraft := CertificateDraft("", "", "", "", "")

  /** The draft an existing certificate opens with: its date cut at the 'T', an absent description as ''. */
  function DraftOf(c: Certificate): (d: CertificateDraft)
    ensures d.title == c.title && d.institution == c.institution && d.imageUrl == c.imageUrl
    ensures d.date == DateOnly(c.date)
    ensures d.description == OrEmpty(c.description)
  {
    CertificateDraft(c.title, c.institution, DateOnly(c.date), c.imageUrl, OrEmpty(c.description))
  }

  /** The text, date and URL inputs, by their `name` attribute. */
  datatype TextField = Title | Institution | Date | ImageUrl | Description

  function WithText(d: CertificateDraft, f: TextField, value: string): CertificateDraft {
    match f
    case Title => d.(title := value)
    case Institution => d.(institution := value)
    case Date => d.(date := value)
    case ImageUrl => d.(imageUrl := value)
    case Description => d.(description := value)
  }

  /**
   * The browser's `required` check: title, institution and date always, the
   * image URL only while no file is chosen (`required={!imageFile}`).
   */
  predicate RequiredFilled(d: CertificateDraft, fileChosen: bool) {
    d.title != "" && d.institution != "" && d.date != "" && (fileChosen || d.imageUrl != "")
  }

  /** A certificate with neither an uploaded file nor a typed URL cannot be submitted, whatever else is filled in. */
  lemma NoImageNoSubmit(d: CertificateDraft)
    requires d.imageUrl == ""
    ensures !RequiredFilled(d, false)
    ensures d.title != "" && d.institution != "" && d.date != "" ==> RequiredFilled(d, true)
  {
  }

  /** The columns written on save: the draft with the submitted image URL, and a fresh `updated_at`. */
  datatype CertificatePayload = CertificatePayload(
    title: string,
    institution: string,
    date: string,
    imageUrl: string,
    description: string,
    updatedAt: string)

  function PayloadOf(d: CertificateDraft, imageUrl: string, now: string): CertificatePayload {
    CertificatePayload(d.title, d.institution, d.date, imageUrl, d.description, now)
  }

  datatype CertificateSave =
    | Update(id: string, data: CertificatePayload)
    | Insert(id: string, createdAt: string, data: CertificatePayload)

  /**
   * Opening a certificate and saving it unchanged writes back the same
   * values when its date has no time part, except that an absent
   * description is written as ''.
   */
  lemma SaveUnchangedRoundTrip(c: Certificate, now: string)
    requires 'T' !in c.date
    ensures PayloadOf(DraftOf(c), c.imageUrl, now)
      == CertificatePayload(c.title, c.institution, c.date, c.imageUrl, OrEmpty(c.description), now)
    ensures c.description.None? ==> PayloadOf(DraftOf(c), c.imageUrl, now).description == ""
  {
    DateOnlyNoT(c.date);
  }

  class CertificateForm {
    /** The `certificate` prop the draft was last initialised from. */
    var certificate: Option<Certificate>
    var formData: CertificateDraft
    var saving: bool
    var imageFile: Option<ImageFile>
    var imagePreview: string
    var uploadingImage: bool

    /** Once a chosen file has been read, the typed URL is empty: the file is the only image. */
    ghost predicate Valid()
      reads this
    {
      imageFile.Some? && !uploadingImage ==> formData.imageUrl == ""
    }

    /** Mounting: the effect runs once with the initial prop. */
    constructor (certificate: Option<Certificate>)
      ensures Valid()
      ensures this.certificate == certificate
      ensures formData == if certificate.Some? then DraftOf(certificate.value) else EmptyDraft
      ensures imagePreview == if certificate.Some? then certificate.value.imageUrl else ""
      ensures imageFile.None? && !saving && !uploadingImage
    {
      this.certificate := certificate;
      formData := if certificate.Some? then DraftOf(certificate.value) else EmptyDraft;
      imagePreview := if certificate.Some? then certificate.value.imageUrl else "";
      imageFile := None;
      saving := false;
      uploadingImage := false;
    }

    /**
     * A new `certificate` prop: when it differs from the last one, the draft,
     * the preview and the chosen file are reset from it.
     */
    method ReceiveCertificate(c: Option<Certificate>)
      requires Valid()
      modifies this
      ensures Valid()
      ensures certificate == c
      ensures c != old(certificate) ==>
        formData == (if c.Some? then DraftOf(c.value) else EmptyDraft)
        && imagePreview == (if c.Some? then c.value.imageUrl else "")
        && imageFile.None?
      ensures c == old(certificate) ==>
        formData == old(formData) && imagePreview == old(imagePreview) && imageFile == old(imageFile)
      ensures saving == old(saving) && uploadingImage == old(uploadingImage)
    {
      if c != certificate {
        certificate := c;
        formData := if c.Some? then DraftOf(c.value) else EmptyDraft;
        imagePreview := if c.Some? then c.value.imageUrl else "";
        imageFile := None;
      }
    }

    /** The URL input is disabled while a file is chosen. */
    predicate UrlFieldDisabled()
      reads this
    {
      imageFile.Some?
    }

    /** `handleInputChange`; the disabled URL input sends no change. */
    method HandleInputChange(f: TextField, value: string)
      requires Valid()
      requires f == ImageUrl ==> !UrlFieldDisabled()
      modifies this
      ensures Valid()
      ensures formData == WithText(old(formData), f, value)
      ensures certificate == old(certificate) && saving == old(saving) && imageFile == old(imageFile)
      ensures imagePreview == old(imagePreview) && uploadingImage == old(uploadingImage)
    {
      formData := WithText(formData, f, value);
    }

    /**
     * `handleImageUpload`, up to the start of the read. The file input is
     * disabled while a read is in progress. A refused file changes nothing.
     */
    method HandleImageUpload(file: Option<ImageFile>) returns (verdict: Option<Verdict>)
      requires Valid()
      requires !uploadingImage
      modifies this
      ensures Valid()
      ensures file.None? ==> verdict.None?
      ensures file.Some? ==> verdict == Some(CheckTypeThenSize(file.value))
      ensures verdict == Some(Accepted) ==> imageFile == file && uploadingImage
      ensures verdict != Some(Accepted) ==> imageFile == old(imageFile) && !uploadingImage
      ensures certificate == old(certificate) && formData == old(formData)
      ensures imagePreview == old(imagePreview) && saving == old(saving)
    {
      if file.None? {
        return None;
      }
      verdict := Some(CheckTypeThenSize(file.value));
      if verdict == Some(Accepted) {
        uploadingImage := true;
        imageFile := file;
      }
    }

    /** The reader's `onload`: the data URL becomes the preview and the typed URL is cleared. */
    method ImageLoaded(dataUrl: string)
      requires Valid()
      modifies this
      ensures Valid()
      ensures imagePreview == dataUrl && formData == old(formData).(imageUrl := "") && !uploadingImage
      ensures certificate == old(certificate) && imageFile == old(imageFile) && saving == old(saving)
    {
      imagePreview := dataUrl;
      formData := formData.(imageUrl := "");
      uploadingImage := false;
    }

    /** `removeImage`: no file, no preview, no URL. */
    method RemoveImage()
      requires Valid()
      modifies this
      ensures Valid()
      ensures imageFile.None? && imagePreview == "" && formData == old(formData).(imageUrl := "")
      ensures certificate == old(certificate) && saving == old(saving) && uploadingImage == old(uploadingImage)
    {
      imageFile := None;
      imagePreview := "";
      formData := formData.(imageUrl := "");
    }

    /** `imageFile ? imagePreview : formData.image_url`. */
    function SubmittedImageUrl(): (url: string)
      requires Valid()
      reads this
      ensures imageFile.Some? ==> url == imagePreview
      ensures imageFile.None? ==> url == formData.imageUrl
      ensures imageFile.Some? && !uploadingImage ==> formData.imageUrl == ""
    {
      if imageFile.Some? then imagePreview else formData.imageUrl
    }

    predicate SubmitDisabled()
      reads this
    {
      saving
    }

    /**
     * Submitting, up to the database request: a disabled button or a draft
     * the browser refuses sends nothing; otherwise `saving` is set and the
     * draft goes out with the submitted image URL, as an update of the edited
     * certificate or as an insert with the fresh id and creation time.
     */
    method BeginSubmit(now: string, freshId: string, createdAt: string) returns (request: Option<CertificateSave>)
      requires Valid()
      modifies this
      ensures Valid()
      ensures request.None? <==> old(saving) || !RequiredFilled(formData, imageFile.Some?)
      ensures request.None? ==> saving == old(saving)
      ensures request.Some? ==> saving
      ensures request.Some? && certificate.Some? ==>
        request.value == Update(certificate.value.id, PayloadOf(formData, SubmittedImageUrl(), now))
      ensures request.Some? && certificate.None? ==>
        request.value == Insert(freshId, createdAt, PayloadOf(formData, SubmittedImageUrl(), now))
      ensures request.Some? && imageFile.None? ==> request.value.data.imageUrl != ""
      ensures certificate == old(certificate) && formData == old(formData) && imageFile == old(imageFile)
      ensures imagePreview == old(imagePreview) && uploadingImage == old(uploadingImage)
    {
      if saving || !RequiredFilled(formData, imageFile.Some?) {
        return None;
      }
      saving := true;
      var data := PayloadOf(formData, SubmittedImageUrl(), now);
      if certificate.Some? {
        request := Some(Update(certificate.value.id, data));
      } else {
        request := Some(Insert(freshId, createdAt, data));
      }
    }

    /** The database's answer: close on success; `saving` is cleared either way. */
    method FinishSubmit(reply: Ack) returns (closes: bool)
      requires Valid()
      modifies this
      ensures Valid()
      ensures closes <==> reply == Done
      ensures !saving
      ensures certificate == old(certificate) && formData == old(formData) && imageFile == old(imageFile)
      ensures imagePreview == old(imagePreview) && uploadingImage == old(uploadingImage)
    {
      saving := false;
      closes := reply == Done;
    }
  }
}
