/**
 * The checks a chosen image file must pass before it is read into a data URL:
 * its MIME type must start with "image/" and it may be at most 5 MiB.
 */
module ImageUpload {
  import opened Text

  /** What the handlers read of a browser `File`: its MIME type and its size in bytes. */
  datatype ImageFile = ImageFile(mimeType: string, size: nat)

  /** `5 * 1024 * 1024`: a file larger than this is refused; one exactly this large is accepted. */
  const MaxImageBytes: nat := 5 * 1024 * 1024

  datatype Verdict = Accepted | NotAnImage | TooLarge

  /** A file both checks let through. */
  predicate Acceptable(f: ImageFile) {
    StartsWith(f.mimeType, "image/") && f.size <= MaxImageBytes
  }

  /** The project and certificate forms: type first, then size. */
  function CheckTypeThenSize(f: ImageFile): (v: Verdict)
    ensures v == Accepted <==> Acceptable(f)
    ensures v == NotAnImage <==> !StartsWith(f.mimeType, "image/")
    ensures v == TooLarge <==> StartsWith(f.mimeType, "image/") && f.size > MaxImageBytes
  {
    if !StartsWith(f.mimeType, "image/") then NotAnImage
    else if f.size > MaxImageBytes then TooLarge
    else Accepted
  }

  /** The profile manager: size first, then type. */
  function CheckSizeThenType(f: ImageFile): (v: Verdict)
    ensures v == Accepted <==> Acceptable(f)
    ensures v == TooLarge <==> f.size > MaxImageBytes
    ensures v == NotAnImage <==> f.size <= MaxImageBytes && !StartsWith(f.mimeType, "image/")
  {
    if f.size > MaxImageBytes then TooLarge
    else if !StartsWith(f.mimeType, "image/") then NotAnImage
    else Accepted
  }

  /**
   * The two orders accept the same files; they differ only in which refusal
   * they report for a file that fails both checks.
   */
  lemma CheckOrderOnlyChangesTheMessage(f: ImageFile)
    ensures (CheckTypeThenSize(f) == Accepted) == (CheckSizeThenType(f) == Accepted)
    ensures CheckTypeThenSize(f) != CheckSizeThenType(f)
      <==> !StartsWith(f.mimeType, "image/") && f.size > MaxImageBytes
  {
  }

  /** The ceiling is inclusive: 5 MiB exactly passes, one byte more does not. */
  lemma CeilingIsInclusive()
    ensures MaxImageBytes == 5242880
    ensures CheckTypeThenSize(ImageFile("image/png", 5242880)) == Accepted
    ensures CheckTypeThenSize(ImageFile("image/png", 5242881)) == TooLarge
    ensures CheckSizeThenType(ImageFile("image/png", 5242880)) == Accepted
  {
    assert StartsWith("image/png", "image/") by {
      assert "image/png"[..6] == "image/";
    }
  }
}
