/**
 * The two portrait uploaders: the dialog on the portraits page, which
 * registers the uploaded object with `uploadPortrait`, and the onboarding
 * step, which stores its public URL with `updateAvatarUrl`. Both accept
 * one image, show a preview of it, and upload it to
 * `{userId}/{uuid}.{ext}` in the portraits bucket. The generated UUID, the
 * storage upload's outcome, the public URL and the server action's answer
 * are parameters.
 */
module PortraitUpload {
  import opened Common
  import opened Files
  import opened Validations
  import BackgroundUpload

  const NotAnImage := "Please upload an image file"
  const ImageTooLarge := "Image must be less than 5MB"
  const UploadSucceeded := "Portrait uploaded successfully!"
  const UploadFailed := "Failed to upload portrait"

  datatype Toast = ToastError(message: string) | ToastSuccess(message: string)

  /** A portrait must have an `image/` type and at most 5 MiB. */
  predicate IsImageFile(f: File)
  {
    StartsWith(f.mimeType, "image/") && f.size <= 5 * 1024 * 1024
  }

  /** `validateFile` of both uploaders: the type before the size. */
  function ValidateImage(f: File): (r: Outcome)
    ensures r == Pass <==> IsImageFile(f)
    ensures !StartsWith(f.mimeType, "image/") ==> r == Fail(NotAnImage)
    ensures StartsWith(f.mimeType, "image/") && f.size > 5 * 1024 * 1024 ==> r == Fail(ImageTooLarge)
  {
    if !StartsWith(f.mimeType, "image/") then Fail(NotAnImage)
    else if f.size > 5 * 1024 * 1024 then Fail(ImageTooLarge)
    else Pass
  }

  /** Every file the background picker accepts would also be accepted as a
      portrait; the portrait check is the looser of the two. */
  lemma BackgroundRulesAreStricter(f: File)
    requires BackgroundUpload.ValidFile(f)
    ensures ValidateImage(f) == Pass
  {
    assert f.mimeType == "image/jpeg" || f.mimeType == "image/png" || f.mimeType == "image/webp";
  }

  /** `name.split(".").pop()?.toLowerCase() || "jpg"` */
  function FileExtension(name: string): (ext: string)
    ensures ext != ""
    ensures '.' !in ext
  {
    var parts := Split(name, '.');
    var last := ToLower(parts[|parts| - 1]);
    assert forall k :: 0 <= k < |last| ==> last[k] == ToLowerChar(parts[|parts| - 1][k]);
    if last == "" then "jpg" else last
  }

  /** A name `base.ext` gets `ext` in lower case; a name ending in a dot
      falls back to `jpg`. */
  lemma ExtensionOfDottedName(base: string, ext: string)
    requires '.' !in ext
    ensures FileExtension(base + "." + ext) == if ext == "" then "jpg" else ToLower(ext)
  {
    var name := base + "." + ext;
    assert name == base + ['.'] + ext;
    SplitLastPart(base, ext, '.');
    ExtensionOfLastPart(name, ext);
  }

  /** The extension depends only on the text after the last dot. */
  lemma ExtensionOfLastPart(name: string, last: string)
    requires Split(name, '.')[|Split(name, '.')| - 1] == last
    ensures FileExtension(name) == if last == "" then "jpg" else ToLower(last)
  {
    assert |ToLower(last)| == |last|;
  }

  /** A name without a dot is its own extension. */
  lemma ExtensionOfUndottedName(name: string)
    requires '.' !in name
    ensures FileExtension(name) == if name == "" then "jpg" else ToLower(name)
  {
    SplitNoSep(name, '.');
  }

  /** `${userId}/${crypto.randomUUID()}.${fileExt}` */
  function StoragePath(userId: string, uuid: string, name: string): string
  {
    userId + "/" + uuid + "." + FileExtension(name)
  }

  /** The object lands in the user's own folder, so the path also meets the
      server's non-empty `storagePath` rule. */
  lemma StoragePathInUserFolder(userId: string, uuid: string, name: string)
    ensures StartsWith(StoragePath(userId, uuid, name), userId + "/")
    ensures StoragePath(userId, uuid, name) != ""
  {
    var head, ext := userId + "/", FileExtension(name);
    var p := head + (uuid + "." + ext);
    assert StoragePath(userId, uuid, name) == p;
    assert p[..|head|] == head;
  }

  /** The label the dialog sends: `label || undefined`. */
  function SentLabel(labelText: string): (r: Option<string>)
    ensures r.None? <==> labelText == ""
    ensures r.Some? ==> r.value == labelText
  {
    if labelText == "" then None else Some(labelText)
  }

  /** What a finished upload reports: the server's error, when truthy,
      turns into the generic failure toast. */
  function Finished(result: Outcome): (t: Toast)
    ensures t == ToastSuccess(UploadSucceeded) <==> !(result.Fail? && result.error != "")
    ensures t != ToastSuccess(UploadSucceeded) ==> t == ToastError(UploadFailed)
  {
    if result.Fail? && result.error != "" then ToastError(UploadFailed) else ToastSuccess(UploadSucceeded)
  }

  /** The portrait dialog's state. */
  class Dialog {
    const userId: string
    var open: bool
    var uploading: bool
    var preview: Option<string>
    var selectedFile: Option<File>
    var labelText: string
    /** Preview URLs released with `URL.revokeObjectURL`. */
    var revoked: seq<string>
    var toasts: seq<Toast>
    /** How often `onUploadComplete` was called. */
    var completions: nat

    constructor (userId: string)
      ensures this.userId == userId
      ensures !open && !uploading && preview.None? && selectedFile.None? && labelText == ""
      ensures revoked == [] && toasts == [] && completions == 0
    {
      this.userId := userId;
      open := false;
      uploading := false;
      preview := None;
      selectedFile := None;
      labelText := "";
      revoked := [];
      toasts := [];
      completions := 0;
    }

    /** `resetForm`: releases a truthy preview URL and clears preview, file
        and label. */
    method ResetForm()
      modifies this`preview, this`selectedFile, this`labelText, this`revoked
      ensures preview.None? && selectedFile.None? && labelText == ""
      ensures revoked == old(revoked) + (if Truthy(old(preview)) then [old(preview).value] else [])
    {
      if Truthy(preview) {
        revoked := revoked + [preview.value];
      }
      preview := None;
      selectedFile := None;
      labelText := "";
    }

    /** `handleOpenChange(newOpen)`: closing resets the form. */
    method HandleOpenChange(newOpen: bool)
      modifies this`open, this`preview, this`selectedFile, this`labelText, this`revoked
      ensures open == newOpen
      ensures !newOpen ==> preview.None? && selectedFile.None? && labelText == ""
      ensures !newOpen ==> revoked == old(revoked) + (if Truthy(old(preview)) then [old(preview).value] else [])
      ensures newOpen ==> preview == old(preview) && selectedFile == old(selectedFile)
                          && labelText == old(labelText) && revoked == old(revoked)
    {
      if !newOpen {
        ResetForm();
      }
      open := newOpen;
    }

    /** `handleFileSelect(file)`; `objectUrl` stands for `URL.createObjectURL(file)`. */
    method HandleFileSelect(file: File, objectUrl: string)
      modifies this`preview, this`selectedFile, this`toasts
      ensures ValidateImage(file) == Pass ==>
                preview == Some(objectUrl) && selectedFile == Some(file) && toasts == old(toasts)
      ensures ValidateImage(file).Fail? ==>
                && preview == old(preview) && selectedFile == old(selectedFile)
                && toasts == old(toasts) + [ToastError(ValidateImage(file).error)]
    {
      var v := ValidateImage(file);
      if v.Fail? {
        toasts := toasts + [ToastError(v.error)];
        return;
      }
      preview := Some(objectUrl);
      selectedFile := Some(file);
    }

    /** `clearPreview` */
    method ClearPreview()
      modifies this`preview, this`selectedFile, this`revoked
      ensures preview.None? && selectedFile.None?
      ensures revoked == old(revoked) + (if Truthy(old(preview)) then [old(preview).value] else [])
    {
      if Truthy(preview) {
        revoked := revoked + [preview.value];
      }
      preview := None;
      selectedFile := None;
    }

    /** `handleUpload`. `uuid` is `crypto.randomUUID()`, `uploadError`
        whether the storage upload fails, `publicUrlOf` the bucket's public
        URL for a path, and `result` the answer of `uploadPortrait`. Returns
        the object path uploaded and the `uploadPortrait` input, when those
        steps are reached. */
    method HandleUpload(uuid: string, uploadError: bool, publicUrlOf: string -> string, result: Outcome)
      returns (uploadedTo: Option<string>, registered: Option<UploadPortraitInput>)
      modifies this
      ensures old(selectedFile).Some? ==> !uploading
      ensures old(selectedFile).None? ==>
                && uploadedTo.None? && registered.None? && uploading == old(uploading)
                && preview == old(preview) && selectedFile == old(selectedFile) && labelText == old(labelText)
                && open == old(open) && toasts == old(toasts) && revoked == old(revoked)
                && completions == old(completions)
      ensures old(selectedFile).Some? ==>
                uploadedTo == Some(StoragePath(userId, uuid, old(selectedFile).value.name))
      ensures old(selectedFile).Some? && uploadError ==>
                && registered.None?
                && toasts == old(toasts) + [ToastError(UploadFailed)]
                && completions == old(completions)
                && preview == old(preview) && selectedFile == old(selectedFile) && labelText == old(labelText)
                && open == old(open) && revoked == old(revoked)
      ensures old(selectedFile).Some? && !uploadError ==>
                && registered == Some(UploadPortraitInput(uploadedTo.value, publicUrlOf(uploadedTo.value), SentLabel(old(labelText))))
                && toasts == old(toasts) + [Finished(result)]
      ensures old(selectedFile).Some? && !uploadError && Finished(result) == ToastSuccess(UploadSucceeded) ==>
                && completions == old(completions) + 1
                && !open && preview.None? && selectedFile.None? && labelText == ""
                && revoked == old(revoked) + (if Truthy(old(preview)) then [old(preview).value] else [])
      ensures old(selectedFile).Some? && !uploadError && Finished(result) != ToastSuccess(UploadSucceeded) ==>
                && completions == old(completions)
                && preview == old(preview) && selectedFile == old(selectedFile) && labelText == old(labelText)
                && open == old(open) && revoked == old(revoked)
    {
      uploadedTo, registered := None, None;
      if selectedFile.None? {
        return;
      }
      uploading := true;
      var storagePath := StoragePath(userId, uuid, selectedFile.value.name);
      uploadedTo := Some(storagePath);
      if uploadError {
        toasts := toasts + [ToastError(UploadFailed)];
        uploading := false;
        return;
      }
      var publicUrl := publicUrlOf(storagePath);
      registered := Some(UploadPortraitInput(storagePath, publicUrl, SentLabel(labelText)));
      if result.Fail? && result.error != "" {
        toasts := toasts + [ToastError(UploadFailed)];
        uploading := false;
        return;
      }
      toasts := toasts + [ToastSuccess(UploadSucceeded)];
      completions := completions + 1;
      HandleOpenChange(false);
      uploading := false;
    }
  }

  /** The onboarding step's state. */
  class OnboardingUpload {
    const userId: string
    var uploading: bool
    var preview: Option<string>
    var selectedFile: Option<File>
    var revoked: seq<string>
    var toasts: seq<Toast>
    /** How often `onComplete` was called. */
    var completions: nat

    constructor (userId: string)
      ensures this.userId == userId
      ensures !uploading && preview.None? && selectedFile.None?
      ensures revoked == [] && toasts == [] && completions == 0
    {
      this.userId := userId;
      uploading := false;
      preview := None;
      selectedFile := None;
      revoked := [];
      toasts := [];
      completions := 0;
    }

    /** `handleFileSelect(file)`, the same rule as the dialog's. */
    method HandleFileSelect(file: File, objectUrl: string)
      modifies this`preview, this`selectedFile, this`toasts
      ensures ValidateImage(file) == Pass ==>
                preview == Some(objectUrl) && selectedFile == Some(file) && toasts == old(toasts)
      ensures ValidateImage(file).Fail? ==>
                && preview == old(preview) && selectedFile == old(selectedFile)
                && toasts == old(toasts) + [ToastError(ValidateImage(file).error)]
    {
      var v := ValidateImage(file);
      if v.Fail? {
        toasts := toasts + [ToastError(v.error)];
        return;
      }
      preview := Some(objectUrl);
      selectedFile := Some(file);
    }

    /** `clearPreview` */
    method ClearPreview()
      modifies this`preview, this`selectedFile, this`revoked
      ensures preview.None? && selectedFile.None?
      ensures revoked == old(revoked) + (if Truthy(old(preview)) then [old(preview).value] else [])
    {
      if Truthy(preview) {
        revoked := revoked + [preview.value];
      }
      preview := None;
      selectedFile := None;
    }

    /** `handleUpload`: as the dialog's, but the public URL goes to
        `updateAvatarUrl`, whose answer is `result`; the preview is kept. */
    method HandleUpload(uuid: string, uploadError: bool, publicUrlOf: string -> string, result: Outcome)
      returns (uploadedTo: Option<string>, avatarUrl: Option<string>)
      modifies this`uploading, this`toasts, this`completions
      ensures selectedFile.Some? ==> !uploading
      ensures selectedFile.None? ==>
                && uploadedTo.None? && avatarUrl.None? && uploading == old(uploading)
                && toasts == old(toasts) && completions == old(completions)
      ensures selectedFile.Some? ==> uploadedTo == Some(StoragePath(userId, uuid, selectedFile.value.name))
      ensures selectedFile.Some? && uploadError ==>
                avatarUrl.None? && toasts == old(toasts) + [ToastError(UploadFailed)] && completions == old(completions)
      ensures selectedFile.Some? && !uploadError ==>
                && avatarUrl == Some(publicUrlOf(uploadedTo.value))
                && toasts == old(toasts) + [Finished(result)]
                && completions == old(completions) + (if Finished(result) == ToastSuccess(UploadSucceeded) then 1 else 0)
    {
      uploadedTo, avatarUrl := None, None;
      if selectedFile.None? {
        return;
      }
      uploading := true;
      var fileName := StoragePath(userId, uuid, selectedFile.value.name);
      uploadedTo := Some(fileName);
      if uploadError {
        toasts := toasts + [ToastError(UploadFailed)];
        uploading := false;
        return;
      }
      avatarUrl := Some(publicUrlOf(fileName));
      if result.Fail? && result.error != "" {
        toasts := toasts + [ToastError(UploadFailed)];
      } else {
        toasts := toasts + [ToastSuccess(UploadSucceeded)];
        completions := completions + 1;
      }
      uploading := false;
    }
  }
}
