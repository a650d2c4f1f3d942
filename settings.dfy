/** The profile-image page of modern-chat-app/app/settings/page.tsx. The
    page's state variables are the fields of `SettingsForm`. The parsed
    stored user is a JSON object, kept as a map from field names to values
    so that the `...userData` spread keeps every field it had. The object URL
    the browser makes for a file, and the uploaded image's URL, are
    parameters; handleUpload is split at its `await`. */
module SettingsPage {
  import opened Common
  import opened Text

  /** The largest accepted file, 5 MiB. */
  const MAX_FILE_SIZE: nat := 5 * 1024 * 1024

  const SIZE_ERROR: string := "File size must be less than 5MB"
  const TYPE_ERROR: string := "Please select an image file"
  const UPLOAD_SUCCESS: string := "Profile image updated successfully!"
  const DEFAULT_IMAGE: string := "https://cdn.pixabay.com/photo/2015/10/05/22/37/blank-profile-picture-973460_1280.png"

  /** A picked file: its size in bytes and its MIME type. */
  datatype File = File(size: nat, mimeType: string)

  /** The parsed `user` entry of localStorage. */
  type UserRecord = map<string, string>

  /** The two checks of handleFileSelect (settings/page.tsx:55-63), in
      their order: None accepts the file, Some carries the error shown. */
  function FileError(f: File): (r: Option<string>)
    ensures r.None? <==> f.size <= MAX_FILE_SIZE && StartsWith(f.mimeType, "image/")
    // the size check comes first, whatever the type
    ensures f.size > MAX_FILE_SIZE ==> r == Some(SIZE_ERROR)
    ensures f.size <= MAX_FILE_SIZE && !StartsWith(f.mimeType, "image/") ==> r == Some(TYPE_ERROR)
  {
    if f.size > MAX_FILE_SIZE then Some(SIZE_ERROR)
    else if !StartsWith(f.mimeType, "image/") then Some(TYPE_ERROR)
    else None
  }

  /** The bound is inclusive: an image of exactly 5 MiB is accepted and one
      byte more is refused with the size error. */
  lemma SizeBoundary()
    ensures FileError(File(MAX_FILE_SIZE, "image/png")) == None
    ensures FileError(File(MAX_FILE_SIZE + 1, "image/png")) == Some(SIZE_ERROR)
    ensures FileError(File(MAX_FILE_SIZE + 1, "text/plain")) == Some(SIZE_ERROR)
  {
  }

  /** `{ ...userData, image: response.image_url }` (settings/page.tsx:84). */
  function WithImage(user: UserRecord, imageUrl: string): (r: UserRecord)
    ensures r.Keys == user.Keys + {"image"}
    ensures r["image"] == imageUrl
    ensures forall k :: k in user && k != "image" ==> r[k] == user[k]
  {
    user["image" := imageUrl]
  }

  /** `previewUrl || userData.image || defaultImage` (settings/page.tsx:153). */
  function AvatarSource(previewUrl: string, user: UserRecord): (r: string)
    ensures previewUrl != "" ==> r == previewUrl
    ensures previewUrl == "" && "image" in user && user["image"] != "" ==> r == user["image"]
    ensures previewUrl == "" && ("image" !in user || user["image"] == "") ==> r == DEFAULT_IMAGE
    ensures r != ""
  {
    if previewUrl != "" then previewUrl
    else if "image" in user && user["image"] != "" then user["image"]
    else DEFAULT_IMAGE
  }

  /** How the page's effect (settings/page.tsx:31-50) ends. */
  datatype LoadOutcome = RedirectToLogin | Loaded

  class SettingsForm {
    var userData: Option<UserRecord>
    var selectedFile: Option<File>
    var previewUrl: string
    var isUploading: bool
    var error: string
    var success: string

    constructor ()
      ensures userData == None && selectedFile == None && previewUrl == ""
      ensures !isUploading && error == "" && success == ""
    {
      userData := None;
      selectedFile := None;
      previewUrl := "";
      isUploading := false;
      error := "";
      success := "";
    }

    /** The page's effect: without a token or a user entry, or when the entry
        does not parse (`parse` returns None), the page goes to /login;
        otherwise the user is loaded and its image, if any, is the preview. */
    method Load(token: Option<string>, userStr: Option<string>, parse: string -> Option<UserRecord>)
      returns (outcome: LoadOutcome)
      modifies this
      ensures outcome == RedirectToLogin <==>
        token.None? || token.value == "" || userStr.None? || userStr.value == "" || parse(userStr.value).None?
      ensures outcome == RedirectToLogin ==> unchanged(this)
      ensures outcome == Loaded ==>
        && userData == parse(userStr.value)
        && var u := parse(userStr.value).value;
           previewUrl == (if "image" in u && u["image"] != "" then u["image"] else old(previewUrl))
      ensures selectedFile == old(selectedFile) && isUploading == old(isUploading)
      ensures error == old(error) && success == old(success)
    {
      if token.None? || token.value == "" || userStr.None? || userStr.value == "" {
        return RedirectToLogin;
      }
      var parsed := parse(userStr.value);
      if parsed.None? {
        return RedirectToLogin;
      }
      userData := parsed;
      var u := parsed.value;
      if "image" in u && u["image"] != "" {
        previewUrl := u["image"];
      }
      outcome := Loaded;
    }

    /** handleFileSelect (settings/page.tsx:52-70); `objectUrl` is what
        `URL.createObjectURL` returns for the file. */
    method HandleFileSelect(file: Option<File>, objectUrl: string)
      modifies this
      ensures userData == old(userData) && isUploading == old(isUploading) && success == old(success)
      // no file picked: nothing changes
      ensures file.None? ==> unchanged(this)
      // a refused file only sets the error: the earlier selection and preview stay
      ensures file.Some? && FileError(file.value).Some? ==>
        && error == FileError(file.value).value
        && selectedFile == old(selectedFile) && previewUrl == old(previewUrl)
      // an accepted file is selected and previewed, and the error cleared
      ensures file.Some? && FileError(file.value).None? ==>
        selectedFile == file && previewUrl == objectUrl && error == ""
    {
      if file.None? {
        return;
      }
      var f := file.value;
      if f.size > MAX_FILE_SIZE {
        error := SIZE_ERROR;
        return;
      }
      if !StartsWith(f.mimeType, "image/") {
        error := TYPE_ERROR;
        return;
      }
      selectedFile := file;
      previewUrl := objectUrl;
      error := "";
    }

    /** handleUpload up to its request (settings/page.tsx:72-80): nothing
        without a selected file; otherwise that file is uploaded. */
    method StartUpload() returns (request: Option<File>)
      modifies this
      ensures old(selectedFile).None? ==> request == None && unchanged(this)
      ensures old(selectedFile).Some? ==>
        && request == old(selectedFile) && isUploading && error == "" && success == ""
        && userData == old(userData) && selectedFile == old(selectedFile) && previewUrl == old(previewUrl)
    {
      if selectedFile.None? {
        return None;
      }
      isUploading := true;
      error := "";
      success := "";
      request := selectedFile;
    }

    /** handleUpload after its request (settings/page.tsx:81-94): `imageUrl`
        is the returned `image_url`, None when the upload threw. On success
        the user gets the new image and nothing else changes in it, the
        record written back to localStorage is returned as `stored`, and the
        selection is cleared. */
    method FinishUpload(imageUrl: Option<string>, message: Option<string>) returns (stored: Option<UserRecord>)
      modifies this
      ensures !isUploading && previewUrl == old(previewUrl)
      ensures imageUrl.Some? ==>
        && success == UPLOAD_SUCCESS && error == old(error) && selectedFile == None
        && (old(userData).Some? ==> userData == stored == Some(WithImage(old(userData).value, imageUrl.value)))
        && (old(userData).None? ==> userData == stored == None)
      ensures imageUrl.None? ==>
        && error == (if message.Some? then message.value else "Upload failed. Please try again.")
        && success == old(success) && selectedFile == old(selectedFile) && userData == old(userData) && stored == None
    {
      stored := None;
      if imageUrl.Some? {
        success := UPLOAD_SUCCESS;
        if userData.Some? {
          var updated := WithImage(userData.value, imageUrl.value);
          userData := Some(updated);
          stored := Some(updated);
        }
        selectedFile := None;
      } else {
        error := if message.Some? then message.value else "Upload failed. Please try again.";
      }
      isUploading := false;
    }
  }

  /** Without a preview, the avatar shows the image an upload merged into
      the user; with one, the preview still wins. */
  lemma UploadedImageShown(previewUrl: string, user: UserRecord, imageUrl: string)
    requires imageUrl != ""
    ensures AvatarSource(previewUrl, WithImage(user, imageUrl)) == (if previewUrl != "" then previewUrl else imageUrl)
  {
  }
}
