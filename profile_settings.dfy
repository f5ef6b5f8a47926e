/**
 * The supervisor's profile settings: the password-change form (match check, simulated update,
 * per-field visibility, disabled button) and the profile photo (file checks, the simulated
 * upload's progress bar, the copy kept in local storage under `profileImage_<username>`).
 * Timers are modelled as separate steps: each interval tick and each timeout is one method call.
 */
module ProfileSettings {
  import opened Wrappers
  import opened Records
  import opened JsText

  const MaxImageBytes: nat := 5 * 1024 * 1024
  const PasswordsDoNotMatch: string := "Passwords do not match"
  const ImageTooLarge: string := "Image size should be less than 5MB"
  const NotAnImage: string := "Please select an image file"

  /** The first selected file: its size in bytes and its MIME type. */
  datatype File = File(name: string, size: nat, mimeType: string)

  /** The two password inputs whose visibility can be toggled. */
  datatype Field = NewPassword | ConfirmPassword

  /** The checks of `handleImageUpload`, in their order: size first, then the MIME type. */
  function CheckImage(file: File): (r: Result<File>)
    ensures file.size > MaxImageBytes ==> r == Err(ImageTooLarge)
    ensures file.size <= MaxImageBytes && !StartsWith(file.mimeType, "image/") ==> r == Err(NotAnImage)
    ensures r.Ok? <==> file.size <= MaxImageBytes && StartsWith(file.mimeType, "image/")
    ensures r.Ok? ==> r.value == file
  {
    if file.size > MaxImageBytes then Err(ImageTooLarge)
    else if !StartsWith(file.mimeType, "image/") then Err(NotAnImage)
    else Ok(file)
  }

  /** A file that is both too large and not an image is reported as too large. */
  lemma SizeCheckedFirst(file: File)
    requires file.size > MaxImageBytes && !StartsWith(file.mimeType, "image/")
    ensures CheckImage(file) == Err(ImageTooLarge)
  {
  }

  /** One run of the progress interval's updater: `prev >= 90 ? 90 : prev + 10`. */
  function ProgressTick(prev: int): (next: int)
    ensures prev < 90 ==> next == prev + 10
    ensures prev >= 90 ==> next == 90
  {
    if prev >= 90 then 90 else prev + 10
  }

  function Ticks(n: nat, from: int): int {
    if n == 0 then from else ProgressTick(Ticks(n - 1, from))
  }

  /** From an empty bar, the ticks alone fill it by tens and stop at 90: only completion shows 100. */
  lemma {:induction false} TicksFromZero(n: nat)
    ensures Ticks(n, 0) == if 10 * n < 90 then 10 * n else 90
  {
    if n > 0 {
      TicksFromZero(n - 1);
    }
  }

  /**
   * On the bar's own values (multiples of ten) a tick never shows more than 90, even one that
   * runs after completion has set 100.
   */
  lemma TickNeverAbove90(prev: int)
    requires prev % 10 == 0
    ensures ProgressTick(prev) <= 90 && ProgressTick(prev) % 10 == 0
    ensures prev >= 90 ==> ProgressTick(prev) == 90
  {
  }

  /** The local-storage key of the profile photo: `profileImage_${user?.username}`. */
  function ImageKey(user: Option<User>): (key: string)
    ensures StartsWith(key, "profileImage_")
    ensures user.Some? ==> key[|"profileImage_"|..] == user.value.username
    ensures user.None? ==> key[|"profileImage_"|..] == "undefined"
  {
    var k := "profileImage_" + (if user.Some? then user.value.username else "undefined");
    assert k[..|"profileImage_"|] == "profileImage_";
    k
  }

  /** The update button's `disabled`: while updating, or while either password field is empty. */
  function SubmitDisabled(isUpdating: bool, newPassword: string, confirmPassword: string): (disabled: bool)
    ensures !disabled <==> !isUpdating && newPassword != "" && confirmPassword != ""
  {
    isUpdating || newPassword == "" || confirmPassword == ""
  }

  /** Everything the component holds, with the browser's local storage as a map. */
  datatype Profile = Profile(
    newPassword: string, confirmPassword: string, showNew: bool, showConfirm: bool,
    isUpdating: bool, isUploading: bool, profileImage: Option<File>, imagePreview: Option<string>,
    uploadProgress: int, ticking: bool, showCropModal: bool, storage: map<string, string>)

  class Settings {
    const user: Option<User>
    var newPassword: string
    var confirmPassword: string
    var showNew: bool
    var showConfirm: bool
    var isUpdating: bool
    var isUploading: bool
    var profileImage: Option<File>
    var imagePreview: Option<string>
    var uploadProgress: int
    /** Whether the progress interval is still scheduled. */
    var ticking: bool
    var showCropModal: bool
    /** The browser's local storage. */
    var storage: map<string, string>

    function State(): Profile
      reads this
    {
      Profile(newPassword, confirmPassword, showNew, showConfirm, isUpdating, isUploading, profileImage,
              imagePreview, uploadProgress, ticking, showCropModal, storage)
    }

    constructor (user: Option<User>, storage: map<string, string>)
      ensures this.user == user
      ensures State() == Profile("", "", false, false, false, false, None, None, 0, false, false, storage)
    {
      this.user := user;
      this.storage := storage;
      newPassword, confirmPassword, showNew, showConfirm := "", "", false, false;
      isUpdating, isUploading, profileImage, imagePreview := false, false, None, None;
      uploadProgress, ticking, showCropModal := 0, false, false;
    }

    /** The effect on `user`: a stored, non-empty photo becomes the preview. */
    method LoadSavedImage()
      modifies this
      ensures ImageKey(user) in storage && storage[ImageKey(user)] != "" ==>
                State() == old(State()).(imagePreview := Some(storage[ImageKey(user)]))
      ensures !(ImageKey(user) in storage && storage[ImageKey(user)] != "") ==> State() == old(State())
    {
      var key := ImageKey(user);
      if key in storage && storage[key] != "" {
        imagePreview := Some(storage[key]);
      }
    }

    /** `handlePasswordUpdate`: a mismatch reports an error and starts nothing. */
    method HandlePasswordUpdate() returns (error: Option<string>)
      modifies this
      ensures newPassword != confirmPassword ==> error == Some(PasswordsDoNotMatch) && State() == old(State())
      ensures newPassword == confirmPassword ==> error.None? && State() == old(State()).(isUpdating := true)
    {
      if newPassword != confirmPassword {
        return Some(PasswordsDoNotMatch);
      }
      isUpdating := true;
      error := None;
    }

    /** The 1.5 s timeout of the simulated update: done, and both fields cleared. */
    method PasswordUpdateDone()
      modifies this
      ensures State() == old(State()).(isUpdating := false, newPassword := "", confirmPassword := "")
    {
      isUpdating := false;
      newPassword, confirmPassword := "", "";
    }

    /** `togglePasswordVisibility(field)`: flips the named field only. */
    method TogglePasswordVisibility(field: Field)
      modifies this
      ensures field == NewPassword ==> State() == old(State()).(showNew := !old(showNew))
      ensures field == ConfirmPassword ==> State() == old(State()).(showConfirm := !old(showConfirm))
    {
      match field {
        case NewPassword => showNew := !showNew;
        case ConfirmPassword => showConfirm := !showConfirm;
      }
    }

    /**
     * `handleImageUpload` with the reader's `onload` folded in: no file does nothing; a file
     * that fails a check reports why and changes nothing; an accepted file becomes the pending
     * image, its data URL the preview, and the crop dialog opens.
     */
    method HandleImageUpload(file: Option<File>, dataUrl: string) returns (error: Option<string>)
      modifies this
      ensures file.None? ==> error.None? && State() == old(State())
      ensures file.Some? && CheckImage(file.value).Err? ==>
                error == Some(CheckImage(file.value).message) && State() == old(State())
      ensures file.Some? && CheckImage(file.value).Ok? ==>
                error.None?
                && State() == old(State()).(imagePreview := Some(dataUrl), profileImage := file, showCropModal := true)
    {
      error := None;
      if file.Some? {
        match CheckImage(file.value) {
          case Err(message) =>
            error := Some(message);
          case Ok(f) =>
            imagePreview := Some(dataUrl);
            profileImage := Some(f);
            showCropModal := true;
        }
      }
    }

    /**
     * `handleCropAndUpload`: without a pending image or canvas it returns at once; otherwise the
     * upload starts and the progress interval is scheduled. `cropped` is the canvas export, or
     * None when the export throws, in which case the upload is abandoned but the interval,
     * already scheduled, keeps running.
     */
    method StartUpload(canvasReady: bool, cropped: Option<string>)
      modifies this
      ensures profileImage.None? || !canvasReady ==> State() == old(State())
      ensures profileImage.Some? && canvasReady && cropped.Some? ==>
                State() == old(State()).(isUploading := true, ticking := true)
      ensures profileImage.Some? && canvasReady && cropped.None? ==>
                State() == old(State()).(isUploading := false, ticking := true, uploadProgress := 0)
    {
      if profileImage.None? || !canvasReady {
        return;
      }
      isUploading := true;
      ticking := true;
      if cropped.None? {
        isUploading := false;
        uploadProgress := 0;
      }
    }

    /** One run of the 200 ms interval: a tick, and clearing the interval once the bar is at 90. */
    method Tick()
      modifies this
      ensures old(ticking) ==>
                State() == old(State()).(uploadProgress := ProgressTick(old(uploadProgress)), ticking := old(uploadProgress) < 90)
      ensures !old(ticking) ==> State() == old(State())
    {
      if ticking {
        if uploadProgress >= 90 {
          ticking := false;
          uploadProgress := 90;
        } else {
          uploadProgress := uploadProgress + 10;
        }
      }
    }

    /** The 2 s timeout: the cropped photo is stored under the user's key, previewed, and the bar shows 100. */
    method UploadStored(cropped: string)
      modifies this
      ensures State() == old(State()).(storage := old(storage)[ImageKey(user) := cropped],
                                       imagePreview := Some(cropped), uploadProgress := 100)
    {
      storage := storage[ImageKey(user) := cropped];
      imagePreview := Some(cropped);
      uploadProgress := 100;
    }

    /** The 0.5 s timeout after that: the upload ends, the bar resets to 0 and the dialog closes. */
    method UploadFinished()
      modifies this
      ensures State() == old(State()).(isUploading := false, uploadProgress := 0, showCropModal := false)
    {
      isUploading := false;
      uploadProgress := 0;
      showCropModal := false;
    }

    /** `removePhoto`: clears the preview, the pending image and the stored copy; nothing else. */
    method RemovePhoto()
      modifies this
      ensures State() == old(State()).(imagePreview := None, profileImage := None,
                                       storage := old(storage) - {ImageKey(user)})
      ensures ImageKey(user) !in storage
    {
      imagePreview := None;
      profileImage := None;
      storage := storage - {ImageKey(user)};
    }
  }
}
