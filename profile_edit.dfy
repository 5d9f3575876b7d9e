/** The profile editor: which picture the avatar preview shows, the
    initials fallback, the upload path of a custom picture, and the form's
    pick, select and save handlers. The image picker, the storage upload,
    the clock and the profile write are inputs. */
module ProfileEdit {
  import opened Common
  import opened Strings
  import opened Ui
  import opened AuthContext

  /** What `getAvatarSource` returns: a remote image, a bundled preset, or null. */
  datatype AvatarSource = Uri(uri: string) | Asset(id: nat) | NoSource

  /** `AVATAR_IMAGES.find(a => a.key === key)`, searching ids `from` .. 12 in order. */
  function PresetIdFrom(key: string, from: nat): (r: Option<nat>)
    ensures r.Some? ==> from <= r.value <= PRESET_COUNT && key == PresetKey(r.value)
    ensures r.None? ==> forall k: nat :: from <= k <= PRESET_COUNT ==> key != PresetKey(k)
    decreases PRESET_COUNT + 1 - from
  {
    if from > PRESET_COUNT then None
    else if key == PresetKey(from) then Some(from)
    else PresetIdFrom(key, from + 1)
  }

  /** The preset id a key names, if it names one. */
  function PresetId(key: string): (r: Option<nat>)
    ensures r.Some? ==> 1 <= r.value <= PRESET_COUNT && key == PresetKey(r.value)
    ensures r.None? <==> !IsPresetAvatar(key)
  {
    PresetIdFrom(key, 1)
  }

  /** Looking up a preset's own key finds that preset. */
  lemma PresetIdOfKey(id: nat)
    requires 1 <= id <= PRESET_COUNT
    ensures PresetId(PresetKey(id)) == Some(id)
  {
    var r := PresetId(PresetKey(id));
    PresetKeyInjective(r.value, id);
  }

  /** `getAvatarSource(key)`. */
  function GetAvatarSource(key: string): (r: AvatarSource)
    ensures r.Uri? <==> StartsWith(key, "http")
    ensures r.Uri? ==> r.uri == key
    ensures r.Asset? <==> !StartsWith(key, "http") && IsPresetAvatar(key)
    ensures r.Asset? ==> 1 <= r.id <= PRESET_COUNT && PresetKey(r.id) == key
  {
    if StartsWith(key, "http") then Uri(key)
    else match PresetId(key)
      case Some(id) => Asset(id)
      case None => NoSource
  }

  /** Every preset key shows its own bundled image. */
  lemma PresetShowsItsAsset(id: nat)
    requires 1 <= id <= PRESET_COUNT
    ensures GetAvatarSource(PresetKey(id)) == Asset(id)
  {
    assert PresetKey(id)[..4] == "avat";
    PresetIdOfKey(id);
  }

  /** `initials`: both first letters when both names are set, else the first
      letter of the name, else "U". */
  function Initials(name: string, surname: string): (r: string)
    ensures 1 <= |r| <= 2
    ensures name != "" && surname != "" ==> r == [UpperChar(name[0]), UpperChar(surname[0])]
    ensures name != "" && surname == "" ==> r == [UpperChar(name[0])]
    ensures name == "" ==> r == "U"
  {
    if name != "" && surname != "" then ToUpper([name[0], surname[0]])
    else if name != "" then ToUpper([name[0]])
    else "U"
  }

  /** What the avatar preview renders. */
  datatype Preview = CustomImage(uri: string) | Image(source: AvatarSource) | InitialsText(text: string)

  function PreviewOf(customImage: Option<string>, selectedAvatar: string, name: string, surname: string): (p: Preview)
    ensures Truthy(customImage) ==> p == CustomImage(customImage.value)
    ensures !Truthy(customImage) && !GetAvatarSource(selectedAvatar).NoSource? ==> p == Image(GetAvatarSource(selectedAvatar))
    ensures !Truthy(customImage) && GetAvatarSource(selectedAvatar).NoSource? ==> p == InitialsText(Initials(name, surname))
  {
    if Truthy(customImage) then CustomImage(customImage.value)
    else match GetAvatarSource(selectedAvatar)
      case NoSource => InitialsText(Initials(name, surname))
      case s => Image(s)
  }

  /** The storage path `uploadImage` writes: `avatars/profile_{uid}_{now}.jpg`. */
  function UploadPath(uid: string, now: int): (p: string)
    ensures StartsWith(p, "avatars/profile_" + uid + "_") && EndsWith(p, ".jpg")
  {
    "avatars/profile_" + uid + "_" + IntToString(now) + ".jpg"
  }

  /** Two uploads by one user at different times never share a path. */
  lemma UploadPathsDistinct(uid: string, t1: int, t2: int)
    requires UploadPath(uid, t1) == UploadPath(uid, t2)
    ensures t1 == t2
  {
    var head := "avatars/profile_" + uid + "_";
    var p := UploadPath(uid, t1);
    assert IntToString(t1) == p[|head|..|p| - 4];
    assert IntToString(t2) == UploadPath(uid, t2)[|head|..|p| - 4];
    IntToStringInjective(t1, t2);
  }

  const UPLOAD_FAILED: SdkError := SdkError("", "Failed to upload image")

  /** The reassigned `avatarToSave`: the selected key, replaced by the upload's
      download URL when a custom picture was picked and the URL is non-empty.
      `upload` is the outcome of the upload and `getDownloadURL`. */
  function AvatarToSave(selectedAvatar: string, customImage: Option<string>, upload: Sdk<string>): (r: Sdk<string>)
    ensures r.Threw? <==> Truthy(customImage) && upload.Threw?
    ensures r.Threw? ==> r.error == UPLOAD_FAILED
    ensures Truthy(customImage) && upload.Done? && upload.value != "" ==> r == Done(upload.value)
    ensures !Truthy(customImage) || (upload.Done? && upload.value == "") ==> r == Done(selectedAvatar)
  {
    if !Truthy(customImage) then Done(selectedAvatar)
    else match upload
      case Threw(_) => Threw(UPLOAD_FAILED)
      case Done(url) => if url != "" then Done(url) else Done(selectedAvatar)
  }

  const NAME_REQUIRED: Toast := ErrorToast("Error", "Name is required")
  const PERMISSION_REQUIRED: Toast := ErrorToast("Permission Required", "Please allow access to your photos to change your avatar.")
  const PROFILE_UPDATED: Toast := SuccessToast("Success", "Profile updated successfully")

  /** The catch block's toast: the error's message, else a fixed text. */
  function SaveError(e: SdkError): (t: Toast)
    ensures t.kind == "error" && t.text1 == "Error"
    ensures e.message != "" ==> t.text2 == e.message
    ensures e.message == "" ==> t.text2 == "Failed to save profile"
  {
    ErrorToast("Error", if e.message != "" then e.message else "Failed to save profile")
  }

  /** What one `handleSave` does: the profile update it sends, the toast it
      shows and whether it leaves the screen. */
  datatype SaveOutcome = SaveOutcome(patch: Option<UserDoc>, toast: Option<Toast>, back: bool)

  /** `handleSave()`. `signedIn` says whether there is a user, `upload` is the
      outcome of uploading the custom picture and `update` that of the profile
      write raced against the 20-second timeout. */
  function Save(name: string, surname: string, selectedAvatar: string, customImage: Option<string>,
                signedIn: bool, upload: Sdk<string>, update: Sdk<()>): (o: SaveOutcome)
    ensures IsBlank(name) ==> o == SaveOutcome(None, Some(NAME_REQUIRED), false)
    ensures o.patch.Some? <==> !IsBlank(name) && signedIn && (Truthy(customImage) ==> upload.Done?)
    ensures o.patch.Some? ==> o.patch.value == NO_FIELDS.(name := Some(name), surname := Some(surname),
      avatar := Some(AvatarToSave(selectedAvatar, customImage, upload).value))
    ensures o.back <==> o.patch.Some? && update.Done?
    ensures o.back ==> o.toast == Some(PROFILE_UPDATED)
    ensures !IsBlank(name) && !signedIn ==> o == SaveOutcome(None, None, false)
    ensures !IsBlank(name) && signedIn && Truthy(customImage) && upload.Threw? ==>
      o == SaveOutcome(None, Some(SaveError(UPLOAD_FAILED)), false)
    ensures o.patch.Some? && update.Threw? ==> o.toast == Some(SaveError(update.error)) && !o.back
  {
    TrimEmptyIffBlank(name);
    if Trim(name) == "" then SaveOutcome(None, Some(NAME_REQUIRED), false)
    else if !signedIn then SaveOutcome(None, None, false)
    else match AvatarToSave(selectedAvatar, customImage, upload)
      case Threw(e) => SaveOutcome(None, Some(SaveError(e)), false)
      case Done(avatar) =>
        var patch := NO_FIELDS.(name := Some(name), surname := Some(surname), avatar := Some(avatar));
        match update
        case Threw(e) => SaveOutcome(Some(patch), Some(SaveError(e)), false)
        case Done(_) => SaveOutcome(Some(patch), Some(PROFILE_UPDATED), true)
  }

  /** The toast an outcome shows, as a list of at most one. */
  function Shown(o: SaveOutcome): seq<Toast> {
    if o.toast.Some? then [o.toast.value] else []
  }

  /** A preset picked after a custom picture does not win: the custom
      picture is still uploaded and saved, since selecting a preset leaves
      `customImage` set. */
  lemma CustomPictureOverridesLaterPreset(name: string, surname: string, preset: string, uri: string,
                                          url: string, update: Sdk<()>)
    requires !IsBlank(name) && uri != "" && url != ""
    ensures Save(name, surname, preset, Some(uri), true, Done(url), update).patch.value.avatar == Some(url)
  {
  }

  /** The editor's state. */
  class EditProfileForm {
    var name: string
    var surname: string
    var selectedAvatar: string
    var customImage: Option<string>
    var loading: bool
    /** Every toast shown, in order. */
    var toasts: seq<Toast>
    /** Whether `router.back()` was called. */
    var navigatedBack: bool

    /** The form starts from the live copy of the user's document. */
    constructor (userData: Option<UserDoc>)
      ensures name == (if userData.Some? then OrText(userData.value.name, "") else "")
      ensures surname == (if userData.Some? then OrText(userData.value.surname, "") else "")
      ensures selectedAvatar == (if userData.Some? then OrText(userData.value.avatar, "avatar_1") else "avatar_1")
      ensures customImage.None? && !loading && toasts == [] && !navigatedBack
    {
      name := if userData.Some? then OrText(userData.value.name, "") else "";
      surname := if userData.Some? then OrText(userData.value.surname, "") else "";
      selectedAvatar := if userData.Some? then OrText(userData.value.avatar, "avatar_1") else "avatar_1";
      customImage := None;
      loading := false;
      toasts := [];
      navigatedBack := false;
    }

    /** The picture the preview currently renders. */
    function CurrentPreview(): Preview
      reads this
    {
      PreviewOf(customImage, selectedAvatar, name, surname)
    }

    /** `pickImage()`: `granted` is the permission answer, `picked` the uri of
        the first asset unless the picker was cancelled. */
    method PickImage(granted: bool, picked: Option<string>)
      modifies this`customImage, this`selectedAvatar, this`toasts
      ensures !granted ==> (toasts == old(toasts) + [PERMISSION_REQUIRED] &&
        customImage == old(customImage) && selectedAvatar == old(selectedAvatar))
      ensures granted && picked.Some? ==> customImage == picked && selectedAvatar == "" && toasts == old(toasts)
      ensures granted && picked.None? ==>
        (customImage == old(customImage) && selectedAvatar == old(selectedAvatar) && toasts == old(toasts))
    {
      if !granted {
        toasts := toasts + [PERMISSION_REQUIRED];
        return;
      }
      if picked.Some? {
        customImage := picked;
        selectedAvatar := "";
      }
    }

    /** `handleAvatarSelect(key)`. */
    method HandleAvatarSelect(key: string)
      modifies this`selectedAvatar
      ensures selectedAvatar == key
    {
      selectedAvatar := key;
    }

    /** `handleSave()`; returns the update handed to `updateUserProfile`. */
    method HandleSave(signedIn: bool, upload: Sdk<string>, update: Sdk<()>) returns (patch: Option<UserDoc>)
      modifies this`loading, this`toasts, this`navigatedBack
      ensures patch == Save(old(name), old(surname), old(selectedAvatar), old(customImage), signedIn, upload, update).patch
      ensures toasts == old(toasts) + Shown(Save(old(name), old(surname), old(selectedAvatar), old(customImage), signedIn, upload, update))
      ensures navigatedBack == (old(navigatedBack) || Save(old(name), old(surname), old(selectedAvatar), old(customImage), signedIn, upload, update).back)
      ensures loading == (if IsBlank(old(name)) then old(loading) else false)
    {
      var n, sn, sa, ci := name, surname, selectedAvatar, customImage;
      var o := Save(n, sn, sa, ci, signedIn, upload, update);
      var blank := Trim(n) == "";
      assert blank <==> IsBlank(n) by {
        TrimEmptyIffBlank(n);
      }
      if blank {
        assert o == SaveOutcome(None, Some(NAME_REQUIRED), false);
        toasts := toasts + [NAME_REQUIRED];
        return None;
      }
      loading := true;
      patch := None;
      if !signedIn {
        assert o == SaveOutcome(None, None, false);
        loading := false;
        return;
      }
      var avatarToSave := sa;
      if Truthy(ci) {
        if upload.Threw? {
          assert o == SaveOutcome(None, Some(SaveError(UPLOAD_FAILED)), false);
          toasts := toasts + [SaveError(UPLOAD_FAILED)];
          loading := false;
          return;
        }
        if upload.value != "" {
          avatarToSave := upload.value;
        }
      }
      assert AvatarToSave(sa, ci, upload) == Done(avatarToSave);
      var p := NO_FIELDS.(name := Some(n), surname := Some(sn), avatar := Some(avatarToSave));
      patch := Some(p);
      if update.Threw? {
        assert o == SaveOutcome(Some(p), Some(SaveError(update.error)), false);
        toasts := toasts + [SaveError(update.error)];
      } else {
        assert o == SaveOutcome(Some(p), Some(PROFILE_UPDATED), true);
        toasts := toasts + [PROFILE_UPDATED];
        navigatedBack := true;
      }
      loading := false;
    }
  }
}
