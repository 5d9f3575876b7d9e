/** The first-run profile form: both names are required, the avatar is
    chosen by its position in the preset grid, and the app is entered only
    after the profile write succeeds. The write is an input. */
module ProfileSetup {
  import opened Common
  import opened Strings
  import opened Ui
  import opened AuthContext

  /** `` `avatar_${AVATAR_IMAGES[index].id}` ``: the ids run 1 .. 12 in grid
      order; an index outside the grid has no entry (reading its `id`
      throws). */
  function AvatarKeyForIndex(index: int): (r: Option<string>)
    ensures r.Some? <==> 0 <= index < PRESET_COUNT
    ensures r.Some? ==> r.value == PresetKey(index + 1)
  {
    if 0 <= index < PRESET_COUNT then Some(PresetKey(index + 1)) else None
  }

  /** Every grid position saves a preset key, and different positions
      save different keys. */
  lemma AvatarKeysDistinct(i: int, j: int)
    requires 0 <= i < PRESET_COUNT && 0 <= j < PRESET_COUNT && i != j
    ensures IsPresetAvatar(AvatarKeyForIndex(i).value)
    ensures AvatarKeyForIndex(i) != AvatarKeyForIndex(j)
  {
    assert AvatarKeyForIndex(i).value == PresetKey(i + 1);
    if AvatarKeyForIndex(i) == AvatarKeyForIndex(j) {
      PresetKeyInjective(i + 1, j + 1);
    }
  }

  /** The position selected when the form opens. */
  const DEFAULT_INDEX: int := 0

  /** An untouched form saves `avatar_1`. */
  lemma DefaultAvatarKey()
    ensures AvatarKeyForIndex(DEFAULT_INDEX) == Some("avatar_1")
  {
    assert NatToString(1) == "1";
    assert PresetKey(1) == "avatar_" + "1" == "avatar_1";
  }

  const NAMES_REQUIRED: Toast := ErrorToast("Error", "Please enter your name and surname")
  const UPDATE_FAILED: Toast := ErrorToast("Error", "Failed to update profile")

  /** What one `handleSave` does: the update it sends, the toast it shows and
      whether it enters the app. */
  datatype SetupOutcome = SetupOutcome(patch: Option<UserDoc>, toast: Option<Toast>, entered: bool)

  /** `handleSave()` for the typed names and grid position; `update` is the
      outcome of `updateUserProfile`. Names are saved as typed, untrimmed. */
  function Save(name: string, surname: string, index: int, update: Sdk<()>): (o: SetupOutcome)
    ensures IsBlank(name) || IsBlank(surname) ==> o == SetupOutcome(None, Some(NAMES_REQUIRED), false)
    ensures o.patch.Some? <==> !IsBlank(name) && !IsBlank(surname) && 0 <= index < PRESET_COUNT
    ensures o.patch.Some? ==> o.patch.value == NO_FIELDS.(name := Some(name), surname := Some(surname),
      avatar := Some(PresetKey(index + 1)))
    ensures o.entered <==> o.patch.Some? && update.Done?
    ensures o.entered <==> o.toast.None?
    ensures !IsBlank(name) && !IsBlank(surname) && !o.entered ==> o.toast == Some(UPDATE_FAILED)
  {
    TrimEmptyIffBlank(name);
    TrimEmptyIffBlank(surname);
    if Trim(name) == "" || Trim(surname) == "" then SetupOutcome(None, Some(NAMES_REQUIRED), false)
    else match AvatarKeyForIndex(index)
      case None => SetupOutcome(None, Some(UPDATE_FAILED), false)
      case Some(key) =>
        var patch := NO_FIELDS.(name := Some(name), surname := Some(surname), avatar := Some(key));
        if update.Done? then SetupOutcome(Some(patch), None, true)
        else SetupOutcome(Some(patch), Some(UPDATE_FAILED), false)
  }

  /** The toast an outcome shows, as a list of at most one. */
  function Toasts(o: SetupOutcome): seq<Toast> {
    if o.toast.Some? then [o.toast.value] else []
  }

  /** The form's state. */
  class ProfileSetupForm {
    var name: string
    var surname: string
    var selectedAvatar: int
    var loading: bool
    /** Every toast shown, in order. */
    var toasts: seq<Toast>
    /** Whether `router.replace("/")` entered the app. */
    var enteredApp: bool

    constructor ()
      ensures name == "" && surname == "" && selectedAvatar == DEFAULT_INDEX
      ensures !loading && toasts == [] && !enteredApp
    {
      name, surname := "", "";
      selectedAvatar := DEFAULT_INDEX;
      loading := false;
      toasts := [];
      enteredApp := false;
    }

    /** Tapping a grid cell. */
    method SelectAvatar(index: int)
      modifies this`selectedAvatar
      ensures selectedAvatar == index
    {
      selectedAvatar := index;
    }

    /** `handleSave()`; returns the update handed to `updateUserProfile`. */
    method HandleSave(update: Sdk<()>) returns (patch: Option<UserDoc>)
      modifies this`loading, this`toasts, this`enteredApp
      ensures patch == Save(old(name), old(surname), old(selectedAvatar), update).patch
      ensures toasts == old(toasts) + Toasts(Save(old(name), old(surname), old(selectedAvatar), update))
      ensures enteredApp == (old(enteredApp) || Save(old(name), old(surname), old(selectedAvatar), update).entered)
      ensures loading == (if IsBlank(old(name)) || IsBlank(old(surname)) then old(loading) else false)
    {
      var n, sn, index := name, surname, selectedAvatar;
      var o := Save(n, sn, index, update);
      var blank := Trim(n) == "" || Trim(sn) == "";
      assert blank <==> IsBlank(n) || IsBlank(sn) by {
        TrimEmptyIffBlank(n);
        TrimEmptyIffBlank(sn);
      }
      if blank {
        assert o == SetupOutcome(None, Some(NAMES_REQUIRED), false);
        toasts := toasts + [NAMES_REQUIRED];
        return None;
      }
      loading := true;
      var key := AvatarKeyForIndex(index);
      if key.None? {
        assert o == SetupOutcome(None, Some(UPDATE_FAILED), false);
        patch := None;
        toasts := toasts + [UPDATE_FAILED];
      } else {
        var p := NO_FIELDS.(name := Some(n), surname := Some(sn), avatar := key);
        patch := Some(p);
        if update.Done? {
          assert o == SetupOutcome(Some(p), None, true);
          enteredApp := true;
        } else {
          assert o == SetupOutcome(Some(p), Some(UPDATE_FAILED), false);
          toasts := toasts + [UPDATE_FAILED];
        }
      }
      loading := false;
    }
  }
}
