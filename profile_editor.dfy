/** The profile section of the settings page: a working copy of the saved
    profile, per-field errors, avatar checks and cropping, the skill list
    (at most ten, case-insensitively distinct), validation, the confirmed
    save and the "has changes" test. */
module ProfileEditor {
  import opened Text

  const MaxSkills: int := 10
  /** 5 MB */
  const MaxFileSize: int := 5 * 1024 * 1024

  const NameRequired: string := "Name is required"
  const HeadlineRequired: string := "Headline is required"
  const BioRequired: string := "Bio is required"
  const SkillRequired: string := "Add at least one skill"
  const TooManySkills: string := "Maximum 10 skills allowed"
  const DuplicateSkill: string := "This skill already exists"
  const FileTooLarge: string := "File size must be less than 5MB"
  const NotAnImage: string := "Please select an image file"

  datatype ProfileData = ProfileData(name: string, avatar: string, headline: string, bio: string, skills: seq<string>)

  /** One optional message per field. */
  datatype FormErrors = FormErrors(
    name: Option<string>, avatar: Option<string>, headline: Option<string>,
    bio: Option<string>, skills: Option<string>)

  const NoErrors: FormErrors := FormErrors(None, None, None, None, None)

  /** The fields typed into text inputs. */
  datatype TextField = NameField | HeadlineField | BioField

  /** The signed-in user as the app shell holds it; missing columns are None. */
  datatype SignedInUser = SignedInUser(
    fullName: Option<string>, avatarUrl: Option<string>,
    headline: Option<string>, bio: Option<string>, skills: Option<seq<string>>)

  /** A file from the avatar input: its size in bytes and its MIME type. */
  datatype FileInfo = FileInfo(size: int, mimeType: string)

  function OrEmpty(s: Option<string>): string {
    if s.Some? then s.value else ""
  }

  /** The profile the section starts from: every missing value is empty. */
  function InitialProfile(user: Option<SignedInUser>): (r: ProfileData)
    ensures user.None? ==> r == ProfileData("", "", "", "", [])
    ensures user.Some? ==>
      && r.name == OrEmpty(user.value.fullName) && r.avatar == OrEmpty(user.value.avatarUrl)
      && r.headline == OrEmpty(user.value.headline) && r.bio == OrEmpty(user.value.bio)
    ensures user.Some? ==> r.skills == (if user.value.skills.Some? then user.value.skills.value else [])
  {
    if user.None? then ProfileData("", "", "", "", [])
    else
      var u := user.value;
      ProfileData(OrEmpty(u.fullName), OrEmpty(u.avatarUrl), OrEmpty(u.headline), OrEmpty(u.bio),
        if u.skills.Some? then u.skills.value else [])
  }

  /** `validateForm`'s new error object. A field fails when it is blank,
      which is when its `trim()` is empty (the contract of `Trim`). */
  function Validate(d: ProfileData): FormErrors {
    FormErrors(
      if IsBlank(d.name) then Some(NameRequired) else None,
      None,
      if IsBlank(d.headline) then Some(HeadlineRequired) else None,
      if IsBlank(d.bio) then Some(BioRequired) else None,
      if |d.skills| == 0 then Some(SkillRequired) else None)
  }

  /** A profile that may be saved. */
  predicate Complete(d: ProfileData) {
    !IsBlank(d.name) && !IsBlank(d.headline) && !IsBlank(d.bio) && d.skills != []
  }

  /** The form validates exactly when it is complete. */
  lemma ValidateExact(d: ProfileData)
    ensures Validate(d) == NoErrors <==> Complete(d)
  {
  }

  /** The avatar input's checks: a message for a rejected file, None for one
      that goes to the cropper. */
  function AvatarCheck(file: FileInfo): (r: Option<string>)
    ensures r.None? <==> file.size <= MaxFileSize && StartsWith(file.mimeType, "image/")
    ensures file.size > MaxFileSize ==> r == Some(FileTooLarge)
    ensures file.size <= MaxFileSize && !StartsWith(file.mimeType, "image/") ==> r == Some(NotAnImage)
  {
    if file.size > MaxFileSize then Some(FileTooLarge)
    else if !StartsWith(file.mimeType, "image/") then Some(NotAnImage)
    else None
  }

  /** `hasChanges`: name, headline, bio and skills are compared (the skill
      arrays through their JSON text, which is equality of the lists), and a
      pending avatar preview counts as a change. */
  function Differs(form: ProfileData, profile: ProfileData, avatarPreview: Option<string>): bool {
    form.name != profile.name || form.headline != profile.headline || form.bio != profile.bio
    || form.skills != profile.skills || avatarPreview.Some?
  }

  /** Without a preview, the form has changes exactly when it differs from
      the saved profile in something other than the avatar URL. */
  lemma DiffersExact(form: ProfileData, profile: ProfileData)
    ensures Differs(form, profile, None) <==> form.(avatar := profile.avatar) != profile
    ensures !Differs(profile, profile, None)
  {
    if form.(avatar := profile.avatar) != profile {
      var f := form.(avatar := profile.avatar);
      assert f.name != profile.name || f.headline != profile.headline || f.bio != profile.bio
        || f.skills != profile.skills;
    }
  }

  class ProfileSection {
    var profile: ProfileData
    var formData: ProfileData
    var newSkill: string
    /** The cropped file waiting to be uploaded (its name stands for it). */
    var avatarFile: Option<string>
    var avatarPreview: Option<string>
    var cropSrc: Option<string>
    var errors: FormErrors
    var showConfirmModal: bool
    var isSaving: bool

    /** The skill list is within the limit and free of case-insensitive
        duplicates. A loaded profile need not satisfy this; adding and
        removing skills keep it once it holds. */
    ghost predicate Valid()
      reads this
    {
      |formData.skills| <= MaxSkills && DistinctIgnoringCase(formData.skills)
    }

    /** `hasChanges`: a pending avatar always counts; without one, the form
        has changes exactly when it differs from the saved profile outside
        the avatar URL. */
    function HasChanges(): (r: bool)
      reads this
      ensures avatarPreview.Some? ==> r
      ensures avatarPreview.None? ==> (r <==> formData.(avatar := profile.avatar) != profile)
    {
      DiffersExact(formData, profile);
      Differs(formData, profile, avatarPreview)
    }

    constructor (user: Option<SignedInUser>)
      ensures profile == InitialProfile(user) && formData == profile
      ensures newSkill == "" && avatarFile.None? && avatarPreview.None? && cropSrc.None?
      ensures errors == NoErrors && !showConfirmModal && !isSaving
      ensures !HasChanges()
    {
      profile := InitialProfile(user);
      formData := InitialProfile(user);
      newSkill, avatarFile, avatarPreview, cropSrc := "", None, None, None;
      errors, showConfirmModal, isSaving := NoErrors, false, false;
    }

    /** `handleInputChange`: the field takes the value and loses its error. */
    method InputChange(field: TextField, value: string)
      modifies this`formData, this`errors
      ensures formData == match field
        case NameField => old(formData).(name := value)
        case HeadlineField => old(formData).(headline := value)
        case BioField => old(formData).(bio := value)
      ensures errors == match field
        case NameField => old(errors).(name := None)
        case HeadlineField => old(errors).(headline := None)
        case BioField => old(errors).(bio := None)
      ensures formData.skills == old(formData.skills)
    {
      match field
      case NameField =>
        formData := formData.(name := value);
        if errors.name.Some? { errors := errors.(name := None); }
      case HeadlineField =>
        formData := formData.(headline := value);
        if errors.headline.Some? { errors := errors.(headline := None); }
      case BioField =>
        formData := formData.(bio := value);
        if errors.bio.Some? { errors := errors.(bio := None); }
    }

    /** `handleAvatarChange` followed by the reader's completion: a rejected
        file sets the avatar error; an accepted one opens the cropper on its
        data URL and clears the avatar error. No file changes nothing. */
    method AvatarChosen(file: Option<FileInfo>, dataUrl: string)
      modifies this`errors, this`cropSrc
      ensures file.None? ==> errors == old(errors) && cropSrc == old(cropSrc)
      ensures file.Some? && AvatarCheck(file.value).Some? ==>
        errors == old(errors).(avatar := AvatarCheck(file.value)) && cropSrc == old(cropSrc)
      ensures file.Some? && AvatarCheck(file.value).None? ==>
        errors == old(errors).(avatar := None) && cropSrc == Some(dataUrl)
    {
      if file.None? {
        return;
      }
      var f := file.value;
      if f.size > MaxFileSize {
        errors := errors.(avatar := Some(FileTooLarge));
        return;
      }
      if !StartsWith(f.mimeType, "image/") {
        errors := errors.(avatar := Some(NotAnImage));
        return;
      }
      cropSrc := Some(dataUrl);
      errors := errors.(avatar := None);
    }

    /** `handleCropComplete`: the cropped file becomes pending and the cropper closes. */
    method CropComplete(fileName: string, previewUrl: string)
      modifies this`avatarFile, this`avatarPreview, this`cropSrc
      ensures avatarFile == Some(fileName) && avatarPreview == Some(previewUrl) && cropSrc.None?
      ensures HasChanges()
    {
      avatarFile := Some(fileName);
      avatarPreview := Some(previewUrl);
      cropSrc := None;
    }

    /** The cropper closed without a crop. */
    method CropDismissed()
      modifies this`cropSrc
      ensures cropSrc.None?
    {
      cropSrc := None;
    }

    method SetNewSkill(value: string)
      modifies this`newSkill
      ensures newSkill == value
    {
      newSkill := value;
    }

    /** `handleAddSkill`: on Enter with a non-blank input, a full list or a
        case-insensitive duplicate sets the skills error; otherwise the
        trimmed skill is appended and the input and the error are cleared. */
    method AddSkill(key: string)
      modifies this`formData, this`newSkill, this`errors
      ensures old(Valid()) ==> Valid()
      ensures key != "Enter" || IsBlank(old(newSkill)) ==>
        formData == old(formData) && newSkill == old(newSkill) && errors == old(errors)
      ensures key == "Enter" && !IsBlank(old(newSkill)) && |old(formData.skills)| >= MaxSkills ==>
        formData == old(formData) && newSkill == old(newSkill) && errors == old(errors).(skills := Some(TooManySkills))
      ensures (key == "Enter" && !IsBlank(old(newSkill)) && |old(formData.skills)| < MaxSkills &&
        ContainsIgnoringCase(old(formData.skills), Trim(old(newSkill)))) ==>
        formData == old(formData) && newSkill == old(newSkill) && errors == old(errors).(skills := Some(DuplicateSkill))
      ensures (key == "Enter" && !IsBlank(old(newSkill)) && |old(formData.skills)| < MaxSkills &&
        !ContainsIgnoringCase(old(formData.skills), Trim(old(newSkill)))) ==>
        && formData == old(formData).(skills := old(formData.skills) + [Trim(old(newSkill))])
        && newSkill == "" && errors == old(errors).(skills := None)
    {
      if key == "Enter" && Trim(newSkill) != "" {
        if |formData.skills| >= MaxSkills {
          errors := errors.(skills := Some(TooManySkills));
          return;
        }
        var candidate := Trim(newSkill);
        if exists i :: 0 <= i < |formData.skills| && EqualIgnoringCase(formData.skills[i], candidate) {
          errors := errors.(skills := Some(DuplicateSkill));
          return;
        }
        if DistinctIgnoringCase(formData.skills) {
          AppendKeepsDistinct(formData.skills, candidate);
        }
        formData := formData.(skills := formData.skills + [candidate]);
        newSkill := "";
        errors := errors.(skills := None);
      }
    }

    /** `handleRemoveSkill`: every entry equal to the skill goes. */
    method RemoveSkill(skill: string)
      modifies this`formData
      ensures old(Valid()) ==> Valid()
      ensures formData == old(formData).(skills := RemoveAll(old(formData.skills), skill))
    {
      if DistinctIgnoringCase(formData.skills) {
        RemoveAllKeepsDistinct(formData.skills, skill);
      }
      formData := formData.(skills := RemoveAll(formData.skills, skill));
    }

    /** `validateForm`: the errors are replaced by the validation result. */
    method ValidateForm() returns (ok: bool)
      modifies this`errors
      ensures errors == Validate(formData)
      ensures ok <==> Complete(formData)
    {
      var d := formData;
      var e := NoErrors;
      if Trim(d.name) == "" { e := e.(name := Some(NameRequired)); }
      if Trim(d.headline) == "" { e := e.(headline := Some(HeadlineRequired)); }
      if Trim(d.bio) == "" { e := e.(bio := Some(BioRequired)); }
      if |d.skills| == 0 { e := e.(skills := Some(SkillRequired)); }
      assert e == Validate(d);
      errors := e;
      ValidateExact(d);
      ok := e == NoErrors;
    }

    /** `handleSaveClick`: the confirmation opens only for a complete form. */
    method SaveClick()
      modifies this`errors, this`showConfirmModal
      ensures errors == Validate(formData)
      ensures showConfirmModal == (Complete(formData) || old(showConfirmModal))
    {
      var ok := ValidateForm();
      if ok {
        showConfirmModal := true;
      }
    }

    /** The confirmation's cancel button. */
    method DismissConfirm()
      modifies this`showConfirmModal
      ensures !showConfirmModal
    {
      showConfirmModal := false;
    }

    /** `handleConfirmSave` as one event. `signedIn` says whether a user is
        present, `uploadedUrl` is the public URL of the uploaded avatar
        (None when the upload failed) and `writesOk` whether the profile,
        about and auth updates all succeeded. On success the saved profile
        and the form both become the form with the new avatar URL and the
        pending avatar is dropped; on failure only the flags change. */
    method ConfirmSave(signedIn: bool, uploadedUrl: Option<string>, writesOk: bool) returns (saved: bool)
      modifies this`isSaving, this`showConfirmModal, this`profile, this`formData, this`avatarFile, this`avatarPreview
      ensures !isSaving && !showConfirmModal
      ensures saved <==> signedIn && (old(avatarFile).Some? ==> uploadedUrl.Some?) && writesOk
      ensures saved ==>
        && var url := if old(avatarFile).Some? then uploadedUrl.value else old(formData.avatar);
        && profile == old(formData).(avatar := url) && formData == profile
        && avatarFile.None? && avatarPreview.None? && !HasChanges()
      ensures !saved ==>
        profile == old(profile) && formData == old(formData)
        && avatarFile == old(avatarFile) && avatarPreview == old(avatarPreview)
    {
      isSaving := true;
      showConfirmModal := false;
      saved := false;
      if signedIn {
        var avatarUrl := formData.avatar;
        var uploadFailed := false;
        if avatarFile.Some? {
          if uploadedUrl.Some? {
            avatarUrl := uploadedUrl.value;
          } else {
            uploadFailed := true;
          }
        }
        if !uploadFailed && writesOk {
          var updated := formData.(avatar := avatarUrl);
          profile := updated;
          formData := updated;
          avatarFile := None;
          avatarPreview := None;
          saved := true;
          DiffersExact(updated, updated);
        }
      }
      isSaving := false;
    }

    /** `handleCancel`: the form returns to the saved profile with nothing pending. */
    method Cancel()
      modifies this`formData, this`avatarFile, this`avatarPreview, this`newSkill, this`errors
      ensures formData == profile && avatarFile.None? && avatarPreview.None?
      ensures newSkill == "" && errors == NoErrors
      ensures !HasChanges()
    {
      formData := profile;
      avatarFile := None;
      avatarPreview := None;
      newSkill := "";
      errors := NoErrors;
      DiffersExact(profile, profile);
    }
  }
}
