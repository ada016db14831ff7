/** The profile page of the plain-JavaScript client (public/js/profile.js):
    the password-requirement checklist, the password-change checks and
    their order, the avatar file checks, the edit-mode toggle and the fields
    loaded from the signed-in user.

    Firebase Auth calls are replaced by the outcome they settle with
    (`Outcome`), and the methods that make them return the calls made. */
module ProfilePage {
  import opened Wrappers
  import opened JsValues

  /** A toast from `showNotification` or the inline `showProfileStatus`. */
  datatype Notice = Notice(message: string, isError: bool)

  /** The settled outcome of an awaited Firebase Auth call; an error carries
      the Firebase error code and message. */
  datatype Outcome = Ok | Err(code: string, message: string)

  /** Calls made on the signed-in user. */
  datatype AccountCall =
    | Reauthenticate(email: Option<string>, password: string)
    | SetPassword(password: string)
    | SetDisplayName(displayName: string)

  /** `auth.currentUser`, with the fields the page reads. */
  datatype CurrentUser = CurrentUser(
    displayName: Option<string>, email: Option<string>, phoneNumber: Option<string>,
    photoURL: Option<string>, emailVerified: bool, providerIds: seq<string>)

  /** The selected avatar file. */
  datatype FileInfo = FileInfo(size: nat, mime: string)

  /** The four entries of the password checklist, in document order. */
  const LengthReq := 0
  const UpperReq := 1
  const LowerReq := 2
  const DigitReq := 3
  const RequirementCount := 4

  const MinPasswordLength := 8
  const MaxAvatarBytes := 2 * 1024 * 1024

  /** Whether some character of `s` lies between `lo` and `hi` (a regular
      expression character class such as `[A-Z]` tested against `s`). */
  function ContainsInRange(s: string, lo: char, hi: char): (r: bool)
    ensures r <==> exists k :: 0 <= k < |s| && lo <= s[k] <= hi
  {
    if s == [] then false
    else if lo <= s[0] <= hi then true
    else
      var r := ContainsInRange(s[1..], lo, hi);
      assert forall k :: 1 <= k < |s| ==> s[k] == s[1..][k - 1];
      r
  }

  /** The state of the checklist for a given new password: at least eight
      characters, an upper-case letter, a lower-case letter and a digit, each
      judged on its own. */
  function RequirementFlags(p: string): (flags: seq<bool>)
    ensures |flags| == RequirementCount
    ensures flags[LengthReq] <==> |p| >= MinPasswordLength
    ensures flags[UpperReq] <==> exists k :: 0 <= k < |p| && 'A' <= p[k] <= 'Z'
    ensures flags[LowerReq] <==> exists k :: 0 <= k < |p| && 'a' <= p[k] <= 'z'
    ensures flags[DigitReq] <==> exists k :: 0 <= k < |p| && '0' <= p[k] <= '9'
  {
    [|p| >= MinPasswordLength, ContainsInRange(p, 'A', 'Z'), ContainsInRange(p, 'a', 'z'), ContainsInRange(p, '0', '9')]
  }

  /** A password every requirement accepts. */
  predicate Strong(p: string) {
    && |p| >= MinPasswordLength
    && (exists k :: 0 <= k < |p| && 'A' <= p[k] <= 'Z')
    && (exists k :: 0 <= k < |p| && 'a' <= p[k] <= 'z')
    && (exists k :: 0 <= k < |p| && '0' <= p[k] <= '9')
  }

  /** The checklist is all ticked exactly for a strong password. */
  lemma AllRequirementsIffStrong(p: string)
    ensures (forall i :: 0 <= i < RequirementCount ==> RequirementFlags(p)[i]) <==> Strong(p)
  {
    var flags := RequirementFlags(p);
    if Strong(p) {
      forall i | 0 <= i < RequirementCount
        ensures flags[i]
      {
        assert i == LengthReq || i == UpperReq || i == LowerReq || i == DigitReq;
      }
    }
  }

  /** The toast shown when a password-change call fails: the dedicated
      text for a wrong current password, which no other error can produce,
      and otherwise the generic prefix followed by the error's message. */
  function PasswordError(e: Outcome): (shown: string)
    requires e.Err?
    ensures shown == "Current password is incorrect" <==> e.code == "auth/wrong-password"
    ensures e.code != "auth/wrong-password" ==> shown == "Failed to update password: " + e.message
  {
    assert ("Failed to update password: " + e.message)[0] == 'F';
    if e.code == "auth/wrong-password" then "Current password is incorrect"
    else "Failed to update password: " + e.message
  }

  /** The provider line of the profile: nothing when the user has no
      provider entries, otherwise a label naming the first one. */
  function ProviderLabel(providerIds: seq<string>): (shown: Option<string>)
    ensures shown.Some? <==> |providerIds| > 0
    ensures shown.Some? ==> (shown.value == "Google" <==> providerIds[0] == "google.com")
    ensures shown.Some? ==> shown.value in {"Google", "Email/Password"}
  {
    if |providerIds| == 0 then None
    else if providerIds[0] == "google.com" then Some("Google")
    else Some("Email/Password")
  }

  /** The visible part of the edit controls: whether the edit, save and
      cancel buttons are displayed and which inputs are disabled. */
  datatype EditView = EditView(editShown: bool, saveShown: bool, cancelShown: bool, disabled: seq<bool>)

  /** Outside edit mode only the edit button shows and every input is
      disabled; in edit mode the reverse. */
  predicate Consistent(v: EditView) {
    && v.saveShown == !v.editShown
    && v.cancelShown == !v.editShown
    && forall i :: 0 <= i < |v.disabled| ==> v.disabled[i] == v.editShown
  }

  /** What `toggleEditMode` makes of the edit controls: a hidden edit button
      means edit mode, which is left; otherwise edit mode is entered. */
  function Toggled(v: EditView): (w: EditView)
    ensures Consistent(w)
    ensures w.editShown == !v.editShown && |w.disabled| == |v.disabled|
  {
    var leaving := !v.editShown;
    EditView(leaving, !leaving, !leaving, seq(|v.disabled|, _ => leaving))
  }

  /** Toggling twice from a consistent view gives that view back. */
  lemma ToggledTwice(v: EditView)
    requires Consistent(v)
    ensures Toggled(Toggled(v)) == v
  {
    var w := Toggled(Toggled(v));
    assert w.disabled == v.disabled by {
      assert forall i :: 0 <= i < |v.disabled| ==> w.disabled[i] == v.disabled[i];
    }
  }

  /** The profile fields `loadProfileData` writes: the name, email and
      phone inputs, the avatar source, and the verification and provider
      lines. */
  datatype ProfileFields = ProfileFields(
    name: string, email: string, phone: string, avatar: string, verified: string, provider: string)

  /** What `loadProfileData` leaves in the profile fields, given what they
      held before: without a user nothing changes; with one, the inputs take
      the user's values (empty when absent), the verification line its text,
      while the avatar and the provider line change only when the user has a
      photo URL or a provider entry. */
  function LoadedFields(user: Option<CurrentUser>, before: ProfileFields): (after: ProfileFields)
    ensures user.None? ==> after == before
    ensures user.Some? ==>
      var u := user.value;
      && after.name == u.displayName.GetOr("")
      && after.email == u.email.GetOr("")
      && after.phone == u.phoneNumber.GetOr("")
      && after.avatar == (if u.photoURL.Some? && u.photoURL.value != "" then u.photoURL.value else before.avatar)
      && after.verified == (if u.emailVerified then "Verified" else "Not Verified")
      && after.provider == ProviderLabel(u.providerIds).GetOr(before.provider)
  {
    match user
    case None => before
    case Some(u) =>
      ProfileFields(
        u.displayName.GetOr(""), u.email.GetOr(""), u.phoneNumber.GetOr(""),
        if u.photoURL.Some? && u.photoURL.value != "" then u.photoURL.value else before.avatar,
        if u.emailVerified then "Verified" else "Not Verified",
        match ProviderLabel(u.providerIds) case Some(t) => t case None => before.provider)
  }

  /** Reloading right after a load changes nothing, and with a user that has
      a photo and a provider entry the result does not depend on what the
      fields held before. */
  lemma LoadedFieldsStable(user: Option<CurrentUser>, before: ProfileFields, other: ProfileFields)
    ensures LoadedFields(user, LoadedFields(user, before)) == LoadedFields(user, before)
    ensures user.Some? && user.value.photoURL.Some? && user.value.photoURL.value != "" && |user.value.providerIds| > 0 ==>
      LoadedFields(user, before) == LoadedFields(user, other)
  {
  }

  class ProfilePage {
    /** `disabled` of each text, email and tel input of the profile section. */
    const inputs: array<bool>
    /** `valid` class of each checklist entry, in `LengthReq` … `DigitReq` order. */
    const requirements: array<bool>

    var currentUser: Option<CurrentUser>

    var editShown: bool
    var saveShown: bool
    var cancelShown: bool

    var nameValue: string
    var emailValue: string
    var phoneValue: string
    var avatarSrc: string
    var verifiedText: string
    var providerText: string

    var passwordFormShown: bool
    var changePasswordShown: bool
    /** `validatePassword` is attached to the new-password input. */
    var listening: bool
    var currentPassword: string
    var newPassword: string
    var confirmPassword: string

    var notice: Option<Notice>
    var profileStatus: Option<Notice>

    predicate Valid()
      reads this
    {
      requirements.Length == RequirementCount && inputs != requirements
    }

    function View(): EditView
      reads this, inputs
    {
      EditView(editShown, saveShown, cancelShown, inputs[..])
    }

    function Fields(): ProfileFields
      reads this
    {
      ProfileFields(nameValue, emailValue, phoneValue, avatarSrc, verifiedText, providerText)
    }

    constructor (inputCount: nat, user: Option<CurrentUser>)
      ensures Valid() && fresh(inputs) && fresh(requirements) && inputs.Length == inputCount
      ensures currentUser == user && notice == None && profileStatus == None
      ensures View() == EditView(true, false, false, seq(inputCount, _ => true)) && Consistent(View())
      ensures !passwordFormShown && changePasswordShown && !listening
      ensures forall i :: 0 <= i < RequirementCount ==> !requirements[i]
    {
      inputs := new bool[inputCount](_ => true);
      requirements := new bool[RequirementCount](_ => false);
      currentUser := user;
      editShown, saveShown, cancelShown := true, false, false;
      nameValue, emailValue, phoneValue, avatarSrc, verifiedText, providerText := "", "", "", "", "", "";
      passwordFormShown, changePasswordShown, listening := false, true, false;
      currentPassword, newPassword, confirmPassword := "", "", "";
      notice, profileStatus := None, None;
    }

    /** loadProfileData: the profile fields become `LoadedFields` of the
        signed-in user and of what they held before. */
    method LoadProfileData()
      modifies this`nameValue, this`emailValue, this`phoneValue, this`avatarSrc,
        this`verifiedText, this`providerText
      ensures Fields() == LoadedFields(currentUser, old(Fields()))
    {
      if currentUser.None? {
        return;
      }
      var u := currentUser.value;
      nameValue := u.displayName.GetOr("");
      emailValue := u.email.GetOr("");
      phoneValue := u.phoneNumber.GetOr("");
      if u.photoURL.Some? && u.photoURL.value != "" {
        avatarSrc := u.photoURL.value;
      }
      verifiedText := if u.emailVerified then "Verified" else "Not Verified";
      var tag := ProviderLabel(u.providerIds);
      if tag.Some? {
        providerText := tag.value;
      }
    }

    /** toggleEditMode: flips between edit mode and view mode, setting every
        input's `disabled` flag in one pass; leaving edit mode reloads the
        profile fields from the user. */
    method ToggleEditMode()
      requires Valid()
      modifies this`editShown, this`saveShown, this`cancelShown, inputs,
        this`nameValue, this`emailValue, this`phoneValue, this`avatarSrc, this`verifiedText, this`providerText
      ensures View() == Toggled(old(View()))
      ensures Fields() == if editShown then LoadedFields(currentUser, old(Fields())) else old(Fields())
    {
      var leaving := !editShown;
      editShown, saveShown, cancelShown := leaving, !leaving, !leaving;
      for i := 0 to inputs.Length
        modifies inputs
        invariant forall k :: 0 <= k < i ==> inputs[k] == leaving
      {
        inputs[i] := leaving;
      }
      assert inputs[..] == seq(inputs.Length, _ => leaving);
      if leaving {
        LoadProfileData();
      }
    }

    /** saveProfile: with a signed-in user, the name input is sent as the new
        display name; on success the account carries that name, a toast
        confirms and edit mode is toggled, on failure the error is shown.
        Returns the calls made. */
    method SaveProfile(update: Outcome) returns (calls: seq<AccountCall>)
      requires Valid()
      modifies this`currentUser, this`notice, this`editShown, this`saveShown, this`cancelShown, inputs,
        this`nameValue, this`emailValue, this`phoneValue, this`avatarSrc, this`verifiedText, this`providerText
      ensures old(currentUser).None? ==> calls == [] && unchanged(this) && unchanged(inputs)
      ensures old(currentUser).Some? ==> calls == [SetDisplayName(old(nameValue))]
      ensures old(currentUser).Some? && update == Ok ==>
        && currentUser == Some(old(currentUser).value.(displayName := Some(old(nameValue))))
        && notice == Some(Notice("Profile updated successfully!", false)) && View() == Toggled(old(View()))
        && Fields() == (if editShown then LoadedFields(currentUser, old(Fields())) else old(Fields()))
        && nameValue == old(nameValue)
      ensures old(currentUser).Some? && update.Err? ==>
        && currentUser == old(currentUser)
        && notice == Some(Notice("Failed to update profile: " + update.message, true))
        && View() == old(View()) && Fields() == old(Fields())
    {
      if currentUser.None? {
        return [];
      }
      calls := [SetDisplayName(nameValue)];
      if update.Err? {
        notice := Some(Notice("Failed to update profile: " + update.message, true));
        return;
      }
      // the account now carries the saved name, so reloading shows it
      currentUser := Some(currentUser.value.(displayName := Some(nameValue)));
      notice := Some(Notice("Profile updated successfully!", false));
      ToggleEditMode();
    }

    /** validatePassword: each checklist entry is ticked exactly when the new
        password meets it. */
    method ValidatePassword()
      requires Valid()
      modifies requirements
      ensures requirements[..] == RequirementFlags(newPassword)
    {
      var flags := RequirementFlags(newPassword);
      requirements[LengthReq] := flags[LengthReq];
      requirements[UpperReq] := flags[UpperReq];
      requirements[LowerReq] := flags[LowerReq];
      requirements[DigitReq] := flags[DigitReq];
    }

    /** Typing into the new-password input: the value changes and, while the
        listener is attached, the checklist is re-evaluated. */
    method InputNewPassword(p: string)
      requires Valid()
      modifies this`newPassword, requirements
      ensures newPassword == p
      ensures listening ==> requirements[..] == RequirementFlags(p)
      ensures !listening ==> unchanged(requirements)
    {
      newPassword := p;
      if listening {
        ValidatePassword();
      }
    }

    /** resetPasswordRequirements: no checklist entry stays ticked. */
    method ResetPasswordRequirements()
      modifies requirements
      ensures forall i :: 0 <= i < requirements.Length ==> !requirements[i]
    {
      for i := 0 to requirements.Length
        invariant forall k :: 0 <= k < i ==> !requirements[k]
      {
        requirements[i] := false;
      }
    }

    /** Whether every checklist entry is ticked. */
    /** Every checklist entry is ticked. */
    predicate Ticked()
      reads requirements
    {
      forall i :: 0 <= i < requirements.Length ==> requirements[i]
    }

    /** While the checklist follows the new password, it is all ticked exactly
        when that password is strong. */
    lemma TickedIffStrong()
      requires requirements[..] == RequirementFlags(newPassword)
      ensures Ticked() <==> Strong(newPassword)
    {
      AllRequirementsIffStrong(newPassword);
      forall i | 0 <= i < requirements.Length
        ensures requirements[i] == RequirementFlags(newPassword)[i]
      {
        assert requirements[..][i] == requirements[i];
      }
    }

    method AllRequirementsValid() returns (all: bool)
      ensures all <==> Ticked()
    {
      all := true;
      var i := 0;
      while i < requirements.Length
        invariant 0 <= i <= requirements.Length
        invariant all <==> forall k :: 0 <= k < i ==> requirements[k]
      {
        all := all && requirements[i];
        i := i + 1;
      }
    }

    /** showPasswordForm: the form opens with empty fields and an unticked
        checklist, and the checklist starts following the new password. */
    method ShowPasswordForm()
      requires Valid()
      modifies this`passwordFormShown, this`changePasswordShown, this`listening,
        this`currentPassword, this`newPassword, this`confirmPassword, requirements
      ensures passwordFormShown && !changePasswordShown && listening
      ensures currentPassword == "" && newPassword == "" && confirmPassword == ""
      ensures forall i :: 0 <= i < RequirementCount ==> !requirements[i]
      ensures requirements[..] == RequirementFlags(newPassword)
    {
      passwordFormShown, changePasswordShown := true, false;
      currentPassword, newPassword, confirmPassword := "", "", "";
      ResetPasswordRequirements();
      listening := true;
    }

    /** cancelPasswordChange: the form closes and the checklist stops
        following the new password; the fields keep their values. */
    method CancelPasswordChange()
      modifies this`passwordFormShown, this`changePasswordShown, this`listening
      ensures !passwordFormShown && changePasswordShown && !listening
    {
      passwordFormShown, changePasswordShown := false, true;
      listening := false;
    }

    /** updatePassword: first all three fields must be filled, then the new
        password and its confirmation must agree, then the checklist must be
        all ticked; each failure has its own message and nothing is called.
        Then the user re-authenticates with the current password and only
        after that is the password changed; on success the form closes. */
    method UpdatePassword(reauth: Outcome, change: Outcome) returns (calls: seq<AccountCall>)
      modifies this`notice, this`passwordFormShown, this`changePasswordShown, this`listening
      ensures old(currentPassword == "" || newPassword == "" || confirmPassword == "") ==>
        calls == [] && notice == Some(Notice("Please fill in all password fields", true))
      ensures old(currentPassword != "" && newPassword != "" && confirmPassword != "" && newPassword != confirmPassword) ==>
        calls == [] && notice == Some(Notice("New passwords do not match", true))
      ensures old(currentPassword != "" && newPassword != "" && newPassword == confirmPassword)
              && !Ticked() ==>
        calls == [] && notice == Some(Notice("Password does not meet requirements", true))
      ensures calls != [] <==>
        && old(currentPassword != "" && newPassword != "" && newPassword == confirmPassword)
        && Ticked()
        && currentUser.Some?
      ensures calls != [] ==> calls[0] == Reauthenticate(currentUser.value.email, old(currentPassword))
      ensures |calls| == 2 <==> calls != [] && reauth == Ok
      ensures |calls| == 2 ==> calls[1] == SetPassword(old(newPassword))
      ensures |calls| <= 2
      ensures |calls| == 2 && change == Ok ==>
        && notice == Some(Notice("Password updated successfully!", false))
        && !passwordFormShown && changePasswordShown && !listening
      ensures old(currentPassword != "" && newPassword != "" && newPassword == confirmPassword)
              && Ticked() && currentUser.None? ==>
        notice == Some(Notice("Failed to update password: " + TypeErrorText, true))
      ensures |calls| == 1 ==> notice == Some(Notice(PasswordError(reauth), true))
      ensures |calls| == 2 && change.Err? ==> notice == Some(Notice(PasswordError(change), true))
      ensures !(|calls| == 2 && change == Ok) ==>
        passwordFormShown == old(passwordFormShown) && changePasswordShown == old(changePasswordShown) && listening == old(listening)
      ensures old(requirements[..] == RequirementFlags(newPassword)) ==>
        && (calls != [] ==> Strong(old(newPassword)))
        && (old(currentPassword != "" && newPassword != "" && newPassword == confirmPassword) && !Strong(old(newPassword)) ==>
              calls == [] && notice == Some(Notice("Password does not meet requirements", true)))
    {
      if requirements[..] == RequirementFlags(newPassword) {
        TickedIffStrong();
      }
      calls := [];
      if currentPassword == "" || newPassword == "" || confirmPassword == "" {
        notice := Some(Notice("Please fill in all password fields", true));
        return;
      }
      if newPassword != confirmPassword {
        notice := Some(Notice("New passwords do not match", true));
        return;
      }
      var allValid := AllRequirementsValid();
      if !allValid {
        notice := Some(Notice("Password does not meet requirements", true));
        return;
      }
      if currentUser.None? {
        notice := Some(Notice("Failed to update password: " + TypeErrorText, true));
        return;
      }
      calls := [Reauthenticate(currentUser.value.email, currentPassword)];
      if reauth.Err? {
        notice := Some(Notice(PasswordError(reauth), true));
        return;
      }
      calls := calls + [SetPassword(newPassword)];
      if change.Err? {
        notice := Some(Notice(PasswordError(change), true));
        return;
      }
      notice := Some(Notice("Password updated successfully!", false));
      CancelPasswordChange();
    }

    /** handleAvatarUpload: with no file chosen nothing happens; a file over
        2 MiB is refused first, then a file whose type is not `image/…`; an
        accepted file becomes the avatar (its data URL is a parameter). */
    method HandleAvatarUpload(file: Option<FileInfo>, dataUrl: string) returns (accepted: bool)
      modifies this`profileStatus, this`avatarSrc
      ensures accepted <==> file.Some? && file.value.size <= MaxAvatarBytes && "image/" <= file.value.mime
      ensures file.None? ==> profileStatus == old(profileStatus)
      ensures file.Some? && file.value.size > MaxAvatarBytes ==>
        profileStatus == Some(Notice("Image size must be less than 2MB", true))
      ensures file.Some? && file.value.size <= MaxAvatarBytes && !("image/" <= file.value.mime) ==>
        profileStatus == Some(Notice("Please select a valid image file", true))
      ensures accepted ==>
        avatarSrc == dataUrl && profileStatus == Some(Notice("Profile picture updated! Click Save to confirm changes.", false))
      ensures !accepted ==> avatarSrc == old(avatarSrc)
    {
      if file.None? {
        return false;
      }
      if file.value.size > MaxAvatarBytes {
        profileStatus := Some(Notice("Image size must be less than 2MB", true));
        return false;
      }
      if !("image/" <= file.value.mime) {
        profileStatus := Some(Notice("Please select a valid image file", true));
        return false;
      }
      accepted := true;
      avatarSrc := dataUrl;
      profileStatus := Some(Notice("Profile picture updated! Click Save to confirm changes.", false));
    }
  }
}
