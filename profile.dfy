/** The "My Profile" screen: an edit form over a copy of the user's profile,
    three notification switches, a two-step save, and the initials shown when
    there is no avatar picture. */
module ProfileScreen {
  import opened Types
  import opened Strings

  /** The text fields the form edits. */
  datatype ProfileField = Name | Role | Email | Phone | Location | Bio

  /** The three notification switches. */
  datatype Preference = EmailAlerts | DesktopAlerts | Marketing

  function FieldOf(u: UserProfile, f: ProfileField): string {
    match f
    case Name => u.name
    case Role => u.role
    case Email => u.email
    case Phone => u.phone
    case Location => u.location
    case Bio => u.bio
  }

  /** `{ ...prev, [field]: value }`: field `f` becomes `v`, everything else,
      the id, the avatar and the preferences included, stays. */
  function WithField(u: UserProfile, f: ProfileField, v: string): (r: UserProfile)
    ensures FieldOf(r, f) == v
    ensures forall g :: g != f ==> FieldOf(r, g) == FieldOf(u, g)
    ensures r.id == u.id && r.avatar == u.avatar && r.notificationPreferences == u.notificationPreferences
  {
    match f
    case Name => u.(name := v)
    case Role => u.(role := v)
    case Email => u.(email := v)
    case Phone => u.(phone := v)
    case Location => u.(location := v)
    case Bio => u.(bio := v)
  }

  /** Writing a field twice keeps the second value; writing back the value a
      field already has changes nothing. */
  lemma WithFieldLaws(u: UserProfile, f: ProfileField, v: string, w: string)
    ensures WithField(WithField(u, f, v), f, w) == WithField(u, f, w)
    ensures WithField(u, f, FieldOf(u, f)) == u
  {
  }

  function PreferenceOf(p: NotificationPreferences, which: Preference): bool {
    match which
    case EmailAlerts => p.email
    case DesktopAlerts => p.desktop
    case Marketing => p.marketing
  }

  /** `[field]: !prev.notificationPreferences[field]`: one switch flips, the
      other two stay. */
  function TogglePreference(p: NotificationPreferences, which: Preference): (r: NotificationPreferences)
    ensures PreferenceOf(r, which) == !PreferenceOf(p, which)
    ensures forall other :: other != which ==> PreferenceOf(r, other) == PreferenceOf(p, other)
  {
    match which
    case EmailAlerts => p.(email := !p.email)
    case DesktopAlerts => p.(desktop := !p.desktop)
    case Marketing => p.(marketing := !p.marketing)
  }

  /** Flipping a switch twice restores the preferences. */
  lemma ToggleTwice(p: NotificationPreferences, which: Preference)
    ensures TogglePreference(TogglePreference(p, which), which) == p
  {
  }

  /** `handlePreferenceChange` on the whole profile: only the preferences change. */
  function WithPreferenceToggled(u: UserProfile, which: Preference): (r: UserProfile)
    ensures r.notificationPreferences == TogglePreference(u.notificationPreferences, which)
    ensures forall g :: FieldOf(r, g) == FieldOf(u, g)
    ensures r.id == u.id && r.avatar == u.avatar
  {
    u.(notificationPreferences := TogglePreference(u.notificationPreferences, which))
  }

  class ProfileForm {
    var formData: UserProfile
    var isSaving: bool
    var showSuccess: bool
    /** The form data as it was when the save was started: the delayed save
        hands on the value its closure captured, not later edits. */
    var pending: UserProfile

    constructor (user: UserProfile)
      ensures formData == user && !isSaving && !showSuccess
    {
      formData := user;
      isSaving := false;
      showSuccess := false;
      pending := user;
    }

    /** `handleChange`. */
    method Edit(f: ProfileField, v: string)
      modifies this
      ensures formData == WithField(old(formData), f, v)
      ensures isSaving == old(isSaving) && showSuccess == old(showSuccess) && pending == old(pending)
    {
      formData := WithField(formData, f, v);
    }

    /** `handlePreferenceChange`. */
    method TogglePref(which: Preference)
      modifies this
      ensures formData == WithPreferenceToggled(old(formData), which)
      ensures isSaving == old(isSaving) && showSuccess == old(showSuccess) && pending == old(pending)
    {
      formData := WithPreferenceToggled(formData, which);
    }

    /** "Cancel": the form goes back to the profile it was given. */
    method Cancel(user: UserProfile)
      modifies this
      ensures formData == user
      ensures isSaving == old(isSaving) && showSuccess == old(showSuccess) && pending == old(pending)
    {
      formData := user;
    }

    /** The first half of `handleSave`: the save starts and the current form
        data is the value that will be saved. While a save is running the
        button is disabled and a second submit does nothing. */
    method Submit()
      modifies this
      ensures old(isSaving) ==> isSaving && pending == old(pending)
      ensures !old(isSaving) ==> isSaving && pending == old(formData)
      ensures formData == old(formData) && showSuccess == old(showSuccess)
    {
      if !isSaving {
        isSaving := true;
        pending := formData;
      }
    }

    /** The second half of `handleSave`, when the delay is over: the value
        captured at submit goes to `onUpdate`, the save ends and the success
        message shows. */
    method Commit() returns (saved: UserProfile)
      requires isSaving
      modifies this
      ensures saved == old(pending)
      ensures !isSaving && showSuccess
      ensures formData == old(formData) && pending == old(pending)
    {
      saved := pending;
      isSaving := false;
      showSuccess := true;
    }

    /** The success message goes away again. */
    method HideSuccess()
      modifies this
      ensures !showSuccess
      ensures formData == old(formData) && isSaving == old(isSaving) && pending == old(pending)
    {
      showSuccess := false;
    }
  }

  /** A whole save with no edits in between hands on exactly the form data. */
  method SaveForm(form: ProfileForm) returns (saved: UserProfile)
    requires !form.isSaving
    modifies form
    ensures saved == old(form.formData)
    ensures form.formData == old(form.formData) && !form.isSaving && form.showSuccess
  {
    form.Submit();
    saved := form.Commit();
  }

  // ---- avatar ----

  /** `name.charAt(0)` followed by `name.split(' ')[1]?.charAt(0)`. */
  function Initials(name: string): (r: string)
    ensures |r| <= 2
    ensures |r| == 0 <==> name == ""
    ensures |name| > 0 ==> r[0] == name[0]
    ensures |r| == 2 ==> r[1] != ' '
  {
    var words := Split(name, ' ');
    FirstChar(name) + (if |words| > 1 then FirstChar(words[1]) else "")
  }

  /** Every character of every part of a split comes from the string. */
  lemma {:induction false} SplitPartsFromString(s: string, sep: char)
    ensures forall k, c :: 0 <= k < |Split(s, sep)| && c in Split(s, sep)[k] ==> c in s
    decreases |s|
  {
    if |s| > 0 {
      SplitPartsFromString(s[1..], sep);
      assert s == [s[0]] + s[1..];
    }
  }

  /** The initials are taken from the name. */
  lemma InitialsFromName(name: string)
    ensures forall c :: c in Initials(name) ==> c in name
  {
    SplitPartsFromString(name, ' ');
  }

  /** A one-word name gives one initial. */
  lemma OneWordInitials(name: string)
    requires ' ' !in name
    ensures Initials(name) == FirstChar(name)
  {
    SplitFree(name, ' ');
  }

  /** "First Last" gives the first letter of each word. */
  lemma TwoWordInitials(first: string, rest: string)
    requires ' ' !in first && |first| > 0
    requires |rest| > 0 && rest[0] != ' '
    ensures Initials(first + [' '] + rest) == [first[0], rest[0]]
  {
    var name := first + [' '] + rest;
    SplitAfterSep(first, rest, ' ');
    assert Split(name, ' ')[1] == Split(rest, ' ')[0];
    assert rest == [rest[0]] + rest[1..];
    assert Split(rest, ' ')[0][0] == rest[0];
  }

  datatype AvatarView = Picture(url: string) | InitialsBadge(text: string)

  /** A non-empty avatar url is shown as a picture; otherwise the initials. */
  function Avatar(u: UserProfile): (r: AvatarView)
    ensures r.Picture? <==> u.avatar.Some? && u.avatar.value != ""
    ensures r.Picture? ==> r.url == u.avatar.value
    ensures r.InitialsBadge? ==> r.text == Initials(u.name)
  {
    if u.avatar.Some? && u.avatar.value != "" then Picture(u.avatar.value) else InitialsBadge(Initials(u.name))
  }
}
