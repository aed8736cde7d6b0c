/** The player's profile page (PlayerProfile.tsx): the upcoming/past split of their bookings,
    the edit form and the password change. Remote calls are handler parameters. */
module ProfilePage {
  import opened Wrappers
  import opened Lists
  import opened Bookings
  import opened Passwords

  /** `isUpcoming` (PlayerProfile.tsx:152-157): on or after today. */
  predicate IsUpcoming(b: Booking, today: int)
  {
    b.date >= today
  }

  /** The two tabs' lists (PlayerProfile.tsx:159-160). */
  function UpcomingOf(bookings: seq<Booking>, today: int): (r: seq<Booking>)
    ensures forall b :: b in r <==> b in bookings && IsUpcoming(b, today)
    ensures |r| <= |bookings|
  {
    Filter(bookings, b => IsUpcoming(b, today))
  }

  function PastOf(bookings: seq<Booking>, today: int): (r: seq<Booking>)
    ensures forall b :: b in r <==> b in bookings && !IsUpcoming(b, today)
    ensures |r| <= |bookings|
  {
    Filter(bookings, b => !IsUpcoming(b, today))
  }

  /** The tabs split the bookings: a booking is upcoming exactly when its day is today or later,
      past exactly otherwise, never both, and the two counts add up to the total. */
  lemma TabsPartition(bookings: seq<Booking>, today: int)
    ensures forall b :: b in UpcomingOf(bookings, today) <==> b in bookings && b.date >= today
    ensures forall b :: b in PastOf(bookings, today) <==> b in bookings && b.date < today
    ensures multiset(UpcomingOf(bookings, today)) + multiset(PastOf(bookings, today)) == multiset(bookings)
    ensures |UpcomingOf(bookings, today)| + |PastOf(bookings, today)| == |bookings|
  {
    FilterSplits(bookings, b => IsUpcoming(b, today), b => !IsUpcoming(b, today));
  }

  /** The profile edit form; a null phone shows as the empty string. */
  datatype EditData = EditData(fullName: string, phone: string)

  function EditDataOf(p: PlayerProfile): (r: EditData)
    ensures r.fullName == p.fullName
    ensures p.phone.Some? && p.phone.value != "" ==> r.phone == p.phone.value
    ensures p.phone.None? || p.phone.value == "" ==> r.phone == ""
  {
    EditData(p.fullName, if p.phone.Some? then p.phone.value else "")
  }

  /** The page's state. `passwordUpdates` records each call to `updatePassword`. */
  class ProfileScreen {
    var profile: Option<PlayerProfile>
    var bookings: seq<Booking>
    var editMode: bool
    var editData: EditData
    var error: Option<string>
    var success: Option<string>
    var showPasswordSection: bool
    var newPassword: string
    var confirmPassword: string
    var passwordUpdates: seq<string>

    constructor ()
      ensures profile.None? && bookings == [] && !editMode && editData == EditData("", "")
      ensures error.None? && success.None? && !showPasswordSection
      ensures newPassword == "" && confirmPassword == "" && passwordUpdates == []
    {
      profile, bookings, editMode, editData := None, [], false, EditData("", "");
      error, success, showPasswordSection := None, None, false;
      newPassword, confirmPassword, passwordUpdates := "", "", [];
    }

    /** `loadProfileData` (PlayerProfile.tsx:36-67): a found profile also fills the edit form; the
      bookings come from the player id, or from the e-mail when that lookup fails; a failing
      profile lookup or a failing e-mail lookup ends in "Failed to load profile data". */
    method LoadProfileData(found: Fetch<Option<PlayerProfile>>, byId: Fetch<seq<Booking>>, byEmail: Fetch<seq<Booking>>)
      modifies this`profile, this`editData, this`bookings, this`error
      ensures found.Failed? ==>
        profile == old(profile) && editData == old(editData) && bookings == old(bookings) &&
        error == Some("Failed to load profile data")
      ensures found.Fetched? && found.value.Some? ==>
        profile == found.value && editData == EditDataOf(found.value.value)
      ensures found.Fetched? && found.value.None? ==> profile == old(profile) && editData == old(editData)
      ensures found.Fetched? && byId.Fetched? ==> bookings == byId.value && error.None?
      ensures found.Fetched? && byId.Failed? && byEmail.Fetched? ==> bookings == byEmail.value && error.None?
      ensures found.Fetched? && byId.Failed? && byEmail.Failed? ==>
        bookings == old(bookings) && error == Some("Failed to load profile data")
    {
      error := None;
      if found.Failed? {
        error := Some("Failed to load profile data");
        return;
      }
      if found.value.Some? {
        profile := found.value;
        editData := EditDataOf(found.value.value);
      }
      if byId.Fetched? {
        bookings := byId.value;
      } else if byEmail.Fetched? {
        bookings := byEmail.value;
      } else {
        error := Some("Failed to load profile data");
      }
    }

    /** `handleSaveProfile` (PlayerProfile.tsx:69-92): only with a loaded profile. */
    method HandleSaveProfile(updated: Fetch<PlayerProfile>)
      modifies this`profile, this`editMode, this`error, this`success
      ensures old(profile).None? ==>
        profile == old(profile) && editMode == old(editMode) && error == old(error) && success == old(success)
      ensures old(profile).Some? && updated.Fetched? ==>
        profile == Some(updated.value) && !editMode && error.None? && success == Some("Profile updated successfully!")
      ensures old(profile).Some? && updated.Failed? ==>
        profile == old(profile) && editMode == old(editMode) && error == Some("Failed to update profile") && success.None?
    {
      if profile.None? {
        return;
      }
      error, success := None, None;
      match updated
      case Fetched(p) =>
        profile := Some(p);
        editMode := false;
        success := Some("Profile updated successfully!");
      case Failed(_) =>
        error := Some("Failed to update profile");
    }

    /** `handleChangePassword` (PlayerProfile.tsx:94-122). `outcome` is what `updatePassword`
      does: `None` when it succeeds, `Some(message)` when it throws. Mismatch is checked before
      length, and a rejected form never reaches `updatePassword`. */
    method HandleChangePassword(outcome: Option<string>)
      modifies this`error, this`success, this`newPassword, this`confirmPassword, this`showPasswordSection, this`passwordUpdates
      ensures old(newPassword) != old(confirmPassword) ==>
        error == Some("Passwords do not match") && success.None? && passwordUpdates == old(passwordUpdates) &&
        newPassword == old(newPassword) && confirmPassword == old(confirmPassword) &&
        showPasswordSection == old(showPasswordSection)
      ensures old(newPassword) == old(confirmPassword) && |old(newPassword)| < MinPasswordLength ==>
        error == Some("Password must be at least 6 characters long") && success.None? &&
        passwordUpdates == old(passwordUpdates) && newPassword == old(newPassword) &&
        confirmPassword == old(confirmPassword) && showPasswordSection == old(showPasswordSection)
      ensures old(newPassword) == old(confirmPassword) && |old(newPassword)| >= MinPasswordLength ==>
        passwordUpdates == old(passwordUpdates) + [old(newPassword)]
      ensures old(newPassword) == old(confirmPassword) && |old(newPassword)| >= MinPasswordLength && outcome.None? ==>
        success == Some("Password changed successfully!") && error.None? &&
        newPassword == "" && confirmPassword == "" && !showPasswordSection
      ensures old(newPassword) == old(confirmPassword) && |old(newPassword)| >= MinPasswordLength && outcome.Some? ==>
        error == Some(OrElse(outcome.value, "Failed to change password")) && success.None? &&
        newPassword == old(newPassword) && confirmPassword == old(confirmPassword) &&
        showPasswordSection == old(showPasswordSection)
    {
      error, success := None, None;
      var problem := PasswordProblem(newPassword, confirmPassword);
      if problem.Some? {
        error := problem;
        return;
      }
      passwordUpdates := passwordUpdates + [newPassword];
      match outcome
      case None =>
        success := Some("Password changed successfully!");
        newPassword, confirmPassword := "", "";
        showPasswordSection := false;
      case Some(message) =>
        error := Some(OrElse(message, "Failed to change password"));
    }

    /** `cancelEdit` (PlayerProfile.tsx:124-134): the form goes back to the profile's values. */
    method CancelEdit()
      modifies this`editData, this`editMode, this`error, this`success
      ensures editData == if profile.Some? then EditDataOf(profile.value) else old(editData)
      ensures !editMode && error.None? && success.None?
    {
      if profile.Some? {
        editData := EditDataOf(profile.value);
      }
      editMode := false;
      error, success := None, None;
    }

    /** `cancelPasswordChange` (PlayerProfile.tsx:136-141). */
    method CancelPasswordChange()
      modifies this`newPassword, this`confirmPassword, this`showPasswordSection, this`error, this`success
      ensures newPassword == "" && confirmPassword == "" && !showPasswordSection && error.None? && success.None?
    {
      newPassword, confirmPassword := "", "";
      showPasswordSection := false;
      error, success := None, None;
    }
  }
}
