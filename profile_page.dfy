/** The profile page of the second copy of the application
    (physics-learning-platform/src/components/ProfilePage.tsx): the form is
    loaded from the signed-in user's profile, edited field by field, and saved
    back into the signed-in user and the user list. */
module ProfilePage {
  import opened Common
  import opened AppTypes
  import opened LabTypes

  /** The initial `profileData`: name and email fall back to "", the grade to "10th". */
  function InitialProfile(u: LabUser): (r: Profile)
    ensures u.profile.None? ==> r == Profile("", "", "10th")
    ensures u.profile.Some? ==> r.name == u.profile.value.name && r.email == u.profile.value.email
    ensures u.profile.Some? && u.profile.value.grade != "" ==> r == u.profile.value
    ensures r.grade != ""
  {
    match u.profile
    case None => Profile("", "", "10th")
    case Some(p) => Profile(OrStr(p.name, ""), OrStr(p.email, ""), OrStr(p.grade, "10th"))
  }

  /** The three inputs of the form. */
  datatype Field = Name | Email | Grade

  /** `{ ...profileData, [field]: value }`. */
  function WithField(p: Profile, f: Field, value: string): (r: Profile)
    ensures f == Name ==> r == Profile(value, p.email, p.grade)
    ensures f == Email ==> r == Profile(p.name, value, p.grade)
    ensures f == Grade ==> r == Profile(p.name, p.email, value)
  {
    match f
    case Name => p.(name := value)
    case Email => p.(email := value)
    case Grade => p.(grade := value)
  }

  /** `{ ...currentUser, profile: profileData }`. */
  function Saved(u: LabUser, p: Profile): (r: LabUser)
    ensures r.profile == Some(p)
    ensures r.id == u.id && r.username == u.username && r.email == u.email && r.password == u.password
    ensures r.userType == u.userType && r.progress == u.progress
  {
    u.(profile := Some(p))
  }

  /** Opening the page again after a save loads the saved form. */
  lemma SavedRoundTrip(u: LabUser, p: Profile)
    requires p.grade != ""
    ensures InitialProfile(Saved(u, p)) == p
  {
  }

  /** Putting the same user into the list twice is putting it in once. */
  lemma {:induction false} ReplaceTwice(users: seq<LabUser>, updated: LabUser)
    ensures ReplaceLabUser(ReplaceLabUser(users, updated), updated) == ReplaceLabUser(users, updated)
  {
    if users != [] {
      ReplaceTwice(users[1..], updated);
    }
  }

  /** The list after a save: the entries with the user's id carry the saved
      profile and are otherwise that user, every other entry is as it was. */
  lemma SaveReplacesOnlyTheUser(users: seq<LabUser>, u: LabUser, p: Profile)
    ensures var r := ReplaceLabUser(users, Saved(u, p));
            && |r| == |users|
            && (forall i :: 0 <= i < |users| && users[i].id == u.id ==> r[i] == Saved(u, p))
            && (forall i :: 0 <= i < |users| && users[i].id != u.id ==> r[i] == users[i])
            && (forall v :: v in r ==> v in users || v == Saved(u, p))
  {
    var r := ReplaceLabUser(users, Saved(u, p));
    forall v | v in r ensures v in users || v == Saved(u, p) {
      var i :| 0 <= i < |r| && r[i] == v;
      if users[i].id != u.id {
        assert v == users[i];
      }
    }
  }

  class Page {
    var currentUser: LabUser
    var users: seq<LabUser>
    var profileData: Profile
    var isEditing: bool
    var notices: seq<string>

    constructor (user: LabUser, users0: seq<LabUser>)
      ensures currentUser == user && users == users0 && profileData == InitialProfile(user)
      ensures !isEditing && notices == []
    {
      currentUser, users, profileData := user, users0, InitialProfile(user);
      isEditing, notices := false, [];
    }

    /** "Edit Profile" / "Cancel" in the header. */
    method ToggleEditing()
      modifies this
      ensures isEditing == !old(isEditing)
      ensures currentUser == old(currentUser) && users == old(users) && profileData == old(profileData)
      ensures notices == old(notices)
    {
      isEditing := !isEditing;
    }

    /** The inputs' `onChange`, shown only while editing. */
    method Edit(f: Field, value: string)
      requires isEditing
      modifies this
      ensures profileData == WithField(old(profileData), f, value) && isEditing
      ensures currentUser == old(currentUser) && users == old(users) && notices == old(notices)
    {
      profileData := WithField(profileData, f, value);
    }

    /** "Cancel" below the form: editing ends and the typed values stay. */
    method Cancel()
      requires isEditing
      modifies this
      ensures !isEditing
      ensures currentUser == old(currentUser) && users == old(users) && profileData == old(profileData)
      ensures notices == old(notices)
    {
      isEditing := false;
    }

    /** `handleSave`, behind "Save Changes". */
    method Save()
      requires isEditing
      modifies this
      ensures currentUser == Saved(old(currentUser), old(profileData))
      ensures users == ReplaceLabUser(old(users), Saved(old(currentUser), old(profileData)))
      ensures |users| == |old(users)| && !isEditing && profileData == old(profileData)
      ensures notices == old(notices) + ["Profile updated successfully!"]
    {
      var updatedUser := Saved(currentUser, profileData);
      currentUser := updatedUser;
      users := ReplaceLabUser(users, updatedUser);
      isEditing := false;
      notices := notices + ["Profile updated successfully!"];
    }
  }
}
