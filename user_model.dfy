/** The user document: credentials, care mode, profile, caregiver links and
    preferences. */
module UserModel {
  import opened Wrappers
  import opened Vocabulary

  datatype Contact = Contact(name: Option<string>, phone: Option<string>, relationship: Option<string>)

  datatype ProfileData = ProfileData(
    age: Option<int>,
    gender: Option<string>,
    medicalHistory: seq<string>,
    medications: seq<string>,
    emergencyContact: Option<Contact>)

  datatype Preferences = Preferences(musicTherapy: bool, ambientMode: bool, notificationsEnabled: bool)

  datatype User = User(
    email: string,
    password: string,
    name: string,
    careMode: CareMode,
    profileData: ProfileData,
    caregivers: seq<Id>,
    patients: seq<Id>,
    preferences: Preferences,
    createdAt: int)

  /** The user as the handlers send it out: everything but the password. */
  datatype Profile = Profile(
    email: string,
    name: string,
    careMode: CareMode,
    profileData: ProfileData,
    caregivers: seq<Id>,
    patients: seq<Id>,
    preferences: Preferences,
    createdAt: int)

  const DefaultPreferences: Preferences := Preferences(true, true, true)
  const EmptyProfileData: ProfileData := ProfileData(None, None, [], [], None)

  /** A user with only the required fields given, the rest at the schema's
      defaults. */
  function NewUser(email: string, password: string, name: string, now: int): User
  {
    User(email, password, name, Normal, EmptyProfileData, [], [], DefaultPreferences, now)
  }

  /** The required strings are present (a required string may not be empty). */
  predicate ValidUser(u: User)
  {
    |u.email| > 0 && |u.password| > 0 && |u.name| > 0
  }

  /** The unique index on `email`. */
  predicate UniqueEmails(users: map<Id, User>)
  {
    forall a, b :: a in users && b in users && users[a].email == users[b].email ==> a == b
  }

  function ProfileOf(u: User): Profile
  {
    Profile(u.email, u.name, u.careMode, u.profileData, u.caregivers, u.patients, u.preferences, u.createdAt)
  }

  /** A new user starts in normal care mode, with every preference on, no
      caregivers and no patients, and is valid when its required strings
      are non-empty. */
  lemma NewUserDefaults(email: string, password: string, name: string, now: int)
    ensures NewUser(email, password, name, now).careMode == Normal
    ensures NewUser(email, password, name, now).preferences == Preferences(true, true, true)
    ensures NewUser(email, password, name, now).caregivers == [] && NewUser(email, password, name, now).patients == []
    ensures ValidUser(NewUser(email, password, name, now)) <==> |email| > 0 && |password| > 0 && |name| > 0
  {
  }

  /** The outgoing profile keeps every field except the password. */
  lemma ProfileDropsOnlyPassword(u: User, v: User)
    ensures ProfileOf(u) == ProfileOf(v) <==> u == v.(password := u.password)
  {
  }
}
