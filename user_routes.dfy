/** The user routes: the signed-in user's profile lookup, the `$set`
    profile update and the care-mode update. */
module UserRoutes {
  import opened Wrappers
  import opened Vocabulary
  import opened UserModel
  import opened Store

  /** The profile of the signed-in user; `NotFound` when there is none. */
  method GetProfile(db: Db, userId: Id) returns (res: Result<Profile, HttpError>)
    ensures userId !in db.users ==> res == Failure(NotFound)
    ensures userId in db.users ==> res == Success(ProfileOf(db.users[userId]))
  {
    if userId !in db.users {
      return Failure(NotFound);
    }
    res := Success(ProfileOf(db.users[userId]));
  }

  /** The request body of a profile update: each top-level field the
      client may send, absent when not sent. */
  datatype Patch = Patch(
    email: Option<string>,
    password: Option<string>,
    name: Option<string>,
    careMode: Option<CareMode>,
    profileData: Option<ProfileData>,
    caregivers: Option<seq<Id>>,
    patients: Option<seq<Id>>,
    preferences: Option<Preferences>,
    createdAt: Option<int>)

  const EmptyPatch: Patch := Patch(None, None, None, None, None, None, None, None, None)

  function Pick<T>(given: Option<T>, current: T): T
  {
    if given.Some? then given.value else current
  }

  /** `$set` with the body: every field sent replaces the stored one, so an
      empty body changes nothing, and the email and the care mode are the
      sent ones when sent and the stored ones otherwise. */
  function ApplyPatch(u: User, p: Patch): (v: User)
    ensures p == EmptyPatch ==> v == u
    ensures v.email == (if p.email.Some? then p.email.value else u.email)
    ensures v.careMode == (if p.careMode.Some? then p.careMode.value else u.careMode)
  {
    User(
      Pick(p.email, u.email),
      Pick(p.password, u.password),
      Pick(p.name, u.name),
      Pick(p.careMode, u.careMode),
      Pick(p.profileData, u.profileData),
      Pick(p.caregivers, u.caregivers),
      Pick(p.patients, u.patients),
      Pick(p.preferences, u.preferences),
      Pick(p.createdAt, u.createdAt))
  }

  /** A field of the updated user is the sent value when one was sent and
      the stored value otherwise. */
  lemma ApplyPatchFields(u: User, p: Patch)
    ensures var v := ApplyPatch(u, p);
      && (p.email.Some? ==> v.email == p.email.value) && (p.email.None? ==> v.email == u.email)
      && (p.password.Some? ==> v.password == p.password.value) && (p.password.None? ==> v.password == u.password)
      && (p.name.Some? ==> v.name == p.name.value) && (p.name.None? ==> v.name == u.name)
      && (p.careMode.Some? ==> v.careMode == p.careMode.value) && (p.careMode.None? ==> v.careMode == u.careMode)
      && (p.profileData.Some? ==> v.profileData == p.profileData.value)
      && (p.profileData.None? ==> v.profileData == u.profileData)
      && (p.caregivers.Some? ==> v.caregivers == p.caregivers.value)
      && (p.caregivers.None? ==> v.caregivers == u.caregivers)
      && (p.patients.Some? ==> v.patients == p.patients.value) && (p.patients.None? ==> v.patients == u.patients)
      && (p.preferences.Some? ==> v.preferences == p.preferences.value)
      && (p.preferences.None? ==> v.preferences == u.preferences)
      && (p.createdAt.Some? ==> v.createdAt == p.createdAt.value) && (p.createdAt.None? ==> v.createdAt == u.createdAt)
  {
  }

  /** Sending nothing changes nothing, and sending the same body twice is
      sending it once. */
  lemma ApplyPatchLaws(u: User, p: Patch)
    ensures ApplyPatch(u, EmptyPatch) == u
    ensures ApplyPatch(ApplyPatch(u, p), p) == ApplyPatch(u, p)
  {
  }

  /** Would the new email collide with another user's: the unique index
      rejects such an update. */
  predicate EmailTaken(users: map<Id, User>, userId: Id, p: Patch)
  {
    p.email.Some? && exists other :: other in users && other != userId && users[other].email == p.email.value
  }

  /** Applies a profile update to the signed-in user and answers with the
      updated profile; a missing user is answered with none and changes
      nothing, and an email taken by another user is a server error that
      changes nothing. */
  method UpdateProfile(db: Db, userId: Id, p: Patch) returns (res: Result<Option<Profile>, HttpError>)
    requires db.Valid()
    modifies db`users
    ensures db.Valid()
    ensures userId !in old(db.users) ==> res == Success(None) && db.users == old(db.users)
    ensures userId in old(db.users) && EmailTaken(old(db.users), userId, p) ==>
      res == Failure(ServerError) && db.users == old(db.users)
    ensures userId in old(db.users) && !EmailTaken(old(db.users), userId, p) ==>
      && db.users == old(db.users)[userId := ApplyPatch(old(db.users)[userId], p)]
      && res == Success(Some(ProfileOf(db.users[userId])))
  {
    if userId !in db.users {
      return Success(None);
    }
    if EmailTaken(db.users, userId, p) {
      return Failure(ServerError);
    }
    var updated := ApplyPatch(db.users[userId], p);
    db.users := db.users[userId := updated];
    res := Success(Some(ProfileOf(updated)));
  }

  /** The body of a care-mode update, read as a profile update. */
  function CareModePatch(mode: CareMode): Patch
  {
    EmptyPatch.(careMode := Some(mode))
  }

  /** A care-mode update sets the care mode and no other field, and never
      collides on email. */
  lemma CareModePatchSpec(users: map<Id, User>, userId: Id, u: User, mode: CareMode)
    ensures ApplyPatch(u, CareModePatch(mode)) == u.(careMode := mode)
    ensures !EmailTaken(users, userId, CareModePatch(mode))
  {
  }

  /** Sets the signed-in user's care mode and answers with the stored mode;
      a missing user is a server error and changes nothing. */
  method UpdateCareMode(db: Db, userId: Id, mode: CareMode) returns (res: Result<CareMode, HttpError>)
    requires db.Valid()
    modifies db`users
    ensures db.Valid()
    ensures userId !in old(db.users) ==> res == Failure(ServerError) && db.users == old(db.users)
    ensures userId in old(db.users) ==>
      && db.users == old(db.users)[userId := old(db.users)[userId].(careMode := mode)]
      && res == Success(db.users[userId].careMode)
  {
    if userId !in db.users {
      return Failure(ServerError);
    }
    var updated := db.users[userId].(careMode := mode);
    db.users := db.users[userId := updated];
    res := Success(updated.careMode);
  }
}
