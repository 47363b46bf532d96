/**
 The profile store: a single optional profile record with a setter and a
 partial-merge updater. Every profile field is optional, so a partial
 profile is itself a profile whose absent keys are `None`.
 */
module UserStore {
  import opened Seqs

  datatype UserProfile = UserProfile(
    id: Option<int>,
    firstName: Option<string>,
    lastName: Option<string>,
    username: Option<string>,
    phoneNumber: Option<string>,
    photoUrl: Option<string>)

  /** The stored profile; `None` is the `null` a fresh store starts with. */
  type ProfileState = Option<UserProfile>

  const Init: ProfileState := None

  /** The update that changes nothing. */
  const NoChanges: UserProfile := UserProfile(None, None, None, None, None, None)

  /** A fresh store holds no profile, so the first update is stored as the whole profile. */
  lemma InitHoldsNone(u: UserProfile)
    ensures Init.None?
    ensures UpdateProfile(Init, u) == Some(u)
  {
  }

  /** `setProfile`: the given profile replaces whatever was stored. */
  function SetProfile(s: ProfileState, p: UserProfile): (r: ProfileState)
    ensures r == Some(p)
  {
    Some(p)
  }

  /** `{ ...p, ...u }`: the update's present keys win, absent ones keep the stored value. */
  function Merge(p: UserProfile, u: UserProfile): (m: UserProfile)
    ensures u.id.Some? ==> m.id == u.id
    ensures u.id.None? ==> m.id == p.id
    ensures u.firstName.Some? ==> m.firstName == u.firstName
    ensures u.firstName.None? ==> m.firstName == p.firstName
    ensures u.lastName.Some? ==> m.lastName == u.lastName
    ensures u.lastName.None? ==> m.lastName == p.lastName
    ensures u.username.Some? ==> m.username == u.username
    ensures u.username.None? ==> m.username == p.username
    ensures u.phoneNumber.Some? ==> m.phoneNumber == u.phoneNumber
    ensures u.phoneNumber.None? ==> m.phoneNumber == p.phoneNumber
    ensures u.photoUrl.Some? ==> m.photoUrl == u.photoUrl
    ensures u.photoUrl.None? ==> m.photoUrl == p.photoUrl
  {
    UserProfile(
      if u.id.Some? then u.id else p.id,
      if u.firstName.Some? then u.firstName else p.firstName,
      if u.lastName.Some? then u.lastName else p.lastName,
      if u.username.Some? then u.username else p.username,
      if u.phoneNumber.Some? then u.phoneNumber else p.phoneNumber,
      if u.photoUrl.Some? then u.photoUrl else p.photoUrl)
  }

  /**
   `updateProfile`: merges into the stored profile, or, when none is stored,
   stores the update itself.
   */
  function UpdateProfile(s: ProfileState, u: UserProfile): (r: ProfileState)
    ensures r.Some?
    ensures s.None? ==> r == Some(u)
    ensures s.Some? ==> r == Some(Merge(s.value, u))
  {
    match s
    case None => Some(u)
    case Some(p) => Some(Merge(p, u))
  }

  /** An update after a set merges into the profile just set, whatever was stored before. */
  lemma SetThenUpdate(s: ProfileState, p: UserProfile, u: UserProfile)
    ensures UpdateProfile(SetProfile(s, p), u) == Some(Merge(p, u))
    ensures UpdateProfile(SetProfile(s, p), NoChanges) == SetProfile(s, p)
  {
  }

  /** Applying the same update twice is the same as applying it once. */
  lemma UpdateProfileIdempotent(s: ProfileState, u: UserProfile)
    ensures UpdateProfile(UpdateProfile(s, u), u) == UpdateProfile(s, u)
  {
  }

  /** An update with no keys leaves a stored profile unchanged. */
  lemma UpdateProfileEmpty(p: UserProfile)
    ensures UpdateProfile(Some(p), NoChanges) == Some(p)
  {
  }

  /** Of two updates, the later one wins on the keys it carries. */
  lemma UpdateProfileCompose(s: ProfileState, u: UserProfile, v: UserProfile)
    ensures UpdateProfile(UpdateProfile(s, u), v) == UpdateProfile(s, Merge(u, v))
  {
  }
}
