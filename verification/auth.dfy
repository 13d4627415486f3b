/**
 * The authentication context: a single `user` cell that is either null or a
 * user record, changed by `login`, `signup`, `logout`, `updateUser` and
 * `completeOnboarding`. Login and signup are mocks: any non-empty
 * credentials succeed (after a delay that is not modelled).
 */
module Auth {
  import opened Wrappers

  /** The user record; the three business fields are optional properties. */
  datatype User = User(
    id: string,
    name: string,
    email: string,
    businessName: Option<string>,
    industry: Option<string>,
    businessSize: Option<string>,
    onboardingComplete: bool)

  /** `Partial<User>`: `None` where the property is absent from the object. */
  datatype UserPatch = UserPatch(
    id: Option<string>,
    name: Option<string>,
    email: Option<string>,
    businessName: Option<string>,
    industry: Option<string>,
    businessSize: Option<string>,
    onboardingComplete: Option<bool>)

  /** The data the onboarding wizard hands over on completion. */
  datatype BusinessData = BusinessData(businessName: string, industry: string, businessSize: string)

  /** The id the mock back end gives every user. */
  const MockId: string := "1"
  /** The name the mock login gives every user. */
  const MockName: string := "John Doe"

  /** The patch that leaves every field alone. */
  const NoChange: UserPatch := UserPatch(None, None, None, None, None, None, None)

  /** A freshly authenticated user: mock id, no business data, onboarding not complete. */
  function NewUser(name: string, email: string): (u: User)
    ensures u.id == MockId && u.name == name && u.email == email
    ensures !u.onboardingComplete && u.businessName.None? && u.industry.None? && u.businessSize.None?
  {
    User(MockId, name, email, None, None, None, false)
  }

  /** `login(email, password)`: the new `user` cell and the returned flag. */
  function LoginResult(user: Option<User>, email: string, password: string): (result: (Option<User>, bool))
    ensures result.1 <==> email != "" && password != ""
    ensures result.1 ==> result.0 == Some(NewUser(MockName, email))
    ensures !result.1 ==> result.0 == user
  {
    if email != "" && password != "" then (Some(NewUser(MockName, email)), true) else (user, false)
  }

  /** `signup(name, email, password)`: the new `user` cell and the returned flag. */
  function SignupResult(user: Option<User>, name: string, email: string, password: string): (result: (Option<User>, bool))
    ensures result.1 <==> name != "" && email != "" && password != ""
    ensures result.1 ==> result.0 == Some(NewUser(name, email))
    ensures !result.1 ==> result.0 == user
  {
    if name != "" && email != "" && password != "" then (Some(NewUser(name, email)), true) else (user, false)
  }

  function Override<T>(current: T, given: Option<T>): T
  {
    if given.Some? then given.value else current
  }

  /** `{ ...u, ...patch }`: the supplied fields are overwritten, the others kept. */
  function Merge(u: User, patch: UserPatch): (r: User)
    ensures patch.id.Some? ==> r.id == patch.id.value
    ensures patch.id.None? ==> r.id == u.id
    ensures patch.name.Some? ==> r.name == patch.name.value
    ensures patch.name.None? ==> r.name == u.name
    ensures patch.email.Some? ==> r.email == patch.email.value
    ensures patch.email.None? ==> r.email == u.email
    ensures patch.businessName.Some? ==> r.businessName == patch.businessName
    ensures patch.businessName.None? ==> r.businessName == u.businessName
    ensures patch.industry.Some? ==> r.industry == patch.industry
    ensures patch.industry.None? ==> r.industry == u.industry
    ensures patch.businessSize.Some? ==> r.businessSize == patch.businessSize
    ensures patch.businessSize.None? ==> r.businessSize == u.businessSize
    ensures patch.onboardingComplete.Some? ==> r.onboardingComplete == patch.onboardingComplete.value
    ensures patch.onboardingComplete.None? ==> r.onboardingComplete == u.onboardingComplete
  {
    User(
      Override(u.id, patch.id),
      Override(u.name, patch.name),
      Override(u.email, patch.email),
      if patch.businessName.Some? then patch.businessName else u.businessName,
      if patch.industry.Some? then patch.industry else u.industry,
      if patch.businessSize.Some? then patch.businessSize else u.businessSize,
      Override(u.onboardingComplete, patch.onboardingComplete))
  }

  /** `updateUser(patch)`: merges into a present user; a null user stays null. */
  function Updated(user: Option<User>, patch: UserPatch): (r: Option<User>)
    ensures r.Some? <==> user.Some?
    ensures r.Some? ==> r.value == Merge(user.value, patch)
  {
    if user.Some? then Some(Merge(user.value, patch)) else None
  }

  /** `completeOnboarding(data)`: copies the business data and sets the flag; a null user stays null. */
  function Onboarded(user: Option<User>, data: BusinessData): (r: Option<User>)
    ensures r.Some? <==> user.Some?
    ensures r.Some? ==> r.value.onboardingComplete
    ensures r.Some? ==> r.value.id == user.value.id && r.value.name == user.value.name
                        && r.value.email == user.value.email
    ensures r.Some? ==> r.value.businessName == Some(data.businessName)
                        && r.value.industry == Some(data.industry)
                        && r.value.businessSize == Some(data.businessSize)
  {
    if user.Some? then
      Some(user.value.(businessName := Some(data.businessName),
                       industry := Some(data.industry),
                       businessSize := Some(data.businessSize),
                       onboardingComplete := true))
    else None
  }

  /** The patch `{ ...data, onboardingComplete: true }`. */
  function OnboardingPatch(data: BusinessData): UserPatch
  {
    NoChange.(businessName := Some(data.businessName),
              industry := Some(data.industry),
              businessSize := Some(data.businessSize),
              onboardingComplete := Some(true))
  }

  /** Completing onboarding is the same as updating the user with the business data and the flag. */
  lemma OnboardedIsUpdate(user: Option<User>, data: BusinessData)
    ensures Onboarded(user, data) == Updated(user, OnboardingPatch(data))
  {
  }

  /** The empty patch changes nothing. */
  lemma UpdateNoChange(user: Option<User>)
    ensures Updated(user, NoChange) == user
  {
  }

  /** Applying the same patch twice is the same as applying it once. */
  lemma UpdateIdempotent(user: Option<User>, patch: UserPatch)
    ensures Updated(Updated(user, patch), patch) == Updated(user, patch)
  {
  }

  /** Later properties win: `{...p, ...q}` as one patch. */
  function Combine(p: UserPatch, q: UserPatch): UserPatch
  {
    UserPatch(
      if q.id.Some? then q.id else p.id,
      if q.name.Some? then q.name else p.name,
      if q.email.Some? then q.email else p.email,
      if q.businessName.Some? then q.businessName else p.businessName,
      if q.industry.Some? then q.industry else p.industry,
      if q.businessSize.Some? then q.businessSize else p.businessSize,
      if q.onboardingComplete.Some? then q.onboardingComplete else p.onboardingComplete)
  }

  /** Two updates in a row are one update with the combined patch. */
  lemma UpdateCompose(user: Option<User>, p: UserPatch, q: UserPatch)
    ensures Updated(Updated(user, p), q) == Updated(user, Combine(p, q))
  {
  }

  /**
   * A successful login starts onboarding over, even for a user who had completed it:
   * the flag is cleared and no business data is kept.
   */
  lemma LoginResetsOnboarding(user: Option<User>, email: string, password: string)
    requires LoginResult(user, email, password).1
    ensures var u := LoginResult(user, email, password).0.value;
      && !u.onboardingComplete
      && u.businessName.None? && u.industry.None? && u.businessSize.None?
  {
  }

  /** A successful signup likewise starts onboarding over with no business data. */
  lemma SignupResetsOnboarding(user: Option<User>, name: string, email: string, password: string)
    requires SignupResult(user, name, email, password).1
    ensures var u := SignupResult(user, name, email, password).0.value;
      && !u.onboardingComplete
      && u.businessName.None? && u.industry.None? && u.businessSize.None?
  {
  }

  /** The authentication provider: one `user` cell, initially null. */
  class AuthProvider {
    var user: Option<User>

    constructor ()
      ensures user == None
    {
      user := None;
    }

    /** `login`: on non-empty credentials sets the mock user and returns true; otherwise returns false. */
    method Login(email: string, password: string) returns (ok: bool)
      modifies this
      ensures (user, ok) == LoginResult(old(user), email, password)
    {
      if email != "" && password != "" {
        user := Some(NewUser(MockName, email));
        return true;
      }
      return false;
    }

    /** `signup`: on a non-empty name, email and password sets a new user and returns true. */
    method Signup(name: string, email: string, password: string) returns (ok: bool)
      modifies this
      ensures (user, ok) == SignupResult(old(user), name, email, password)
    {
      if name != "" && email != "" && password != "" {
        user := Some(NewUser(name, email));
        return true;
      }
      return false;
    }

    /** `logout`: clears the user from any state. */
    method Logout()
      modifies this
      ensures user == None
    {
      user := None;
    }

    /** `updateUser(patch)` */
    method UpdateUser(patch: UserPatch)
      modifies this
      ensures user == Updated(old(user), patch)
    {
      if user.Some? {
        user := Some(Merge(user.value, patch));
      }
    }

    /** `completeOnboarding(data)` */
    method CompleteOnboarding(data: BusinessData)
      modifies this
      ensures user == Onboarded(old(user), data)
    {
      if user.Some? {
        user := Some(user.value.(businessName := Some(data.businessName),
                                 industry := Some(data.industry),
                                 businessSize := Some(data.businessSize),
                                 onboardingComplete := true));
      }
    }
  }
}
