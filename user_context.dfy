/** frontend/src/contexts/UserContext.js: the customer type chosen before login, the profile
    the user is acting as, and the visibility of the profile switcher. */
module UserContext {
  import opened Wrappers
  import opened UserData

  const PRIVATE: string := "private"
  const BUSINESS: string := "business"

  /** availableProfiles: none unless both a user id and a customer type are set; then the
      user's own profile first and at most one other. */
  function ProfilesFor(userId: string, customerType: string): (r: seq<Profile>)
    ensures r == [] <==> userId == "" || customerType == ""
    ensures |r| <= 2
    ensures r != [] ==> r[0] == SelfEntry(userId, customerType)
  {
    AvailableProfilesShape(userId, customerType);
    if userId == "" || customerType == "" then [] else AvailableProfiles(userId, customerType)
  }

  /** The profile initializeDefaultProfile makes active, if any: the first offered one. */
  function DefaultProfile(userId: string, customerType: string): (r: Option<Profile>)
    ensures userId == "" || customerType == "" ==> r.None?
    ensures userId != "" && customerType != "" ==>
      r == Some(AvailableProfiles(userId, customerType)[0]) && r.value.id == "self" && r.value.kind == SelfProfile
  {
    if userId == "" || customerType == "" then None
    else
      AvailableProfilesShape(userId, customerType);
      SelfEntryShape(userId, customerType);
      Some(AvailableProfiles(userId, customerType)[0])
  }

  /** A user id or customer type that is null, undefined or '' is represented by "". */
  class UserProvider {
    const userId: string
    var customerType: string
    var activeProfile: Option<Profile>
    var isProfileSwitcherVisible: bool

    /** The customer type is unset or one of the two valid types. */
    predicate Valid()
      reads this
    {
      customerType == "" || customerType == PRIVATE || customerType == BUSINESS
    }

    /** The initial state: no type, no active profile, switcher hidden. */
    constructor(userId: string)
      ensures Valid()
      ensures this.userId == userId
      ensures customerType == "" && activeProfile.None? && !isProfileSwitcherVisible
    {
      this.userId := userId;
      customerType := "";
      activeProfile := None;
      isProfileSwitcherVisible := false;
    }

    /** isViewingDelegatedProfile. */
    predicate IsViewingDelegatedProfile()
      reads this
    {
      activeProfile.Some? && activeProfile.value.kind == DelegationProfile
    }

    /** hasSelectedCustomerType. */
    predicate HasSelectedCustomerType()
      reads this
    {
      customerType != ""
    }

    /** isPrivateCustomer and isBusinessCustomer, as a pair: never both, and in a valid
        state one of them holds exactly when a type is selected. */
    function CustomerFlags(): (r: (bool, bool))
      reads this
      ensures r.0 <==> customerType == PRIVATE
      ensures r.1 <==> customerType == BUSINESS
      ensures !(r.0 && r.1)
      ensures Valid() ==> (r.0 || r.1 <==> HasSelectedCustomerType())
    {
      (customerType == PRIVATE, customerType == BUSINESS)
    }

    /** selectCustomerType: only 'private' and 'business' are taken; anything else is
        ignored. */
    method SelectCustomerType(typeName: string)
      requires Valid()
      modifies this
      ensures Valid()
      ensures typeName == PRIVATE || typeName == BUSINESS ==> customerType == typeName
      ensures typeName != PRIVATE && typeName != BUSINESS ==> customerType == old(customerType)
      ensures activeProfile == old(activeProfile) && isProfileSwitcherVisible == old(isProfileSwitcherVisible)
    {
      if typeName != PRIVATE && typeName != BUSINESS {
        return;
      }
      customerType := typeName;
    }

    /** initializeDefaultProfile: with both a user id and a type, the first available
        profile becomes active, replacing any profile that was active before. */
    method InitializeDefaultProfile(forUserId: string, typeName: string)
      requires Valid()
      modifies this
      ensures Valid()
      ensures forUserId == "" || typeName == "" ==> activeProfile == old(activeProfile)
      ensures forUserId != "" && typeName != "" ==> activeProfile == DefaultProfile(forUserId, typeName)
      ensures customerType == old(customerType) && isProfileSwitcherVisible == old(isProfileSwitcherVisible)
    {
      if forUserId == "" || typeName == "" {
        return;
      }
      var profiles := GetAvailableProfiles(forUserId, typeName);
      if |profiles| > 0 {
        activeProfile := Some(profiles[0]);
      }
    }

    /** switchProfile: the chosen profile becomes active and the switcher closes. */
    method SwitchProfile(profile: Profile)
      requires Valid()
      modifies this
      ensures Valid()
      ensures activeProfile == Some(profile) && !isProfileSwitcherVisible
      ensures customerType == old(customerType)
      ensures IsViewingDelegatedProfile() <==> profile.kind == DelegationProfile
    {
      activeProfile := Some(profile);
      isProfileSwitcherVisible := false;
    }

    method OpenProfileSwitcher()
      requires Valid()
      modifies this
      ensures Valid()
      ensures isProfileSwitcherVisible
      ensures customerType == old(customerType) && activeProfile == old(activeProfile)
    {
      isProfileSwitcherVisible := true;
    }

    method CloseProfileSwitcher()
      requires Valid()
      modifies this
      ensures Valid()
      ensures !isProfileSwitcherVisible
      ensures customerType == old(customerType) && activeProfile == old(activeProfile)
    {
      isProfileSwitcherVisible := false;
    }

    /** resetUserState, run on logout. */
    method ResetUserState()
      requires Valid()
      modifies this
      ensures Valid()
      ensures customerType == "" && activeProfile.None? && !isProfileSwitcherVisible
      ensures !HasSelectedCustomerType() && !IsViewingDelegatedProfile()
    {
      customerType := "";
      activeProfile := None;
      isProfileSwitcherVisible := false;
    }
  }
}
