/** frontend/src/screens/HomeScreen.js, lines 21-47: what the dashboard derives from the
    signed-in user, the customer type and the active profile before rendering. */
module HomeScreen {
  import opened Wrappers
  import opened Seqs
  import opened Hash
  import opened JsString
  import opened DelegationService
  import opened MockData
  import opened ProfileService
  import opened BusinessService
  import opened InsuranceService
  import opened UserData

  const BUSINESS: string := "business"

  /** `user?.sub`, with a missing user or sub as "". */
  function SubOf(user: Option<User>): string {
    if user.Some? then user.value.sub else ""
  }

  /** isActingAsDelegate. */
  predicate ActingAsDelegate(activeProfile: Option<Profile>) {
    activeProfile.Some? && activeProfile.value.kind == DelegationProfile
  }

  /** isActingAsBusiness. */
  predicate ActingAsBusiness(activeProfile: Option<Profile>) {
    activeProfile.Some? && activeProfile.value.kind == BusinessProfile
  }

  /** The id whose hash seeds the insurance list. A business customer uses the active
      profile's id whenever it is non-empty, whatever its kind; a private customer uses it
      only for a delegation profile. Otherwise the user's own sub. */
  function InsuranceSeed(user: Option<User>, customerType: string, activeProfile: Option<Profile>): (r: string)
    ensures customerType == BUSINESS && activeProfile.Some? && activeProfile.value.id != "" ==>
      r == activeProfile.value.id
    ensures customerType != BUSINESS && ActingAsDelegate(activeProfile) ==> r == activeProfile.value.id
    ensures (!(customerType == BUSINESS && activeProfile.Some? && activeProfile.value.id != "") &&
             !(customerType != BUSINESS && ActingAsDelegate(activeProfile))) ==> r == SubOf(user)
  {
    if customerType == BUSINESS then
      (if activeProfile.Some? && activeProfile.value.id != "" then activeProfile.value.id else SubOf(user))
    else if ActingAsDelegate(activeProfile) then activeProfile.value.id
    else SubOf(user)
  }

  /** The insurances before any role filter: business ones for a business customer,
      private ones otherwise, seeded as above. */
  function HomeInsurances(user: Option<User>, customerType: string, activeProfile: Option<Profile>): seq<Insurance> {
    var seed := InsuranceSeed(user, customerType, activeProfile);
    if customerType == BUSINESS then BusinessInsurances(seed) else UserInsurances(seed)
  }

  /** filteredInsurances: only a business customer whose active profile carries a role
      sees the list narrowed to the categories that role permits. */
  function FilteredInsurances(insurances: seq<Insurance>, customerType: string, activeProfile: Option<Profile>): (r: seq<Insurance>)
    ensures !(customerType == BUSINESS && activeProfile.Some? && activeProfile.value.role.Some?) ==> r == insurances
    ensures customerType == BUSINESS && activeProfile.Some? && activeProfile.value.role.Some? ==>
      r == FilterInsurancesByPermissions(Some(insurances), HeldPermissions(activeProfile.value.role))
  {
    if customerType == BUSINESS && activeProfile.Some? && activeProfile.value.role.Some? then
      var role := activeProfile.value.role;
      var r := Filter((ins: Insurance) => HasPermission(role, ins.category), insurances);
      if HeldPermissions(role).Some? then
        var ps := HeldPermissions(role).value;
        FilterCongruent((ins: Insurance) => HasPermission(role, ins.category),
                        (ins: Insurance) => ins.category in ps, insurances);
        r
      else
        FilterDropsAll((ins: Insurance) => HasPermission(role, ins.category), insurances);
        r
    else insurances
  }

  /** displayName: the company name for a business customer (absent without a sub), the
      profile's name when acting as a delegate, and otherwise the user's first name. */
  function DisplayName(user: Option<User>, customerType: string, activeProfile: Option<Profile>): (r: Option<string>)
    ensures customerType == BUSINESS ==>
      (r.Some? <==> SubOf(user) != "") &&
      (r.Some? ==> r.value == COMPANY_NAMES[HashOf(SubOf(user)) % 6])
    ensures customerType != BUSINESS && ActingAsDelegate(activeProfile) ==> r == Some(activeProfile.value.name)
    ensures customerType != BUSINESS && !ActingAsDelegate(activeProfile) ==> r == Some(GetFirstName(user))
  {
    if customerType == BUSINESS then
      var company := GenerateCompanyProfile(SubOf(user));
      if company.Some? then Some(company.value.companyName) else None
    else if ActingAsDelegate(activeProfile) then Some(activeProfile.value.name)
    else Some(GetFirstName(user))
  }

  /** The acting banner shows for a delegation or business profile, never for the self one. */
  function ShowsActingBanner(activeProfile: Option<Profile>): (r: bool)
    ensures r <==> activeProfile.Some? && activeProfile.value.kind != SelfProfile
  {
    ActingAsDelegate(activeProfile) || ActingAsBusiness(activeProfile)
  }

  /** A business customer looking at their own profile sees the insurances seeded by the
      literal profile id 'self', the same list for every business user, and no banner. */
  lemma BusinessSelfSeedsSelf(user: Option<User>, userId: string)
    requires userId != ""
    ensures var self := Some(SelfEntry(userId, BUSINESS));
      InsuranceSeed(user, BUSINESS, self) == "self" &&
      HomeInsurances(user, BUSINESS, self) == BusinessInsurances("self") &&
      FilteredInsurances(BusinessInsurances("self"), BUSINESS, self) == BusinessInsurances("self") &&
      !ShowsActingBanner(self)
  {
    SelfEntryShape(userId, BUSINESS);
  }

  /** A private customer looking at their own profile sees the insurances seeded by their
      own sub, and no banner. */
  lemma PrivateSelfSeedsSub(user: Option<User>, userId: string, customerType: string)
    requires userId != "" && customerType != BUSINESS
    ensures var self := Some(SelfEntry(userId, customerType));
      HomeInsurances(user, customerType, self) == UserInsurances(SubOf(user)) &&
      !ShowsActingBanner(self)
  {
    SelfEntryShape(userId, customerType);
  }

  /** Acting on a received delegation, a private customer sees the insurances seeded by the
      profile id 'delegate-<id>', not by the delegating person, under the acting banner. */
  lemma DelegateSeedsDelegateId(user: Option<User>, d: Delegation)
    ensures var p := Some(DelegateEntry(d));
      HomeInsurances(user, "private", p) == UserInsurances("delegate-" + NatToString(d.id)) &&
      DisplayName(user, "private", p) == Some(d.name) &&
      ShowsActingBanner(p)
  {
  }

  /** Acting for the second company, whose role is 'regnskapsforer', a business customer
      sees exactly the 'ting' insurances of that company's list, in order. */
  lemma SecondCompanySeesTing(user: Option<User>, hash: nat)
    ensures var p := Some(SecondCompanyEntry(hash));
      var all := HomeInsurances(user, BUSINESS, p);
      all == BusinessInsurances("company-2") &&
      FilteredInsurances(all, BUSINESS, p) == FilterInsurancesByPermissions(Some(all), Some(["ting"])) &&
      ShowsActingBanner(p)
  {
    var p := SecondCompanyEntry(hash);
    assert p.role == Some(BUSINESS_ROLES[2]);
    assert HeldPermissions(p.role) == Some(["ting"]);
    assert InsuranceSeed(user, BUSINESS, Some(p)) == "company-2";
  }
}
