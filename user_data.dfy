/** frontend/src/services/userData.js: the profiles a signed-in user can switch between,
    their own first and then the ones delegated to them. */
module UserData {
  import opened Wrappers
  import opened JsString
  import opened Hash
  import opened MockData
  import opened DelegationService
  import opened BusinessService
  import opened ProfileService

  /** The source's `type` field: 'self', 'delegation' or 'business'. */
  datatype ProfileKind = SelfProfile | DelegationProfile | BusinessProfile

  /** A switchable profile; `delegationInfo` is set on delegation profiles and `role` on
      business profiles, and both are absent elsewhere. */
  datatype Profile = Profile(
    id: string,
    kind: ProfileKind,
    name: string,
    subtitle: string,
    icon: string,
    delegationInfo: Option<Delegation>,
    role: Option<Role>)

  const OFFICE_ICON: string := "\U{1F3E2}"
  const PERSON_ICON: string := "\U{1F464}"
  const ELDER_ICON: string := "\U{1F475}"

  /** The user the own profile is generated for: subject `userId`, a fixed email. */
  function ProfileUser(userId: string): User {
    User(userId, "user@example.com", "", "", false, "")
  }

  /** The own profile, always listed first. */
  function SelfEntry(userId: string, customerType: string): Profile
    requires userId != ""
  {
    Profile(
      "self",
      SelfProfile,
      if customerType == "business" then GenerateCompanyProfile(userId).value.companyName
      else GenerateUserProfile(Some(ProfileUser(userId))).value.fullName,
      if customerType == "business" then "Din bedrift" else "Din profil",
      if customerType == "business" then OFFICE_ICON else PERSON_ICON,
      None,
      None)
  }

  /** The profile pushed for one received delegation: its id is 'delegate-' followed by
      digits that read back as the delegation's id. */
  function DelegateEntry(d: Delegation): (p: Profile)
    ensures |p.id| > 9 && p.id[..9] == "delegate-" && AllDigits(p.id[9..]) && DecimalValue(p.id[9..]) == d.id
  {
    var digits := NatToString(d.id);
    var p := Profile("delegate-" + digits, DelegationProfile, d.name,
                     "Fullmakt fra " + ToLower(d.relationship), ELDER_ICON, Some(d), None);
    assert p.id[9..] == digits;
    DecimalValueOfNatToString(d.id);
    p
  }

  /** `received.forEach(d => profiles.push(...))`: one profile per received delegation, in
      order, carrying the delegation, its name and its lower-cased relationship. */
  function DelegateEntries(received: seq<Delegation>): (r: seq<Profile>)
    ensures |r| == |received|
    ensures forall i :: 0 <= i < |received| ==>
      r[i].kind == DelegationProfile && r[i].name == received[i].name &&
      r[i].delegationInfo == Some(received[i]) && r[i].role.None? && r[i].icon == ELDER_ICON &&
      |r[i].id| > 9 && r[i].id[..9] == "delegate-" && AllDigits(r[i].id[9..]) &&
      DecimalValue(r[i].id[9..]) == received[i].id &&
      r[i].subtitle == "Fullmakt fra " + ToLower(received[i].relationship)
  {
    seq(|received|, i requires 0 <= i < |received| => DelegateEntry(received[i]))
  }

  /** Delegations with distinct ids give profiles with distinct ids, so switching by id
      picks out one delegation. */
  lemma DelegateEntryIdsDistinct(received: seq<Delegation>)
    requires forall i, j :: 0 <= i < j < |received| ==> received[i].id != received[j].id
    ensures var r := DelegateEntries(received);
      forall i, j :: 0 <= i < j < |r| ==> r[i].id != r[j].id
  {
  }

  /** The mother's delegation shows as "Fullmakt fra mor": 'Mor' lower-cased. */
  lemma MotherEntrySubtitle()
    ensures DelegateEntries([MOTHER_DELEGATION])[0].subtitle == "Fullmakt fra mor"
  {
    var low := ToLower(MOTHER_DELEGATION.relationship);
    assert MOTHER_DELEGATION.relationship == "Mor";
    assert low[0] == 'm' && low[1] == 'o' && low[2] == 'r';
    assert low == "mor";
  }

  /** The second company a non-private user may act for. */
  function SecondCompanyEntry(hash: nat): Profile {
    Profile("company-2", BusinessProfile, COMPANY_NAMES[(hash + 2) % |COMPANY_NAMES|],
            "Regnskapsf\U{00F8}rer-tilgang", OFFICE_ICON, None, Some(BUSINESS_ROLES[2]))
  }

  /** The profiles listed after the own one: the received delegations for a private
      customer, the second company for any other type whose hash is a multiple of 3. */
  function OtherProfiles(hash: nat, customerType: string, received: seq<Delegation>): seq<Profile> {
    if customerType == "private" then DelegateEntries(received)
    else if hash % 3 == 0 then [SecondCompanyEntry(hash)]
    else []
  }

  /** The list `getAvailableProfiles(userId, customerType)` returns. */
  function AvailableProfiles(userId: string, customerType: string): seq<Profile> {
    if userId == "" then []
    else
      [SelfEntry(userId, customerType)] +
        OtherProfiles(HashOf(userId), customerType, Delegations(userId).receivedFrom)
  }

  /** getAvailableProfiles: the own profile pushed first, then the received delegations for
      a private customer, or the conditional second company otherwise. */
  method GetAvailableProfiles(userId: string, customerType: string) returns (profiles: seq<Profile>)
    ensures profiles == AvailableProfiles(userId, customerType)
    ensures userId != "" ==> |profiles| >= 1
  {
    if userId == "" {
      return [];
    }
    var hash := HashCode(userId);
    profiles := [SelfEntry(userId, customerType)];
    if customerType == "private" {
      var delegations := GenerateUserDelegations(userId);
      profiles := PushDelegateEntries(profiles, delegations.receivedFrom);
    } else {
      if hash % 3 == 0 {
        profiles := profiles + [SecondCompanyEntry(hash)];
      }
    }
  }

  /** The `forEach` over the received delegations, pushing one profile for each. */
  method PushDelegateEntries(profiles: seq<Profile>, received: seq<Delegation>) returns (r: seq<Profile>)
    ensures r == profiles + DelegateEntries(received)
  {
    r := profiles;
    var i := 0;
    while i < |received|
      invariant 0 <= i <= |received|
      invariant r == profiles + DelegateEntries(received[..i])
    {
      var d := received[i];
      r := r + [DelegateEntry(d)];
      i := i + 1;
    }
    assert received[..i] == received;
  }

  /** No user id, no profiles. Otherwise the own profile comes first, with the business
      name, subtitle and icon exactly when the customer type is 'business'; at most one
      more profile follows: for a private customer the mother's delegation ('delegate-3',
      present iff the hash is a multiple of 4), for any other type the second company
      ('company-2' with the accountant role, present iff the hash is a multiple of 3). */
  lemma AvailableProfilesShape(userId: string, customerType: string)
    ensures var r := AvailableProfiles(userId, customerType);
      var hash := HashOf(userId);
      (userId == "" <==> r == []) &&
      |r| <= 2 &&
      (userId != "" ==>
        r[0] == SelfEntry(userId, customerType) &&
        (customerType == "private" ==>
          (|r| == 2 <==> hash % 4 == 0) &&
          (|r| == 2 ==> r[1].id == "delegate-3" && r[1].kind == DelegationProfile &&
                        r[1].delegationInfo == Some(MOTHER_DELEGATION))) &&
        (customerType != "private" ==>
          (|r| == 2 <==> hash % 3 == 0) &&
          (|r| == 2 ==> r[1].id == "company-2" && r[1].kind == BusinessProfile &&
                        r[1].role == Some(BUSINESS_ROLES[2]))))
  {
    if userId != "" {
      var hash := HashOf(userId);
      var received := Delegations(userId).receivedFrom;
      var r := AvailableProfiles(userId, customerType);
      assert r[1..] == OtherProfiles(hash, customerType, received);
      DelegationsShape(userId);
      OtherProfilesShape(hash, customerType, received);
    }
  }

  /** The tail of the list for a hash and the received delegations it implies. */
  lemma OtherProfilesShape(hash: nat, customerType: string, received: seq<Delegation>)
    requires received == if hash % 4 == 0 then [MOTHER_DELEGATION] else []
    ensures var t := OtherProfiles(hash, customerType, received);
      |t| <= 1 &&
      (customerType == "private" ==>
        (|t| == 1 <==> hash % 4 == 0) &&
        (|t| == 1 ==> t[0].id == "delegate-3" && t[0].kind == DelegationProfile &&
                      t[0].delegationInfo == Some(MOTHER_DELEGATION))) &&
      (customerType != "private" ==>
        (|t| == 1 <==> hash % 3 == 0) &&
        (|t| == 1 ==> t[0].id == "company-2" && t[0].kind == BusinessProfile &&
                      t[0].role == Some(BUSINESS_ROLES[2])))
  {
    if customerType == "private" && hash % 4 == 0 {
      assert DelegateEntries(received) == [DelegateEntry(MOTHER_DELEGATION)];
      MotherEntryId();
    }
  }

  /** The mother's delegation is listed under the id 'delegate-3'. */
  lemma MotherEntryId()
    ensures DelegateEntry(MOTHER_DELEGATION).id == "delegate-3"
  {
    assert MOTHER_DELEGATION.id == 3;
    assert NatToString(3) == "3";
  }

  /** The own profile: id 'self', and the company's name, 'Din bedrift' and the office icon
      exactly when the customer type is 'business'. */
  lemma SelfEntryShape(userId: string, customerType: string)
    requires userId != ""
    ensures var e := SelfEntry(userId, customerType);
      e.id == "self" && e.kind == SelfProfile &&
      e.delegationInfo.None? && e.role.None? &&
      (e.subtitle == "Din bedrift" <==> customerType == "business") &&
      (e.icon == OFFICE_ICON <==> customerType == "business") &&
      (customerType == "business" ==> e.name == COMPANY_NAMES[HashOf(userId) % 6])
  {
    assert OFFICE_ICON != PERSON_ICON by {
      assert OFFICE_ICON[0] != PERSON_ICON[0];
    }
  }

  /** A private customer's own profile is named after the fixed email's local part,
      'User', and the hash-chosen last name. */
  lemma PrivateSelfName(userId: string, customerType: string)
    requires userId != "" && customerType != "business"
    ensures SelfEntry(userId, customerType).name == "User " + LAST_NAMES[HashOf(userId) % 15]
  {
    FixedUserFullName(ProfileUser(userId));
  }

  lemma FixedUserFullName(u: User)
    requires u.name == "" && u.givenName == "" && u.email == "user@example.com" && u.sub != ""
    ensures GenerateUserProfile(Some(u)).value.fullName == "User " + LAST_NAMES[HashOf(u.sub) % 15]
  {
    UnnamedFullName(u);
    FixedEmailFirstName(u);
  }

  lemma UnnamedFullName(u: User)
    requires u.name == ""
    ensures GenerateUserProfile(Some(u)).value.fullName
      == GetFirstName(Some(u)) + " " + LAST_NAMES[HashOf(ProfileSeed(u)) % 15]
  {
  }

  /** Without a name or given name, the first name of the fixed email is its capitalised
      local part, 'User'. */
  lemma FixedEmailFirstName(u: User)
    requires u.name == "" && u.givenName == "" && u.email == "user@example.com"
    ensures GetFirstName(Some(u)) == "User"
  {
    EmailOnlyFirstName(u);
    FixedEmailLocalPart();
    CapitalizedUser();
  }

  lemma EmailOnlyFirstName(u: User)
    requires u.name == "" && u.givenName == "" && u.email != ""
    ensures GetFirstName(Some(u)) == CapitalizeFirst(Split(u.email, '@')[0])
  {
  }

  lemma FixedEmailLocalPart()
    ensures Split("user@example.com", '@')[0] == "user"
  {
    var email := "user@example.com";
    assert email[..4] == "user";
    SplitHeadAt(email, '@', 4);
  }

  lemma CapitalizedUser()
    ensures CapitalizeFirst("user") == "User"
  {
    assert UpperChar('u') == "U";
  }
}
