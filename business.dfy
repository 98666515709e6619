/** frontend/src/services/business.js: company profiles for business customers and the
    role-based access checks over the roles' permission categories. */
module BusinessService {
  import opened Wrappers
  import opened JsString
  import opened Hash
  import opened MockData

  datatype CompanyAddress = CompanyAddress(street: string, postalCode: string, city: string)

  datatype CompanyProfile = CompanyProfile(
    companyName: string,
    orgNumber: string,
    role: Role,
    address: CompanyAddress,
    employeeCount: nat,
    customerSince: string)

  // ---------------------------------------------------------------------------
  // Company profile
  // ---------------------------------------------------------------------------

  /** The nine-digit organisation number behind a hash, before formatting. */
  function OrgNumberValue(hash: nat): (n: nat)
    ensures 900000000 <= n <= 999999999
  {
    900000000 + hash % 100000000
  }

  /** generateCompanyProfile: null for a missing user id; otherwise every field is picked
      from the tables or bounded by the user's hash. */
  function GenerateCompanyProfile(userId: string): (r: Option<CompanyProfile>)
    ensures userId == "" <==> r.None?
    ensures r.Some? ==>
      var hash := HashOf(userId);
      r.value.companyName == COMPANY_NAMES[hash % 6] &&
      r.value.role == BUSINESS_ROLES[hash % 4] &&
      r.value.address.city == CITIES[hash % 6].city &&
      r.value.address.postalCode == CITIES[hash % 6].postalCode &&
      r.value.address.street == STREET_NAMES[hash % 8] + " " + NatToString(hash % 50 + 1) &&
      10 <= r.value.employeeCount <= 209
  {
    if userId == "" then None
    else
      var hash := HashOf(userId);
      var companyIndex := hash % |COMPANY_NAMES|;
      var roleIndex := hash % |BUSINESS_ROLES|;
      var cityIndex := hash % |CITIES|;
      Some(CompanyProfile(
        COMPANY_NAMES[companyIndex],
        FormatOrgNumber(NatToString(OrgNumberValue(hash))),
        BUSINESS_ROLES[roleIndex],
        CompanyAddress(
          STREET_NAMES[hash % |STREET_NAMES|] + " " + NatToString(hash % 50 + 1),
          CITIES[cityIndex].postalCode,
          CITIES[cityIndex].city),
        hash % 200 + 10,
        NatToString(2010 + hash % 14)))
  }

  /** The organisation number is three groups of three digits separated by single spaces,
      starting with 9, and it reads back as the number it was printed from. */
  lemma CompanyOrgNumberShape(userId: string)
    requires userId != ""
    ensures var org := GenerateCompanyProfile(userId).value.orgNumber;
      var n := OrgNumberValue(HashOf(userId));
      |org| == 11 && org[3] == ' ' && org[7] == ' ' && org[0] == '9' &&
      AllDigits(org[..3]) && AllDigits(org[4..7]) && AllDigits(org[8..]) &&
      org[..3] + org[4..7] + org[8..] == NatToString(n) &&
      DecimalValue(org[..3] + org[4..7] + org[8..]) == n
  {
    var n := OrgNumberValue(HashOf(userId));
    var digits := NatToString(n);
    assert Pow10(8) == 100000000;
    assert Pow10(9) == 1000000000;
    NatToStringLength(n, 9);
    DecimalValueOfNatToString(n);
    LeadingNine(n, 8);
    var org := FormatOrgNumber(digits);
    assert org[..3] == digits[..3];
    assert org[4..7] == digits[3..6];
    assert org[8..] == digits[6..];
  }

  /** The street is one of the street names, a space and a house number in [1, 50]. */
  lemma CompanyStreetFields(userId: string)
    requires userId != ""
    ensures var hash := HashOf(userId);
      var name := STREET_NAMES[hash % 8];
      var street := GenerateCompanyProfile(userId).value.address.street;
      |street| > |name| + 1 && street[..|name|] == name && street[|name|] == ' ' &&
      AllDigits(street[|name| + 1..]) && DecimalValue(street[|name| + 1..]) == hash % 50 + 1 &&
      1 <= DecimalValue(street[|name| + 1..]) <= 50
  {
    var hash := HashOf(userId);
    WordThenNumber(STREET_NAMES[hash % 8], hash % 50 + 1);
  }

  /** A number in [9 * 10^k, 10^(k+1)) prints with a leading '9'. */
  lemma {:induction false} LeadingNine(n: nat, k: nat)
    requires 9 * Pow10(k) <= n < 10 * Pow10(k)
    ensures NatToString(n)[0] == '9'
  {
    if k > 0 {
      var p := Pow10(k - 1);
      assert Pow10(k) == 10 * p;
      assert 9 * p <= n / 10 < 10 * p;
      LeadingNine(n / 10, k - 1);
    }
  }

  /** The customer-since year lies in [2010, 2023] and the employee count in [10, 209]. */
  lemma CompanyYearAndSize(userId: string)
    requires userId != ""
    ensures var c := GenerateCompanyProfile(userId).value;
      AllDigits(c.customerSince) && 2010 <= DecimalValue(c.customerSince) <= 2023 &&
      10 <= c.employeeCount <= 209
  {
    DecimalValueOfNatToString(2010 + HashOf(userId) % 14);
  }

  /** formatOrgNumber: `str.slice(0, 3) + ' ' + str.slice(3, 6) + ' ' + str.slice(6)`.
      Slicing counts characters; the numbers formatted here are ASCII digits, where that
      agrees with counting UTF-16 code units. */
  function FormatOrgNumber(str: string): (r: string)
    ensures |r| == |str| + 2
    ensures |str| >= 6 ==> r[3] == ' ' && r[7] == ' ' && r[..3] + r[4..7] + r[8..] == str
  {
    var r := Slice(str, 0, 3) + " " + Slice(str, 3, 6) + " " + SliceFrom(str, 6);
    if |str| >= 6 then
      assert r[..3] == str[..3] && r[4..7] == str[3..6] && r[8..] == str[6..];
      assert str == str[..3] + str[3..6] + str[6..];
      r
    else r
  }

  /** Whatever the length of the input, the three slices it is cut into put back together
      give the input, and the formatted string is those slices with one space between each. */
  lemma FormatOrgNumberSlices(str: string)
    ensures Slice(str, 0, 3) + Slice(str, 3, 6) + SliceFrom(str, 6) == str
    ensures FormatOrgNumber(str) == Slice(str, 0, 3) + " " + Slice(str, 3, 6) + " " + SliceFrom(str, 6)
  {
    if |str| >= 6 {
      assert str == str[..3] + str[3..6] + str[6..];
    } else if |str| >= 3 {
      assert str == str[..3] + str[3..];
    }
  }

  // ---------------------------------------------------------------------------
  // RBAC
  // ---------------------------------------------------------------------------

  /** `wanted.every(p => held.includes(p))`. */
  function AllIncluded(held: seq<string>, wanted: seq<string>): (r: bool)
    ensures r <==> forall i :: 0 <= i < |wanted| ==> wanted[i] in held
  {
    |wanted| == 0 || (wanted[0] in held && AllIncluded(held, wanted[1..]))
  }

  /** `wanted.some(p => held.includes(p))`. */
  function AnyIncluded(held: seq<string>, wanted: seq<string>): (r: bool)
    ensures r <==> exists i :: 0 <= i < |wanted| && wanted[i] in held
  {
    |wanted| > 0 && (wanted[0] in held || AnyIncluded(held, wanted[1..]))
  }

  /** The role's permission list, or None when the role or its list is missing: the
      shared guard of the three checks. */
  function HeldPermissions(role: Option<Role>): Option<seq<string>> {
    if role.None? then None else role.value.permissions
  }

  /** hasPermission: false without a role or permission list, else membership. */
  function HasPermission(role: Option<Role>, permissionType: string): (r: bool)
    ensures HeldPermissions(role).None? ==> !r
    ensures HeldPermissions(role).Some? ==> (r <==> permissionType in HeldPermissions(role).value)
  {
    if role.None? || role.value.permissions.None? then false
    else permissionType in role.value.permissions.value
  }

  /** hasAllPermissions: false without a role or permission list, else every wanted
      permission is held. */
  function HasAllPermissions(role: Option<Role>, permissionTypes: seq<string>): (r: bool)
    ensures HeldPermissions(role).None? ==> !r
    ensures HeldPermissions(role).Some? ==>
      (r <==> forall i :: 0 <= i < |permissionTypes| ==> HasPermission(role, permissionTypes[i]))
  {
    if role.None? || role.value.permissions.None? then false
    else AllIncluded(role.value.permissions.value, permissionTypes)
  }

  /** hasAnyPermission: false without a role or permission list, else some wanted
      permission is held. */
  function HasAnyPermission(role: Option<Role>, permissionTypes: seq<string>): (r: bool)
    ensures HeldPermissions(role).None? ==> !r
    ensures HeldPermissions(role).Some? ==>
      (r <==> exists i :: 0 <= i < |permissionTypes| && HasPermission(role, permissionTypes[i]))
  {
    if role.None? || role.value.permissions.None? then false
    else AnyIncluded(role.value.permissions.value, permissionTypes)
  }

  /** For a role with a permission list: asking for nothing is always all-granted and never
      any-granted, for a non-empty request all implies any, and a one-element request is
      the single check. */
  lemma PermissionChecksAgree(role: Option<Role>, permissionTypes: seq<string>, p: string)
    requires HeldPermissions(role).Some?
    ensures HasAllPermissions(role, [])
    ensures !HasAnyPermission(role, [])
    ensures |permissionTypes| > 0 && HasAllPermissions(role, permissionTypes) ==> HasAnyPermission(role, permissionTypes)
    ensures HasAllPermissions(role, [p]) == HasPermission(role, p) == HasAnyPermission(role, [p])
  {
    if |permissionTypes| > 0 && HasAllPermissions(role, permissionTypes) {
      assert HasPermission(role, permissionTypes[0]);
    }
    assert [p][0] == p;
  }

  /** 'daglig_leder' passes every check on known categories; 'regnskapsforer' only 'ting'. */
  lemma TableRolesAccess(p: string)
    ensures IsPermission(p) ==> HasPermission(Some(BUSINESS_ROLES[0]), p)
    ensures HasPermission(Some(BUSINESS_ROLES[2]), p) <==> p == "ting"
  {
  }

  /** `BUSINESS_ROLES.find(r => r.id === roleId)` over any list of roles: the first role
      carrying the id, or None when no role does. */
  function FindRole(roles: seq<Role>, roleId: string): (r: Option<Role>)
    ensures r.None? <==> forall i :: 0 <= i < |roles| ==> roles[i].id != roleId
    ensures r.Some? ==> exists i :: 0 <= i < |roles| && roles[i] == r.value &&
                                  r.value.id == roleId && (forall j :: 0 <= j < i ==> roles[j].id != roleId)
  {
    if |roles| == 0 then None
    else if roles[0].id == roleId then Some(roles[0])
    else
      var r := FindRole(roles[1..], roleId);
      if r.Some? then
        ghost var i :| 0 <= i < |roles[1..]| && roles[1..][i] == r.value && r.value.id == roleId &&
          forall j :: 0 <= j < i ==> roles[1..][j].id != roleId;
        assert roles[i + 1] == r.value;
        r
      else r
  }

  /** getRoleById. */
  function GetRoleById(roleId: string): (r: Option<Role>)
    ensures r.Some? ==> r.value.id == roleId && r.value in BUSINESS_ROLES
    ensures r.None? <==> forall i :: 0 <= i < |BUSINESS_ROLES| ==> BUSINESS_ROLES[i].id != roleId
  {
    FindRole(BUSINESS_ROLES, roleId)
  }

  /** Every table role is found by its own id. */
  lemma GetRoleByIdFindsEachRole(i: nat)
    requires i < |BUSINESS_ROLES|
    ensures GetRoleById(BUSINESS_ROLES[i].id) == Some(BUSINESS_ROLES[i])
  {
    RolesWellFormed();
    var r := GetRoleById(BUSINESS_ROLES[i].id);
    var k :| 0 <= k < |BUSINESS_ROLES| && BUSINESS_ROLES[k] == r.value && r.value.id == BUSINESS_ROLES[i].id &&
      forall j :: 0 <= j < k ==> BUSINESS_ROLES[j].id != BUSINESS_ROLES[i].id;
    assert k == i;
  }

  // ---------------------------------------------------------------------------
  // Access descriptions
  // ---------------------------------------------------------------------------

  /** The label table inside getRoleAccessDescription; None for any other key. */
  function PermissionLabel(p: string): (r: Option<string>)
    ensures r.Some? <==> IsPermission(p)
  {
    if p == "ting" then Some("Tingforsikringer")
    else if p == "person" then Some("Personforsikringer")
    else if p == "pensjon" then Some("Pensjon")
    else None
  }

  /** `permissions.map(p => permissionLabels[p]).filter(Boolean)`: the labels of the known
      permissions, in the order of the list (AccessLabelsAppend and AccessLabelsSingle pin
      the order); unknown permissions are dropped. */
  function AccessLabels(permissions: seq<string>): (labels: seq<string>)
    ensures |labels| <= |permissions|
    ensures forall j :: 0 <= j < |labels| ==>
      exists i :: 0 <= i < |permissions| && PermissionLabel(permissions[i]) == Some(labels[j])
    ensures forall i :: 0 <= i < |permissions| && IsPermission(permissions[i]) ==>
      PermissionLabel(permissions[i]).value in labels
    ensures labels == [] <==> forall i :: 0 <= i < |permissions| ==> !IsPermission(permissions[i])
    ensures (forall i :: 0 <= i < |permissions| ==> IsPermission(permissions[i])) ==>
      |labels| == |permissions| &&
      forall i :: 0 <= i < |permissions| ==> Some(labels[i]) == PermissionLabel(permissions[i])
  {
    if |permissions| == 0 then []
    else
      var rest := AccessLabels(permissions[1..]);
      assert forall i :: 1 <= i < |permissions| ==> permissions[i] == permissions[1..][i - 1];
      match PermissionLabel(permissions[0])
      case Some(text) => [text] + rest
      case None => rest
  }

  /** Labelling one permission gives its label, or nothing for an unknown one. */
  lemma AccessLabelsSingle(p: string)
    ensures AccessLabels([p]) == if IsPermission(p) then [PermissionLabel(p).value] else []
  {
    assert [p][1..] == [];
  }

  /** Labelling distributes over concatenation: with AccessLabelsSingle this fixes the
      labels of any list, one permission at a time, in order. */
  lemma {:induction false} AccessLabelsAppend(a: seq<string>, b: seq<string>)
    ensures AccessLabels(a + b) == AccessLabels(a) + AccessLabels(b)
  {
    if |a| == 0 {
      assert a + b == b;
    } else {
      assert (a + b)[0] == a[0];
      assert (a + b)[1..] == a[1..] + b;
      AccessLabelsAppend(a[1..], b);
    }
  }

  /** getRoleAccessDescription: '' without a role, else the known labels joined by ", ".
      The source reads `role.permissions.map` unguarded, so a role must carry a list. */
  function GetRoleAccessDescription(role: Option<Role>): (r: string)
    requires role.Some? ==> role.value.permissions.Some?
    ensures role.None? ==> r == ""
    ensures role.Some? ==> r == Join(AccessLabels(role.value.permissions.value), ", ")
    ensures role.Some? ==>
      var perms := role.value.permissions.value;
      (r == "" <==> forall i :: 0 <= i < |perms| ==> !IsPermission(perms[i])) &&
      (forall i :: 0 <= i < |perms| && IsPermission(perms[i]) &&
                   (forall j :: 0 <= j < i ==> !IsPermission(perms[j])) ==>
         |r| >= |PermissionLabel(perms[i]).value| &&
         r[..|PermissionLabel(perms[i]).value|] == PermissionLabel(perms[i]).value)
  {
    if role.None? then ""
    else
      var perms := role.value.permissions.value;
      var labels := AccessLabels(perms);
      assert labels != [] ==> labels[0] != "" by {
        if labels != [] {
          var i :| 0 <= i < |perms| && PermissionLabel(perms[i]) == Some(labels[0]);
        }
      }
      FirstLabelLeads(perms);
      Join(labels, ", ")
  }

  /** The first known permission's label is the first label. */
  lemma FirstLabelLeads(perms: seq<string>)
    ensures forall i :: 0 <= i < |perms| && IsPermission(perms[i]) &&
                        (forall j :: 0 <= j < i ==> !IsPermission(perms[j])) ==>
      |AccessLabels(perms)| > 0 && AccessLabels(perms)[0] == PermissionLabel(perms[i]).value
  {
    forall i | 0 <= i < |perms| && IsPermission(perms[i]) && (forall j :: 0 <= j < i ==> !IsPermission(perms[j]))
      ensures |AccessLabels(perms)| > 0 && AccessLabels(perms)[0] == PermissionLabel(perms[i]).value
    {
      assert perms == perms[..i] + ([perms[i]] + perms[i + 1..]);
      AccessLabelsAppend(perms[..i], [perms[i]] + perms[i + 1..]);
      AccessLabelsAppend([perms[i]], perms[i + 1..]);
      AccessLabelsSingle(perms[i]);
      assert AccessLabels(perms[..i]) == [];
    }
  }

  /** Describing a list followed by one more permission: a known one adds ", " and its
      label (or just its label after nothing known), an unknown one adds nothing. */
  lemma DescriptionSnoc(perms: seq<string>, p: string)
    ensures var before := Join(AccessLabels(perms), ", ");
      var after := Join(AccessLabels(perms + [p]), ", ");
      (!IsPermission(p) ==> after == before) &&
      (IsPermission(p) && before == "" ==> after == PermissionLabel(p).value) &&
      (IsPermission(p) && before != "" ==> after == before + ", " + PermissionLabel(p).value)
  {
    AccessLabelsAppend(perms, [p]);
    AccessLabelsSingle(p);
    var labels := AccessLabels(perms);
    if IsPermission(p) {
      if labels == [] {
        assert labels + [PermissionLabel(p).value] == [PermissionLabel(p).value];
      } else {
        JoinAppend(labels, [PermissionLabel(p).value], ", ");
      }
    } else {
      assert labels + [] == labels;
    }
  }

  /** Two known permissions are described as their labels joined by ", ". */
  lemma TwoKnownDescription(p: string, q: string)
    requires IsPermission(p) && IsPermission(q)
    ensures Join(AccessLabels([p, q]), ", ") == PermissionLabel(p).value + ", " + PermissionLabel(q).value
  {
    var lp, lq := PermissionLabel(p).value, PermissionLabel(q).value;
    assert [p] + [q] == [p, q];
    AccessLabelsAppend([p], [q]);
    AccessLabelsSingle(p);
    AccessLabelsSingle(q);
    assert AccessLabels([p, q]) == [lp] + [lq];
    JoinAppend([lp], [lq], ", ");
  }

  /** A role holding two known permissions is described by their two labels. */
  lemma TwoKnownRoleDescription(role: Role, p: string, q: string)
    requires role.permissions == Some([p, q]) && IsPermission(p) && IsPermission(q)
    ensures GetRoleAccessDescription(Some(role)) == PermissionLabel(p).value + ", " + PermissionLabel(q).value
  {
    TwoKnownDescription(p, q);
  }

  /** 'hr_ansvarlig' is described by its two categories. */
  lemma HrDescription()
    ensures GetRoleAccessDescription(Some(BUSINESS_ROLES[1])) == "Personforsikringer" + ", " + "Pensjon"
  {
    TwoKnownRoleDescription(BUSINESS_ROLES[1], "person", "pensjon");
  }

  /** 'regnskapsforer' is described by its one category. */
  lemma AccountantDescription()
    ensures GetRoleAccessDescription(Some(BUSINESS_ROLES[2])) == "Tingforsikringer"
  {
    var role := BUSINESS_ROLES[2];
    assert role.permissions == Some(["ting"]);
    AccessLabelsSingle("ting");
  }

  /** 'okonomisjef' is described by its two categories. */
  lemma FinanceDescription()
    ensures GetRoleAccessDescription(Some(BUSINESS_ROLES[3])) == "Tingforsikringer" + ", " + "Pensjon"
  {
    TwoKnownRoleDescription(BUSINESS_ROLES[3], "ting", "pensjon");
  }

  /** The labels of 'daglig_leder' are all three categories in table order. */
  lemma ManagerLabels()
    ensures AccessLabels(BUSINESS_ROLES[0].permissions.value) == ["Tingforsikringer", "Personforsikringer", "Pensjon"]
  {
    var perms := BUSINESS_ROLES[0].permissions.value;
    assert perms[2..] == ["pensjon"];
    assert AccessLabels(perms[2..]) == ["Pensjon"];
    assert perms[1..] == ["person", "pensjon"];
    assert AccessLabels(perms[1..]) == ["Personforsikringer", "Pensjon"];
  }

  /** The description of 'daglig_leder' names all three categories. */
  lemma ManagerDescription()
    ensures GetRoleAccessDescription(Some(BUSINESS_ROLES[0])) == "Tingforsikringer" + ", " + "Personforsikringer" + ", " + "Pensjon"
  {
    ManagerLabels();
    JoinThree("Tingforsikringer", "Personforsikringer", "Pensjon", ", ");
  }

  // ---------------------------------------------------------------------------
  // Permission categories
  // ---------------------------------------------------------------------------

  datatype PermissionCategory = PermissionCategory(id: string, labelText: string, description: string, icon: string)

  const PERMISSION_CATEGORIES: map<string, PermissionCategory> := map[
    "ting" := PermissionCategory("ting", "Tingforsikringer",
                                 "Forsikringer for eiendeler (bil, hus, b\U{00E5}t, etc.)", "\U{1F3E0}"),
    "person" := PermissionCategory("person", "Personforsikringer",
                                   "Forsikringer for ansatte (yrkesskade, helse, etc.)", "\U{1F464}"),
    "pensjon" := PermissionCategory("pensjon", "Pensjon", "Pensjonsordninger og -avtaler", "\U{1F4B0}")
  ]

  /** getPermissionCategory: the category entry for a known permission, carrying the same
      label getRoleAccessDescription prints for it. */
  function GetPermissionCategory(categoryId: string): (r: Option<PermissionCategory>)
    ensures r.Some? <==> IsPermission(categoryId)
    ensures r.Some? ==> r.value.id == categoryId && Some(r.value.labelText) == PermissionLabel(categoryId)
  {
    if categoryId in PERMISSION_CATEGORIES then Some(PERMISSION_CATEGORIES[categoryId]) else None
  }
}
