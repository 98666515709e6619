/** frontend/src/services/insurance.js: the deterministic insurance generators, RBAC
    filtering, grouping, premium totals and status badges. */
module InsuranceService {
  import opened Wrappers
  import opened Seqs
  import opened JsString
  import opened Hash
  import opened MockData

  /** One generated insurance. `typeName` is the source's `type`; an absent category is "". */
  datatype Insurance = Insurance(
    id: nat,
    typeName: string,
    icon: string,
    policyNumber: string,
    status: string,
    validUntil: string,
    premium: string,
    category: string)

  // ---------------------------------------------------------------------------
  // Shared record layout
  // ---------------------------------------------------------------------------

  /** The month of record `i`, shared by both generators. */
  function Month(hash: nat, i: nat): (m: nat)
    ensures 1 <= m <= 12
  {
    (hash + i) % 12 + 1
  }

  /** The five-digit policy number of record `i`, shared by both generators. */
  function PolicyNum(hash: nat, i: nat): (p: nat)
    ensures 10000 <= p <= 99999
  {
    (hash * (i + 1)) % 90000 + 10000
  }

  /** The record both generators push: `PREFIX-year-policyNum`, status 'Aktiv', valid until
      the first of `month` the following year, and `premium` printed as "N kr/mnd". */
  function MakeInsurance(i: nat, t: InsuranceType, year: nat, month: nat, policyNum: nat, monthly: nat): Insurance {
    Insurance(
      i + 1,
      t.typeName,
      t.icon,
      t.prefix + "-" + NatToString(year) + "-" + NatToString(policyNum),
      "Aktiv",
      NatToString(year + 1) + "-" + PadStart2(NatToString(month)) + "-01",
      NatToString(monthly) + " kr/mnd",
      t.category)
  }

  // ---------------------------------------------------------------------------
  // Private insurances
  // ---------------------------------------------------------------------------

  function UserInsuranceCount(hash: nat): (n: nat)
    ensures 1 <= n <= 4
  {
    hash % 4 + 1
  }

  function UserTypeIndex(hash: nat, i: nat): (k: nat)
    ensures k < |INSURANCE_TYPES|
  {
    (hash + i * 7) % |INSURANCE_TYPES|
  }

  function UserYear(hash: nat): (y: nat)
    ensures y == 2024 || y == 2025
  {
    2024 + hash % 2
  }

  function UserMonthlyPremium(hash: nat, i: nat): (p: nat)
    ensures 500 <= p <= 5499
  {
    (hash + i * 1000) % 5000 + 500
  }

  function UserInsurance(hash: nat, i: nat): Insurance {
    MakeInsurance(i, INSURANCE_TYPES[UserTypeIndex(hash, i)], UserYear(hash), Month(hash, i),
                  PolicyNum(hash, i), UserMonthlyPremium(hash, i))
  }

  /** The list `generateUserInsurances(userId)` returns. */
  function UserInsurances(userId: string): seq<Insurance> {
    if userId == "" then [] else UserInsurancesFor(HashOf(userId))
  }

  /** Record `i` of the list behind a hash, as a function of `i`. */
  function UserRecord(hash: nat): nat -> Insurance {
    (j: nat) => UserInsurance(hash, j)
  }

  /** The private records behind a hash. */
  function UserInsurancesFor(hash: nat): seq<Insurance> {
    Tabulate(UserRecord(hash), UserInsuranceCount(hash))
  }

  /** generateUserInsurances: the loop that pushes one record per index. */
  method GenerateUserInsurances(userId: string) returns (insurances: seq<Insurance>)
    ensures insurances == UserInsurances(userId)
  {
    if userId == "" {
      return [];
    }
    var hash := HashCode(userId);
    insurances := PushUserInsurances(hash);
  }

  /** The loop of generateUserInsurances: `(hash % 4) + 1` records pushed in index order. */
  method PushUserInsurances(hash: nat) returns (insurances: seq<Insurance>)
    ensures insurances == UserInsurancesFor(hash)
  {
    var numInsurances := hash % 4 + 1;
    insurances := PushEach(UserRecord(hash), numInsurances);
  }

  /** A private customer gets one to four insurances (none without an id), numbered from 1,
      each of the private type at `(hash + 7i) % 7`, all 'Aktiv', with a monthly premium
      that reads back in [500, 5499]. */
  lemma UserInsurancesShape(userId: string)
    ensures var s := UserInsurances(userId);
      (userId == "" <==> s == []) && |s| <= 4 &&
      forall i :: 0 <= i < |s| ==>
        s[i].id == i + 1 && s[i].status == "Aktiv" &&
        s[i].typeName == INSURANCE_TYPES[(HashOf(userId) + i * 7) % 7].typeName &&
        s[i].category == INSURANCE_TYPES[(HashOf(userId) + i * 7) % 7].category &&
        MonthlyPremium(s[i].premium).Some? &&
        500 <= MonthlyPremium(s[i].premium).value <= 5499
  {
    var s := UserInsurances(userId);
    forall k | 0 <= k < |s| {
      UserInsuranceFields(HashOf(userId), k);
    }
  }

  lemma UserInsuranceFields(hash: nat, i: nat)
    ensures var r := UserInsurance(hash, i);
      r.id == i + 1 && r.status == "Aktiv" &&
      r.typeName == INSURANCE_TYPES[(hash + i * 7) % 7].typeName &&
      r.category == INSURANCE_TYPES[(hash + i * 7) % 7].category &&
      MonthlyPremium(r.premium) == Some(UserMonthlyPremium(hash, i))
  {
    assert |INSURANCE_TYPES| == 7;
    MonthlyPremiumOfPrinted(UserMonthlyPremium(hash, i));
  }

  // ---------------------------------------------------------------------------
  // Business insurances
  // ---------------------------------------------------------------------------

  function BusinessInsuranceCount(hash: nat): (n: nat)
    ensures 2 <= n <= 5
  {
    hash % 4 + 2
  }

  function BusinessTypeIndex(hash: nat, i: nat): (k: nat)
    ensures k < |BUSINESS_INSURANCE_TYPES|
  {
    (hash + i * 5) % |BUSINESS_INSURANCE_TYPES|
  }

  function BusinessMonthlyPremium(hash: nat, i: nat): (p: nat)
    ensures 2000 <= p <= 16999
  {
    (hash + i * 2000) % 15000 + 2000
  }

  function BusinessInsurance(hash: nat, i: nat): Insurance {
    MakeInsurance(i, BUSINESS_INSURANCE_TYPES[BusinessTypeIndex(hash, i)], 2024, Month(hash, i),
                  PolicyNum(hash, i), BusinessMonthlyPremium(hash, i))
  }

  /** The list `generateBusinessInsurances(companyId)` returns. */
  function BusinessInsurances(companyId: string): seq<Insurance> {
    if companyId == "" then [] else BusinessInsurancesFor(HashOf(companyId))
  }

  /** Record `i` of the list behind a hash, as a function of `i`. */
  function BusinessRecord(hash: nat): nat -> Insurance {
    (j: nat) => BusinessInsurance(hash, j)
  }

  /** The business records behind a hash. */
  function BusinessInsurancesFor(hash: nat): seq<Insurance> {
    Tabulate(BusinessRecord(hash), BusinessInsuranceCount(hash))
  }

  /** generateBusinessInsurances: the loop that pushes one record per index. */
  method GenerateBusinessInsurances(companyId: string) returns (insurances: seq<Insurance>)
    ensures insurances == BusinessInsurances(companyId)
  {
    if companyId == "" {
      return [];
    }
    var hash := HashCode(companyId);
    insurances := PushBusinessInsurances(hash);
  }

  /** The loop of generateBusinessInsurances: `(hash % 4) + 2` records pushed in index order. */
  method PushBusinessInsurances(hash: nat) returns (insurances: seq<Insurance>)
    ensures insurances == BusinessInsurancesFor(hash)
  {
    var numInsurances := hash % 4 + 2;
    insurances := PushEach(BusinessRecord(hash), numInsurances);
  }

  /** A company gets two to five insurances (none without an id), numbered from 1, of the
      business type at `(hash + 5i) % 6`, all 'Aktiv', with a monthly premium that reads back
      in [2000, 16999]. */
  lemma BusinessInsurancesShape(companyId: string)
    ensures var s := BusinessInsurances(companyId);
      (companyId == "" ==> s == []) && (companyId != "" ==> 2 <= |s| <= 5) &&
      forall i :: 0 <= i < |s| ==>
        s[i].id == i + 1 && s[i].status == "Aktiv" &&
        s[i].typeName == BUSINESS_INSURANCE_TYPES[(HashOf(companyId) + i * 5) % 6].typeName &&
        s[i].category == BUSINESS_INSURANCE_TYPES[(HashOf(companyId) + i * 5) % 6].category &&
        MonthlyPremium(s[i].premium).Some? &&
        2000 <= MonthlyPremium(s[i].premium).value <= 16999
  {
    var s := BusinessInsurances(companyId);
    forall k | 0 <= k < |s| {
      BusinessInsuranceFields(HashOf(companyId), k);
    }
  }

  lemma BusinessInsuranceFields(hash: nat, i: nat)
    ensures var r := BusinessInsurance(hash, i);
      r.id == i + 1 && r.status == "Aktiv" &&
      r.typeName == BUSINESS_INSURANCE_TYPES[(hash + i * 5) % 6].typeName &&
      r.category == BUSINESS_INSURANCE_TYPES[(hash + i * 5) % 6].category &&
      MonthlyPremium(r.premium) == Some(BusinessMonthlyPremium(hash, i))
  {
    assert |BUSINESS_INSURANCE_TYPES| == 6;
    MonthlyPremiumOfPrinted(BusinessMonthlyPremium(hash, i));
  }

  // ---------------------------------------------------------------------------
  // Filtering by RBAC permissions
  // ---------------------------------------------------------------------------

  /** filterInsurancesByPermissions: nothing when either list is missing; otherwise, in their
      original order, exactly the insurances whose category the permissions include. */
  function FilterInsurancesByPermissions(insurances: Option<seq<Insurance>>, permissions: Option<seq<string>>)
    : (r: seq<Insurance>)
    ensures insurances.None? || permissions.None? ==> r == []
    ensures insurances.Some? && permissions.Some? ==>
      |r| <= |insurances.value| &&
      (forall i :: 0 <= i < |r| ==> r[i] in insurances.value && r[i].category in permissions.value) &&
      (forall i :: 0 <= i < |insurances.value| && insurances.value[i].category in permissions.value ==>
        insurances.value[i] in r)
  {
    if insurances.None? || permissions.None? then []
    else Filter((ins: Insurance) => ins.category in permissions.value, insurances.value)
  }

  /** Filtering works insurance by insurance: the filter of a concatenation is the
      concatenation of the filters, so the relative order is kept. */
  lemma FilterByPermissionsConcat(a: seq<Insurance>, b: seq<Insurance>, permissions: seq<string>)
    ensures FilterInsurancesByPermissions(Some(a + b), Some(permissions))
         == FilterInsurancesByPermissions(Some(a), Some(permissions))
          + FilterInsurancesByPermissions(Some(b), Some(permissions))
  {
    FilterAppend((ins: Insurance) => ins.category in permissions, a, b);
  }

  /** A role holding every category the list uses sees the whole list; one holding none sees nothing. */
  lemma FilterByPermissionsExtremes(s: seq<Insurance>, permissions: seq<string>)
    ensures (forall i :: 0 <= i < |s| ==> s[i].category in permissions) ==>
      FilterInsurancesByPermissions(Some(s), Some(permissions)) == s
    ensures (forall i :: 0 <= i < |s| ==> s[i].category !in permissions) ==>
      FilterInsurancesByPermissions(Some(s), Some(permissions)) == []
  {
    var p := (ins: Insurance) => ins.category in permissions;
    if forall i :: 0 <= i < |s| ==> s[i].category in permissions {
      FilterKeepsAll(p, s);
    }
    if forall i :: 0 <= i < |s| ==> s[i].category !in permissions {
      FilterDropsAll(p, s);
    }
  }

  // ---------------------------------------------------------------------------
  // Grouping by category
  // ---------------------------------------------------------------------------

  /** `insurance.category || 'other'`. */
  function CategoryKey(ins: Insurance): (k: string)
    ensures k != ""
    ensures ins.category != "" ==> k == ins.category
  {
    if ins.category != "" then ins.category else "other"
  }

  /** The insurances filed under `key`, in list order. */
  function InCategory(s: seq<Insurance>, key: string): seq<Insurance> {
    Filter((ins: Insurance) => CategoryKey(ins) == key, s)
  }

  function CategoryKeys(s: seq<Insurance>): set<string> {
    set i | 0 <= i < |s| :: CategoryKey(s[i])
  }

  lemma CategoryKeysSnoc(s: seq<Insurance>, x: Insurance)
    ensures CategoryKeys(s + [x]) == CategoryKeys(s) + {CategoryKey(x)}
  {
    var t := s + [x];
    forall k | k in CategoryKeys(t) ensures k in CategoryKeys(s) + {CategoryKey(x)} {
      var i :| 0 <= i < |t| && CategoryKey(t[i]) == k;
      if i < |s| { assert t[i] == s[i]; }
    }
    forall k | k in CategoryKeys(s) ensures k in CategoryKeys(t) {
      var i :| 0 <= i < |s| && CategoryKey(s[i]) == k;
      assert t[i] == s[i];
    }
    assert t[|s|] == x;
  }

  lemma InCategorySnoc(s: seq<Insurance>, x: Insurance, key: string)
    ensures InCategory(s + [x], key) == InCategory(s, key) + (if CategoryKey(x) == key then [x] else [])
  {
    FilterAppend((ins: Insurance) => CategoryKey(ins) == key, s, [x]);
  }

  lemma InCategoryAbsent(s: seq<Insurance>, key: string)
    requires key !in CategoryKeys(s)
    ensures InCategory(s, key) == []
  {
    forall i | 0 <= i < |s| ensures CategoryKey(s[i]) != key {
      assert CategoryKey(s[i]) in CategoryKeys(s);
    }
    FilterDropsAll((ins: Insurance) => CategoryKey(ins) == key, s);
  }

  /** groupInsurancesByCategory: `{}` for a missing list; otherwise one group per category
      key that occurs (an empty category counts as 'other'), each group holding exactly the
      insurances of that key in list order. */
  method GroupInsurancesByCategory(insurances: Option<seq<Insurance>>) returns (groups: map<string, seq<Insurance>>)
    ensures insurances.None? ==> groups == map[]
    ensures insurances.Some? ==> groups.Keys == CategoryKeys(insurances.value)
    ensures insurances.Some? ==>
      forall key :: key in groups ==> groups[key] == InCategory(insurances.value, key)
  {
    if insurances.None? {
      return map[];
    }
    var s := insurances.value;
    groups := map[];
    var i := 0;
    while i < |s|
      invariant 0 <= i <= |s|
      invariant groups.Keys == CategoryKeys(s[..i])
      invariant forall key :: key in groups ==> groups[key] == InCategory(s[..i], key)
    {
      var insurance := s[i];
      ghost var before := groups;
      var category := if insurance.category != "" then insurance.category else "other";
      if category !in groups {
        groups := groups[category := []];
      }
      groups := groups[category := groups[category] + [insurance]];
      GroupStep(before, s[..i], insurance);
      assert s[..i + 1] == s[..i] + [insurance];
      i := i + 1;
    }
    assert s[..i] == s;
  }

  /** One step of the reduce: adding an insurance to the groups of a prefix gives the
      groups of the longer prefix. */
  lemma GroupStep(groups: map<string, seq<Insurance>>, prefix: seq<Insurance>, x: Insurance)
    requires groups.Keys == CategoryKeys(prefix)
    requires forall key :: key in groups ==> groups[key] == InCategory(prefix, key)
    ensures var c := CategoryKey(x);
      var next := groups[c := (if c in groups then groups[c] else []) + [x]];
      next.Keys == CategoryKeys(prefix + [x]) &&
      forall key :: key in next ==> next[key] == InCategory(prefix + [x], key)
  {
    var c := CategoryKey(x);
    var next := groups[c := (if c in groups then groups[c] else []) + [x]];
    if c !in groups {
      InCategoryAbsent(prefix, c);
    }
    CategoryKeysSnoc(prefix, x);
    forall key | key in next ensures next[key] == InCategory(prefix + [x], key) {
      InCategorySnoc(prefix, x, key);
    }
  }

  /** The order in which the reduce first meets each category key: the key order of the
      object it builds. */
  function CategoryOrder(s: seq<Insurance>): seq<string> {
    if |s| == 0 then []
    else
      var order := CategoryOrder(s[..|s| - 1]);
      if CategoryKey(s[|s| - 1]) in order then order else order + [CategoryKey(s[|s| - 1])]
  }

  predicate Distinct(keys: seq<string>) {
    forall i, j :: 0 <= i < j < |keys| ==> keys[i] != keys[j]
  }

  /** The key order lists every category key once. */
  lemma {:induction false} CategoryOrderKeys(s: seq<Insurance>)
    ensures Distinct(CategoryOrder(s))
    ensures forall k :: k in CategoryOrder(s) <==> k in CategoryKeys(s)
  {
    if |s| > 0 {
      var init := s[..|s| - 1];
      var x := s[|s| - 1];
      CategoryOrderKeys(init);
      assert s == init + [x];
      CategoryKeysSnoc(init, x);
    }
  }

  /** The total size of the groups named by `keys`. */
  function GroupSizes(keys: seq<string>, s: seq<Insurance>): nat {
    if |keys| == 0 then 0 else |InCategory(s, keys[0])| + GroupSizes(keys[1..], s)
  }

  lemma {:induction false} GroupSizesSnoc(keys: seq<string>, s: seq<Insurance>, x: Insurance)
    requires Distinct(keys)
    ensures GroupSizes(keys, s + [x]) == GroupSizes(keys, s) + (if CategoryKey(x) in keys then 1 else 0)
  {
    if |keys| > 0 {
      InCategorySnoc(s, x, keys[0]);
      assert Distinct(keys[1..]);
      GroupSizesSnoc(keys[1..], s, x);
      assert keys == [keys[0]] + keys[1..];
    }
  }

  lemma {:induction false} GroupSizesAppendKey(keys: seq<string>, key: string, s: seq<Insurance>)
    ensures GroupSizes(keys + [key], s) == GroupSizes(keys, s) + |InCategory(s, key)|
  {
    if |keys| > 0 {
      assert (keys + [key])[1..] == keys[1..] + [key];
      GroupSizesAppendKey(keys[1..], key, s);
    }
  }

  /** Grouping loses and duplicates nothing: the group sizes add up to the list length. */
  lemma {:induction false} GroupSizesSumToLength(s: seq<Insurance>)
    ensures GroupSizes(CategoryOrder(s), s) == |s|
  {
    if |s| > 0 {
      var init := s[..|s| - 1];
      var x := s[|s| - 1];
      var kx := CategoryKey(x);
      assert s == init + [x];
      var order := CategoryOrder(init);
      GroupSizesSumToLength(init);
      CategoryOrderKeys(init);
      GroupSizesSnoc(order, init, x);
      if kx !in order {
        GroupSizesAppendKey(order, kx, s);
        InCategorySnoc(init, x, kx);
        InCategoryAbsent(init, kx);
      }
    }
  }

  // ---------------------------------------------------------------------------
  // Premium totals
  // ---------------------------------------------------------------------------

  /** The length of the run of `\d` at the front of `s`. */
  function DigitRun(s: string): (n: nat)
    ensures n <= |s| && AllDigits(s[..n])
    ensures n < |s| ==> !IsDigit(s[n])
  {
    if |s| > 0 && IsDigit(s[0]) then
      var n := 1 + DigitRun(s[1..]);
      assert s[..n] == [s[0]] + s[1..][..n - 1];
      n
    else 0
  }

  /** The length of the run of `\s` at the front of `s`. */
  function SpaceRun(s: string): (n: nat)
    ensures n <= |s|
    ensures forall i :: 0 <= i < n ==> IsJsSpace(s[i])
    ensures n < |s| ==> !IsJsSpace(s[n])
  {
    if |s| > 0 && IsJsSpace(s[0]) then 1 + SpaceRun(s[1..]) else 0
  }

  /** The value of the capture group when `/(\d+)\s*kr\/mnd/` matches at the very start of
      `s`. The greedy runs never need to give back a character: a digit can match neither
      `\s` nor `k`, and whitespace cannot match `k`, so a shorter run cannot succeed where the
      longest one fails. */
  function MatchAt(s: string): Option<nat> {
    var d := DigitRun(s);
    var rest := s[d..];
    var w := SpaceRun(rest);
    if d > 0 && w + 6 <= |rest| && rest[w..w + 6] == "kr/mnd" then Some(DecimalValue(s[..d])) else None
  }

  /** `parseInt(premium.match(/(\d+)\s*kr\/mnd/)[1], 10)`: the leftmost match, or None when
      the expression does not match anywhere. */
  function MonthlyPremium(premium: string): Option<nat> {
    if |premium| == 0 then None
    else if MatchAt(premium).Some? then MatchAt(premium)
    else MonthlyPremium(premium[1..])
  }

  lemma {:induction false} DigitRunOfDigits(digits: string, tail: string)
    requires AllDigits(digits)
    requires |tail| > 0 && !IsDigit(tail[0])
    ensures DigitRun(digits + tail) == |digits|
  {
    if |digits| > 0 {
      assert (digits + tail)[1..] == digits[1..] + tail;
      DigitRunOfDigits(digits[1..], tail);
    }
  }

  /** A premium printed as `${n} kr/mnd` reads back as `n`. */
  lemma MonthlyPremiumOfPrinted(n: nat)
    ensures MonthlyPremium(NatToString(n) + " kr/mnd") == Some(n)
  {
    var digits := NatToString(n);
    var s := digits + " kr/mnd";
    DigitRunOfDigits(digits, " kr/mnd");
    var rest := s[|digits|..];
    assert rest == " kr/mnd";
    assert rest[1..] == "kr/mnd";
    assert SpaceRun(rest[1..]) == 0;
    assert SpaceRun(rest) == 1;
    assert rest[1..7] == "kr/mnd";
    assert s[..|digits|] == digits;
    DecimalValueOfNatToString(n);
    assert MatchAt(s) == Some(n);
  }

  /** The reduce over the list: twelve times each matched monthly premium, 0 for entries
      that do not match. */
  function AnnualSum(insurances: seq<Insurance>): nat {
    if |insurances| == 0 then 0
    else
      var total := AnnualSum(insurances[..|insurances| - 1]);
      match MonthlyPremium(insurances[|insurances| - 1].premium)
      case Some(monthly) => total + monthly * 12
      case None => total
  }

  /** calculateTotalAnnualPremium: 0 for a missing list. */
  function CalculateTotalAnnualPremium(insurances: Option<seq<Insurance>>): (total: nat)
    ensures insurances.None? ==> total == 0
    ensures insurances.Some? ==> total == AnnualSum(insurances.value)
  {
    if insurances.None? then 0 else AnnualSum(insurances.value)
  }

  /** One more insurance adds one more per-insurance bound: the step of AnnualSumBounds,
      kept apart so the solver sees the product unfolded once. */
  lemma MulSucc(n: nat, k: nat)
    ensures (n + 1) * k == n * k + k
  {
  }

  /** When every monthly premium lies in [lo, hi], the annual total lies between
      12 * lo and 12 * hi per insurance. */
  lemma {:induction false} AnnualSumBounds(s: seq<Insurance>, lo: nat, hi: nat)
    requires forall i :: 0 <= i < |s| ==>
      MonthlyPremium(s[i].premium).Some? && lo <= MonthlyPremium(s[i].premium).value <= hi
    ensures |s| * (12 * lo) <= AnnualSum(s) <= |s| * (12 * hi)
  {
    if |s| > 0 {
      var init := s[..|s| - 1];
      assert forall i :: 0 <= i < |init| ==> init[i] == s[i];
      AnnualSumBounds(init, lo, hi);
      var monthly := MonthlyPremium(s[|s| - 1].premium).value;
      assert AnnualSum(s) == AnnualSum(init) + monthly * 12;
      MulSucc(|init|, 12 * lo);
      MulSucc(|init|, 12 * hi);
    }
  }

  /** A private customer's generated insurances cost between 6000 and 4 * 65988 a year. */
  lemma UserAnnualPremiumBounds(userId: string)
    requires userId != ""
    ensures 6000 <= CalculateTotalAnnualPremium(Some(UserInsurances(userId))) <= 4 * 65988
  {
    var s := UserInsurances(userId);
    var hash := HashOf(userId);
    forall k | 0 <= k < |s|
      ensures MonthlyPremium(s[k].premium) == Some(UserMonthlyPremium(hash, k))
    {
      MonthlyPremiumOfPrinted(UserMonthlyPremium(hash, k));
    }
    AnnualSumBounds(s, 500, 5499);
  }

  // ---------------------------------------------------------------------------
  // Status badges
  // ---------------------------------------------------------------------------

  datatype Badge = Badge(color: string, labelText: string)

  const STATUS_BADGES: map<string, Badge> := map[
    "Aktiv" := Badge("success", "Aktiv"),
    "Utl\U{00F8}pt" := Badge("danger", "Utl\U{00F8}pt"),
    "Venter" := Badge("warning", "Venter"),
    "Kansellert" := Badge("gray", "Kansellert")
  ]

  /** getStatusBadge: the badge always carries the status as its label; the colour is
      success, danger or warning for the three live states and gray for everything else. */
  function GetStatusBadge(status: string): (b: Badge)
    ensures b.labelText == status
    ensures status == "Aktiv" ==> b.color == "success"
    ensures status == "Utl\U{00F8}pt" ==> b.color == "danger"
    ensures status == "Venter" ==> b.color == "warning"
    ensures b.color == "gray" <==> status !in {"Aktiv", "Utl\U{00F8}pt", "Venter"}
  {
    if status in STATUS_BADGES then STATUS_BADGES[status] else Badge("gray", status)
  }
}
