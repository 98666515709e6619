# CIAM demo frontend — a Dafny model

This project models the client-side logic of a customer identity and access management
(CIAM) demo app for an insurance company. The app is React Native, and every piece of
customer data it shows is mock data derived from the signed-in user's id.

The model has two halves.

- **The deterministic mock-data and access-rule layer.** This covers:
  - the 31-multiplier string hash, with JavaScript int32 wrap-around;
  - the fixed tables;
  - the generators of insurances, company profiles, delegations ("fullmakt"), user profiles
    and switchable profiles;
  - the role-based permission checks;
  - insurance filtering, grouping and premium totals;
  - the validation of a new delegation.

  Each generator that builds a list with a loop is a method proved equal to a
  specification function. The bounds, shapes and round trips the app relies on are proved
  about those functions.
- **The client session state machines**, one class each:
  - the consent store and the consent screen's draft;
  - the customer-type and active-profile selector;
  - the auth session, plus the older app shell that keeps its own session;
  - the countdown timer and the step-up confirmation dialog;
  - the delegation screen's action flow.

  The pure view derivations of the home and login screens are functions. The device's
  key-value store is a class holding a map, and each of its operations may fail. Token,
  userinfo and storage outcomes, the current time and the timer firing are parameters or
  explicit methods.

JavaScript semantics are written out where they matter:
- strings are measured in UTF-16 code units;
- `%` keeps the sign of the dividend;
- bitwise operators apply ToInt32;
- `split`, `trim`, `padStart`, `slice` and `String(n)` are defined in `JsString`;
- a missing string (null, undefined or '') is `""`, which is what the source's falsiness
  tests treat alike; a missing array or record is `Option`. A few places read a property of
  a string with no guard, where a missing one would throw. The model returns a value there
  instead; "## Left out" names them.

Module layout follows the source: one module per source file. `JsString`, `Seqs` and
`Wrappers` hold the language-level helpers; `Consents` and `Storage` hold the consent record
and the store shared by the consent store and the app shell.

## Model

| member | source | states |
|---|---|---|
| Hash.ToInt32 | frontend/src/utils/hash.js:17-18 | ECMAScript ToInt32: the result is in [-2^31, 2^31), congruent to the input modulo 2^32, and the identity on int32 values |
| Hash.ToInt32Congruent | frontend/src/utils/hash.js:17-18 | numbers congruent modulo 2^32 have the same int32 value |
| Hash.Fold | frontend/src/utils/hash.js:14-19 | the loop state after the shift/subtract/add/`&` step over a prefix of code units is always an int32 |
| Hash.Fold31 | frontend/src/utils/hash.js:14-19 | the textbook fold `h := toInt32(31*h + c)` stays in int32 range |
| Hash.StepIsTimes31 | frontend/src/utils/hash.js:17-18 | `((h << 5) - h + c) & ...` equals `toInt32(31*h + c)` for every int32 `h` |
| Hash.FoldIsFold31 | frontend/src/utils/hash.js:14-19 | the operator-level fold and the 31-multiplier fold agree on every code-unit sequence |
| Hash.HashOf | frontend/src/utils/hash.js:11-21 | the hash lies in [0, 2^31], and reaches 2^31 exactly when the fold of a non-empty string ends at -2^31 |
| Hash.HashCode | frontend/src/utils/hash.js:11-21 | the loop as written returns the hash function's value, 0 for an empty or missing string, at most 2^31 |
| Hash.HashIsAbsFold31 | frontend/src/utils/hash.js:11-21 | for a non-empty string the hash is the absolute value of the 31-multiplier fold over its UTF-16 code units |
| Hash.HashDependsOnCodeUnits | frontend/src/utils/hash.js:15-16 | strings with the same UTF-16 code units hash alike |
| Hash.FoldReachesMin | frontend/src/utils/hash.js:14-19 | the code units of "Gycxe~" fold to -2^31 |
| Hash.HashReachesTwoTo31 | frontend/src/utils/hash.js:20 | `Math.abs` of -2^31 is 2^31, so the upper bound is reached |
| Hash.JsRem | frontend/src/utils/hash.js:32 | JavaScript `%`: the remainder is smaller in magnitude than the divisor, has the dividend's sign, and equals Dafny's `%` for non-negative operands |
| Hash.PickFromArray | frontend/src/utils/hash.js:30-34 | a picked value is an element of the array; a non-empty array with a non-negative offset yields the element at `(hash + offset) % length`; an empty array yields nothing |
| Hash.HashInRange | frontend/src/utils/hash.js:44-47 | NaN exactly for an empty range; with min ≤ max and offset ≥ 0 the result is `min + (hash + offset) % (max - min + 1)` and lies in [min, max] |
| MockData.TableSizes | frontend/src/constants/mockData.js:9-145 | the table lengths (8 streets, 6 cities, 15 last names, 6 companies, 7 and 6 insurance types, 4 roles, 6 actions), so every modulo index is in bounds |
| MockData.InsuranceTypeCategories | frontend/src/constants/mockData.js:38-55 | every private and business insurance type is a 'ting' or a 'person' insurance |
| MockData.RolesWellFormed | frontend/src/constants/mockData.js:72-97 | role ids are distinct, every role has permissions drawn from {ting, person, pensjon}, 'daglig_leder' holds all three, and 'regnskapsforer' holds only 'ting' |
| MockData.SensitiveActionsStepUp | frontend/src/constants/mockData.js:102-145 | action ids are distinct, and step-up is required exactly for change_contact, sign_agreement, add_delegation and cancel_insurance |
| MockData.AccessLevelsKeyedById | frontend/src/constants/mockData.js:150-166 | the access levels are keyed full/read/limited, and each entry's id equals its key |
| JsString.CodeUnits | frontend/src/utils/hash.js:16 | a character is one UTF-16 code unit below U+10000 and a surrogate pair above; every unit is below 0x10000 |
| JsString.Utf16 | frontend/src/utils/hash.js:15-16 | a string has between one and two code units per character, each below 0x10000 |
| JsString.TrimStart | frontend/src/services/delegation.js:123 | leading whitespace is dropped: the result is a suffix that does not start with whitespace, and only whitespace was removed |
| JsString.TrimEnd | frontend/src/services/delegation.js:123 | trailing whitespace is dropped: the result is a prefix that does not end with whitespace, and only whitespace was removed |
| JsString.Trim | frontend/src/services/delegation.js:123 | a non-empty trimmed string starts and ends with non-whitespace |
| JsString.Split | frontend/src/services/profile.js:23 | `split(sep)` yields at least one part and no part contains the separator |
| JsString.SplitJoin | frontend/src/services/profile.js:23 | joining the parts with the separator gives back the string |
| JsString.SplitHead | frontend/src/services/profile.js:33 | the first part is the prefix before the first separator (the whole string when there is none) |
| JsString.SplitHeadAt | frontend/src/services/profile.js:33 | when the first separator is at index k, the first part is the first k characters |
| JsString.NatToString | frontend/src/services/insurance.js:39 | `String(n)` is a non-empty string of decimal digits |
| JsString.DigitChar | frontend/src/services/insurance.js:39 | the digit character of d is a digit whose value is d |
| JsString.DecimalValueOfNatToString | frontend/src/services/business.js:51 | the decimal digits of `String(n)` read back as n |
| JsString.NatToStringLength | frontend/src/services/profile.js:85 | a number in [10^(k-1), 10^k) prints with exactly k digits |
| JsString.PadStart2 | frontend/src/services/profile.js:85 | `padStart(2, '0')` leaves strings of length ≥ 2 unchanged and otherwise prefixes zeros up to length 2, keeping the string as a suffix |
| JsString.ToLower | frontend/src/services/userData.js:99 | lower-casing keeps the length, turns every 'A'..'Z' into its lower-case letter, leaves every other character below U+00C0 as it is, and leaves no 'A'..'Z' behind |
| JsString.ToLowerIdempotent | frontend/src/services/userData.js:99 | lower-casing an already lower-cased string changes nothing |
| JsString.Join | frontend/src/services/business.js:127 | `join` of no parts is ''; otherwise the result starts with the first part |
| JsString.JoinSingle | frontend/src/services/business.js:127 | joining one part gives that part |
| JsString.JoinAppend | frontend/src/services/business.js:127 | joining two non-empty lists puts exactly one separator between their joins, so every part and separator of a join is fixed |
| JsString.WordThenNumber | frontend/src/services/profile.js:90 | `${word} ${n}` is the word, a space, and digits that read back as n |
| JsString.CapitalizeFirst | frontend/src/services/profile.js:34 | `charAt(0).toUpperCase() + slice(1)`: empty stays empty, otherwise the upper-cased first character followed by the rest |
| JsString.Slice | frontend/src/services/business.js:52 | `slice(from, to)` is `s[from..to]` when both bounds lie in the string, `s[from..]` when only `to` lies past its end, and '' when `to` ≤ `from` or `from` lies past the end |
| JsString.SliceFrom | frontend/src/services/business.js:52 | `slice(from)` is `s[from..]`, or '' when `from` lies past the end |
| Seqs.Filter | frontend/src/services/insurance.js:99 | `filter` keeps exactly the elements satisfying the predicate, in order, and is never longer |
| Seqs.PushEach | frontend/src/services/insurance.js:23-45 | a loop pushing `f(i)` for i = 0..n-1 builds the tabulation of f |
| Seqs.Selected | frontend/src/services/delegation.js:27-65 | the conditional pushes keep each candidate whose condition holds and nothing else |
| ProfileService.GetFirstName | frontend/src/services/profile.js:18-38 | 'bruker' without a user; the name up to its first space when the name has no '@'; otherwise the given name, else the capitalised email prefix, else 'bruker' |
| ProfileService.FirstNameFromEmail | frontend/src/services/profile.js:32-35 | the email fallback capitalises the text before the first '@' |
| ProfileService.ProfileSeed | frontend/src/services/profile.js:57 | the hash seed is the sub, else the email, else 'default', and is never empty |
| ProfileService.BirthYear | frontend/src/services/profile.js:60 | birth year in [1960, 1999] |
| ProfileService.BirthMonth | frontend/src/services/profile.js:61 | birth month in [1, 12] |
| ProfileService.BirthDay | frontend/src/services/profile.js:62 | birth day in [1, 28] |
| ProfileService.CustomerNumber | frontend/src/services/profile.js:74 | customer number in [1000000, 9999999] |
| ProfileService.MemberSinceYear | frontend/src/services/profile.js:75 | member-since year in [2015, 2024] |
| ProfileService.GenerateLastName | frontend/src/services/profile.js:45-47 | the last name is an entry of the last-name table |
| ProfileService.GenerateUserProfile | frontend/src/services/profile.js:54-116 | null exactly without a user; otherwise the first name, the hash-picked last name, the name or "first last" as full name, the street `STREET_NAMES[hash % 8]` plus house number `hash % 150 + 1`, postal code and city from `CITIES[hash * 3 % 6]`, country 'Norge', the phone number of the hash, 'Premium' iff hash % 3 == 0 and 'Standard' otherwise, email, subject and verification copied from the user, email preference on, sms iff hash % 2 == 0 and post iff hash % 4 == 0 |
| ProfileService.PhoneShape | frontend/src/services/profile.js:65 | the phone number is `+47 4xx yy zzw`: 14 characters whose digit groups read back as `400 + hash % 100`, `hash % 90 + 10`, and `hash * 3 % 90 + 10` followed by `hash * 7 % 10` |
| ProfileService.UserStreetFields | frontend/src/services/profile.js:90-91 | the street is the hash-picked street name, a space, and a house number that reads back as `hash % 150 + 1`, in [1, 150] |
| ProfileService.PaddedTwoDigits | frontend/src/services/profile.js:85 | a number in [1, 99] zero-padded to two characters is two digits that read back as the number |
| ProfileService.BirthDateShape | frontend/src/services/profile.js:59-85 | the birth date is `dd.mm.yyyy`, and its fields read back as a day in [1, 28], a month in [1, 12] and a year in [1960, 1999] |
| ProfileService.BirthDateFields | frontend/src/services/profile.js:85 | the three dotted fields of the date behind any hash read back as that hash's day, month and year |
| ProfileService.FourDigitYear | frontend/src/services/profile.js:85 | a year in [1000, 9999] prints as four digits that read back as the year |
| ProfileService.DottedDate | frontend/src/services/profile.js:85 | `dd.mm.yyyy` splits on '.' back into its three fields |
| ProfileService.CustomerNumberShape | frontend/src/services/profile.js:73-75 | the customer number is 'KNR-' followed by seven digits whose value lies in [1000000, 9999999] |
| ProfileService.CustomerNumberFields | frontend/src/services/profile.js:74 | the digits after 'KNR-' read back as the hash's customer number |
| ProfileService.FormatAddress | frontend/src/services/profile.js:144-147 | '' without an address, otherwise "street, postalCode city": the street, ", ", the postal code, one space and the city, and nothing else |
| InsuranceService.Month | frontend/src/services/insurance.js:30 | month in [1, 12] |
| InsuranceService.PolicyNum | frontend/src/services/insurance.js:31 | policy number in [10000, 99999] |
| InsuranceService.UserInsuranceCount | frontend/src/services/insurance.js:22 | a private customer has between 1 and 4 insurances |
| InsuranceService.UserTypeIndex | frontend/src/services/insurance.js:26 | the private type index is in bounds of the type table |
| InsuranceService.UserYear | frontend/src/services/insurance.js:29 | the private start year is 2024 or 2025 |
| InsuranceService.UserMonthlyPremium | frontend/src/services/insurance.js:40 | private monthly premium in [500, 5499] |
| InsuranceService.GenerateUserInsurances | frontend/src/services/insurance.js:18-46 | the generator returns the specified private list: empty without an id, otherwise the records pushed by the loop |
| InsuranceService.UserInsurances | frontend/src/services/insurance.js:18-46 | the list a private customer id generates; GenerateUserInsurances returns it, and UserInsurancesShape and UserInsuranceFields state its length and records |
| InsuranceService.PushUserInsurances | frontend/src/services/insurance.js:22-43 | the loop pushes `(hash % 4) + 1` records in index order |
| InsuranceService.UserInsurancesShape | frontend/src/services/insurance.js:18-46 | empty iff the id is missing; at most 4 records with ids 1..n in order, each 'Aktiv', with type and category from `INSURANCE_TYPES[(hash + 7i) % 7]` and a premium text that parses to a monthly premium in [500, 5499] |
| InsuranceService.UserInsuranceFields | frontend/src/services/insurance.js:26-42 | record i has id i + 1, status 'Aktiv', type and category from `INSURANCE_TYPES[(hash + 7i) % 7]`, and a premium text that parses back to its monthly premium |
| InsuranceService.BusinessInsuranceCount | frontend/src/services/insurance.js:61 | a company has between 2 and 5 insurances |
| InsuranceService.BusinessTypeIndex | frontend/src/services/insurance.js:65 | the business type index is in bounds of the type table |
| InsuranceService.BusinessMonthlyPremium | frontend/src/services/insurance.js:79 | business monthly premium in [2000, 16999] |
| InsuranceService.GenerateBusinessInsurances | frontend/src/services/insurance.js:57-85 | the generator returns the specified business list: empty without an id, otherwise the records pushed by the loop |
| InsuranceService.BusinessInsurances | frontend/src/services/insurance.js:57-85 | the list a company id generates; GenerateBusinessInsurances returns it, and BusinessInsurancesShape and BusinessInsuranceFields state its length and records |
| InsuranceService.PushBusinessInsurances | frontend/src/services/insurance.js:61-82 | the loop pushes `(hash % 4) + 2` records in index order |
| InsuranceService.BusinessInsurancesShape | frontend/src/services/insurance.js:57-85 | empty without an id, otherwise 2 to 5 records with ids 1..n in order, each 'Aktiv', with type and category from `BUSINESS_INSURANCE_TYPES[(hash + 5i) % 6]` and a premium text that parses to a monthly premium in [2000, 16999] |
| InsuranceService.BusinessInsuranceFields | frontend/src/services/insurance.js:65-81 | record i has id i + 1, status 'Aktiv', type and category from `BUSINESS_INSURANCE_TYPES[(hash + 5i) % 6]`, and a premium text that parses back to its monthly premium |
| InsuranceService.FilterInsurancesByPermissions | frontend/src/services/insurance.js:97-100 | [] when either list is missing; otherwise exactly the insurances whose category is permitted, in order |
| InsuranceService.FilterByPermissionsConcat | frontend/src/services/insurance.js:99 | filtering distributes over concatenation |
| InsuranceService.FilterByPermissionsExtremes | frontend/src/services/insurance.js:99 | all categories permitted keeps the whole list; none permitted keeps nothing |
| InsuranceService.CategoryKey | frontend/src/services/insurance.js:111 | the group key is the category, or 'other' when it is missing; never empty |
| InsuranceService.CategoryKeysSnoc | frontend/src/services/insurance.js:110-117 | appending an insurance adds exactly its key to the set of keys |
| InsuranceService.InCategorySnoc | frontend/src/services/insurance.js:110-117 | appending an insurance extends exactly its own group |
| InsuranceService.InCategoryAbsent | frontend/src/services/insurance.js:112-114 | a key not yet seen has an empty group |
| InsuranceService.GroupInsurancesByCategory | frontend/src/services/insurance.js:107-118 | {} for a missing list; otherwise one group per key present, each holding exactly that key's insurances in list order |
| InsuranceService.GroupStep | frontend/src/services/insurance.js:110-117 | one reduce step (create the group if absent, then push) preserves the grouping invariant |
| InsuranceService.CategoryOrderKeys | frontend/src/services/insurance.js:110-117 | the order in which keys are first met lists every key exactly once |
| InsuranceService.GroupSizesSumToLength | frontend/src/services/insurance.js:107-118 | the group sizes add up to the length of the list: nothing lost or duplicated |
| InsuranceService.DigitRun | frontend/src/services/insurance.js:129 | `\d+` takes the maximal run of leading digits |
| InsuranceService.SpaceRun | frontend/src/services/insurance.js:129 | `\s*` takes the maximal run of leading whitespace |
| InsuranceService.DigitRunOfDigits | frontend/src/services/insurance.js:129 | the digit run of digits followed by a non-digit is exactly those digits |
| InsuranceService.MonthlyPremiumOfPrinted | frontend/src/services/insurance.js:129-131 | a premium printed as `"<n> kr/mnd"` matches the pattern and parses back as n |
| InsuranceService.MatchAt | frontend/src/services/insurance.js:129 | `/(\d+)\s*kr\/mnd/` matched at the start of the text; DigitRun, SpaceRun and MonthlyPremiumOfPrinted state what it captures |
| InsuranceService.MonthlyPremium | frontend/src/services/insurance.js:129-131 | the leftmost match of the premium pattern, parsed; MonthlyPremiumOfPrinted states that `"<n> kr/mnd"` gives n |
| InsuranceService.CalculateTotalAnnualPremium | frontend/src/services/insurance.js:125-135 | 0 for a missing list, otherwise the reduce summing twelve times each matched monthly premium, non-matching entries adding 0 |
| InsuranceService.AnnualSumBounds | frontend/src/services/insurance.js:128-134 | when every monthly premium lies in [lo, hi] the annual total lies in [12·lo·n, 12·hi·n] |
| InsuranceService.AnnualSum | frontend/src/services/insurance.js:128-134 | the reduce adding twelve times each matched monthly premium; CalculateTotalAnnualPremium returns it, and AnnualSumBounds and UserAnnualPremiumBounds bound it |
| InsuranceService.UserAnnualPremiumBounds | frontend/src/services/insurance.js:125-135 | a private customer's generated insurances total between 6000 and 4·65988 a year |
| InsuranceService.GetStatusBadge | frontend/src/services/insurance.js:142-151 | the label is the status; Aktiv/Utløpt/Venter give success/danger/warning, and every other status (Kansellert included) gives gray |
| BusinessService.OrgNumberValue | frontend/src/services/business.js:33 | the organisation number before formatting is in [900000000, 999999999] |
| BusinessService.GenerateCompanyProfile | frontend/src/services/business.js:23-43 | null iff the user id is missing; otherwise company name `COMPANY_NAMES[hash % 6]`, role `BUSINESS_ROLES[hash % 4]`, street `STREET_NAMES[hash % 8]` plus house number `hash % 50 + 1`, postal code and city from `CITIES[hash % 6]`, and 10 to 209 employees |
| BusinessService.CompanyStreetFields | frontend/src/services/business.js:36 | the street is the hash-picked street name, a space, and a house number that reads back as `hash % 50 + 1`, in [1, 50] |
| BusinessService.CompanyOrgNumberShape | frontend/src/services/business.js:33-53 | the organisation number is three groups of three digits separated by single spaces, starting with 9, whose digits read back as the number |
| BusinessService.LeadingNine | frontend/src/services/business.js:33 | a number in [9·10^k, 10^(k+1)) prints with a leading '9' |
| BusinessService.CompanyYearAndSize | frontend/src/services/business.js:40-41 | customer-since year in [2010, 2023] and employee count in [10, 209] |
| BusinessService.FormatOrgNumber | frontend/src/services/business.js:50-53 | two characters longer than the input; for at least six characters, spaces at 3 and 7 and the input recovered by removing them |
| BusinessService.FormatOrgNumberSlices | frontend/src/services/business.js:50-53 | for any input length the three slices cut at 3 and 6 concatenate back to the input |
| BusinessService.AllIncluded | frontend/src/services/business.js:78 | `every(includes)`: every wanted permission is held |
| BusinessService.AnyIncluded | frontend/src/services/business.js:89 | `some(includes)`: some wanted permission is held |
| BusinessService.HasPermission | frontend/src/services/business.js:65-68 | false without a role or permission list, otherwise membership |
| BusinessService.HasAllPermissions | frontend/src/services/business.js:76-79 | false without a role or permission list, otherwise every wanted permission is held |
| BusinessService.HasAnyPermission | frontend/src/services/business.js:87-90 | false without a role or permission list, otherwise some wanted permission is held |
| BusinessService.PermissionChecksAgree | frontend/src/services/business.js:65-90 | for a role with permissions: has-all of [] holds, has-any of [] fails, has-all implies has-any on non-empty lists, and all three agree on a single permission |
| BusinessService.TableRolesAccess | frontend/src/services/business.js:65-68 | 'daglig_leder' has every known category; 'regnskapsforer' has exactly 'ting' |
| BusinessService.FindRole | frontend/src/services/business.js:106 | `find` by id: nothing iff no role has the id, otherwise the first role with it |
| BusinessService.GetRoleById | frontend/src/services/business.js:105-107 | a found role is a table role with that id; nothing iff no table role has it |
| BusinessService.GetRoleByIdFindsEachRole | frontend/src/services/business.js:105-107 | every table role is found by its own id |
| BusinessService.PermissionLabel | frontend/src/services/business.js:117-121 | a label exists exactly for ting, person and pensjon |
| BusinessService.AccessLabels | frontend/src/services/business.js:123-125 | every label is the label of some listed permission, every known permission's label is present, the list is empty iff no permission is known, and an all-known list gives one label per permission in order |
| BusinessService.AccessLabelsSingle | frontend/src/services/business.js:123-125 | one permission gives its label when known and nothing otherwise |
| BusinessService.AccessLabelsAppend | frontend/src/services/business.js:123-125 | labelling distributes over concatenation, so the labels keep list order and unknown permissions drop out |
| BusinessService.FirstLabelLeads | frontend/src/services/business.js:123-125 | the first label is the label of the first known permission |
| BusinessService.GetRoleAccessDescription | frontend/src/services/business.js:114-128 | '' without a role; for a role, the known labels joined by ", " (their meaning fixed by AccessLabels, AccessLabelsSingle, AccessLabelsAppend, JoinSingle and JoinAppend); '' exactly when none of its permissions is known, and otherwise the text starts with the label of its first known permission |
| BusinessService.DescriptionSnoc | frontend/src/services/business.js:122-127 | one more permission leaves the description unchanged when unknown, and otherwise appends its label, after ", " when the description was not empty |
| BusinessService.TwoKnownDescription | frontend/src/services/business.js:122-127 | two known permissions are described as their two labels joined by ", " |
| BusinessService.TwoKnownRoleDescription | frontend/src/services/business.js:114-128 | a role holding two known permissions is described by their two labels joined by ", " |
| BusinessService.HrDescription | frontend/src/services/business.js:114-128 | 'hr_ansvarlig' is described as "Personforsikringer, Pensjon" |
| BusinessService.AccountantDescription | frontend/src/services/business.js:114-128 | 'regnskapsforer' is described as "Tingforsikringer" |
| BusinessService.FinanceDescription | frontend/src/services/business.js:114-128 | 'okonomisjef' is described as "Tingforsikringer, Pensjon" |
| BusinessService.ManagerLabels | frontend/src/services/business.js:123-125 | 'daglig_leder' labels all three categories in table order |
| BusinessService.ManagerDescription | frontend/src/services/business.js:114-128 | the description of 'daglig_leder' is "Tingforsikringer, Personforsikringer, Pensjon" |
| BusinessService.GetPermissionCategory | frontend/src/services/business.js:134-162 | an entry exists exactly for a known permission; it carries that id and the same label as the description table |
| DelegationService.GenerateUserDelegations | frontend/src/services/delegation.js:19-68 | the conditional pushes return the specified given and received lists |
| DelegationService.Delegations | frontend/src/services/delegation.js:19-68 | the given and received lists an id generates; GenerateUserDelegations returns them, and DelegationsShape states which delegations appear and in what order |
| DelegationService.DelegationsShape | frontend/src/services/delegation.js:19-68 | both lists are empty without an id; otherwise the spouse (id 1) is given iff hash % 3 == 0 and the accountant (id 2) iff hash % 5 == 0, in that order, and the mother (id 3) is received iff hash % 4 == 0 |
| DelegationService.GetAccessLevelName | frontend/src/services/delegation.js:88-90 | the table name of a known level, otherwise the level itself |
| DelegationService.GetAccessLevelDescription | frontend/src/services/delegation.js:79-81 | the table description of a known level, otherwise the level itself |
| DelegationService.IsDelegationExpired | frontend/src/services/delegation.js:97-100 | false without an expiry date, otherwise the expiry lies before `now` |
| DelegationService.FilterActiveDelegations | frontend/src/services/delegation.js:107-109 | exactly the non-expired delegations, in order |
| DelegationService.ActiveShrinksOverTime | frontend/src/services/delegation.js:107-109 | a later `now` keeps a sub-list of what an earlier one keeps |
| DelegationService.GeneratedExpiry | frontend/src/services/delegation.js:97-100 | the spouse's and mother's delegations never lapse; the accountant's lapses exactly after 2025-06-01 |
| DelegationService.ValidateNewDelegation | frontend/src/services/delegation.js:120-143 | the pushes collect the specified messages in check order, and the result is valid iff there are none |
| DelegationService.ValidationErrors | frontend/src/services/delegation.js:120-143 | the messages in check order; ValidateNewDelegation returns them, and ValidationErrorsExact states each one present exactly when its check fails |
| DelegationService.ValidationErrorsExact | frontend/src/services/delegation.js:120-143 | valid iff the trimmed name has ≥ 2 units, the email has '@', and a relationship and an access level are set; each message is present exactly when its check fails |
| UserData.DelegateEntry | frontend/src/services/userData.js:95-102 | the profile id is 'delegate-' followed by digits that read back as the delegation's id |
| UserData.DelegateEntries | frontend/src/services/userData.js:94-103 | one profile per received delegation, at the same index: kind 'delegation', the delegation's name, the delegation itself as `delegationInfo`, the elder icon, no role, id 'delegate-' plus digits reading back as the delegation's id, subtitle "Fullmakt fra " plus the lower-cased relationship |
| UserData.DelegateEntryIdsDistinct | frontend/src/services/userData.js:96 | delegations with distinct ids give profiles with distinct ids |
| UserData.MotherEntrySubtitle | frontend/src/services/userData.js:99 | the mother's delegation is shown as "Fullmakt fra mor" |
| UserData.GetAvailableProfiles | frontend/src/services/userData.js:71-119 | the pushes build the specified profile list, with at least the own profile for a user id |
| UserData.AvailableProfiles | frontend/src/services/userData.js:71-119 | the list getAvailableProfiles returns; GetAvailableProfiles builds it, and AvailableProfilesShape states its entries |
| UserData.SelfEntry | frontend/src/services/userData.js:80-88 | the own profile pushed first; SelfEntryShape states its fields for each customer type |
| UserData.OtherProfiles | frontend/src/services/userData.js:90-116 | the profiles after the own one; OtherProfilesShape states them for each hash and type |
| UserData.SecondCompanyEntry | frontend/src/services/userData.js:106-114 | the "company-2" profile; AvailableProfilesShape states its id and the accountant role |
| UserData.PushDelegateEntries | frontend/src/services/userData.js:94-103 | the `forEach` appends one profile per received delegation, in order |
| UserData.AvailableProfilesShape | frontend/src/services/userData.js:71-119 | [] without an id; otherwise 'self' first, then for 'private' the mother's delegation iff hash % 4 == 0, and for any other type 'company-2' with role `BUSINESS_ROLES[2]` iff hash % 3 == 0; at most two entries |
| UserData.OtherProfilesShape | frontend/src/services/userData.js:90-116 | the entries after the own profile for a given hash and customer type |
| UserData.MotherEntryId | frontend/src/services/userData.js:96 | the mother's delegation is listed as 'delegate-3' |
| UserData.SelfEntryShape | frontend/src/services/userData.js:80-88 | the own profile has id and type 'self', and the company name, 'Din bedrift' and the office icon iff the type is 'business' |
| UserData.PrivateSelfName | frontend/src/services/userData.js:78-85 | a private customer's own profile is named "User " plus a hash-picked last name |
| UserData.FixedUserFullName | frontend/src/services/userData.js:78-85 | the fixed-email user's full name is "User " plus a hash-picked last name |
| UserData.FixedEmailLocalPart | frontend/src/services/userData.js:78 | the fixed email's local part is "user" |
| UserData.UnnamedFullName | frontend/src/services/profile.js:84 | without a name the full name is first name, a space and the generated last name |
| UserData.FixedEmailFirstName | frontend/src/services/profile.js:32-35 | the fixed email's first name is "User" |
| UserData.EmailOnlyFirstName | frontend/src/services/profile.js:27-35 | without a name or given name, the first name is the capitalised local part of the email |
| UserData.CapitalizedUser | frontend/src/services/profile.js:34 | "user" capitalises to "User" |
| Consents.AcceptedRecord | frontend/src/contexts/ConsentContext.js:100-104 | the defaults overridden by the selections: the keys of both, 'necessary' forced true, every other selection kept, untouched defaults kept |
| Consents.WithConsent | frontend/src/contexts/ConsentContext.js:123-126 | `{...consents, [key]: value}` sets the key and keeps every other key; a missing record yields only the key |
| Consents.ConsentGiven | frontend/src/contexts/ConsentContext.js:180 | a consent counts only when the record exists and holds the key as true (for the record's own keys; inherited keys are under Left out) |
| Consents.Flipped | frontend/src/contexts/ConsentContext.js:140-143 | the key is set to the negation of its current (default false) value; every other key is kept |
| Consents.FlipTwice | frontend/src/contexts/ConsentContext.js:140-143 | flipping a recorded key twice restores the record |
| Consents.FlipKeepsNecessary | frontend/src/contexts/ConsentContext.js:117-126 | flipping any key but 'necessary' keeps the necessary consent as it was |
| Storage.AsyncStorage.GetItem | frontend/src/contexts/ConsentContext.js:52 | a failed read throws; otherwise the stored record or null |
| Storage.AsyncStorage.SetItem | frontend/src/contexts/ConsentContext.js:71 | a successful write maps the key to the record; a failed one changes nothing |
| Storage.AsyncStorage.RemoveItem | frontend/src/contexts/ConsentContext.js:84 | a successful removal deletes the key; a failed one changes nothing |
| ConsentContext.ExportOf | frontend/src/contexts/ConsentContext.js:166-174 | nothing without consents, otherwise the record with version "1.0" |
| ConsentContext.ConsentProvider.constructor | frontend/src/contexts/ConsentContext.js:31-33 | no consents, not consented, loading |
| ConsentContext.ConsentProvider.LoadStoredConsents | frontend/src/contexts/ConsentContext.js:50-64 | a stored record becomes current and counts as consent; a missing record or failed read changes nothing; loading ends in every case |
| ConsentContext.ConsentProvider.SaveConsents | frontend/src/contexts/ConsentContext.js:69-77 | returns whether the write succeeded and stores the record only then |
| ConsentContext.ConsentProvider.ClearStoredConsents | frontend/src/contexts/ConsentContext.js:82-90 | returns whether the removal succeeded and removes the record only then |
| ConsentContext.ConsentProvider.AcceptConsents | frontend/src/contexts/ConsentContext.js:99-112 | the accepted record (necessary granted) becomes current and the user counts as consented even when the save fails; the result is the save outcome |
| ConsentContext.ConsentProvider.UpdateConsent | frontend/src/contexts/ConsentContext.js:117-135 | 'necessary' is refused with no change; any other key is set only if the save succeeds, otherwise nothing changes; a granted necessary consent stays granted |
| ConsentContext.ConsentProvider.ToggleConsent | frontend/src/contexts/ConsentContext.js:140-143 | nothing without a record or for 'necessary'; otherwise the key is flipped exactly when the save succeeds |
| ConsentContext.ConsentProvider.RevokeAllConsents | frontend/src/contexts/ConsentContext.js:148-152 | no consents and not consented; the stored record is removed unless the removal fails |
| ConsentContext.ConsentProvider.ResetConsentState | frontend/src/contexts/ConsentContext.js:157-161 | the same end state as revoking all consents |
| ConsentContext.ConsentProvider.ExportConsentData | frontend/src/contexts/ConsentContext.js:166-174 | null without consents, otherwise the current record with version "1.0" |
| ConsentContext.ConsentProvider.HasConsentFor | frontend/src/contexts/ConsentContext.js:179-181 | true iff a record exists and holds the key as true (for the record's own keys; inherited keys are under Left out) |
| UserContext.ProfilesFor | frontend/src/contexts/UserContext.js:42-45 | [] iff the user id or customer type is missing; otherwise at most two profiles, the own one first |
| UserContext.DefaultProfile | frontend/src/contexts/UserContext.js:74-81 | nothing without a user id and type; otherwise the first available profile, which is the 'self' profile |
| UserContext.UserProvider.constructor | frontend/src/contexts/UserContext.js:25-33 | no customer type, no active profile, switcher hidden |
| UserContext.UserProvider.CustomerFlags | frontend/src/contexts/UserContext.js:127-128 | the private and business flags never both hold, and in a valid state one holds exactly when a type is selected |
| UserContext.UserProvider.HasSelectedCustomerType | frontend/src/contexts/UserContext.js:54 | `Boolean(customerType)`; CustomerFlags states that one of the two customer flags holds exactly when it does, and ResetUserState clears it |
| UserContext.UserProvider.IsViewingDelegatedProfile | frontend/src/contexts/UserContext.js:50-52 | the active profile is a delegation; SwitchProfile states it holds exactly when the chosen profile is one, and ResetUserState clears it |
| UserContext.UserProvider.SelectCustomerType | frontend/src/contexts/UserContext.js:63-69 | only 'private' and 'business' are taken; any other value leaves the state unchanged |
| UserContext.UserProvider.InitializeDefaultProfile | frontend/src/contexts/UserContext.js:74-81 | a no-op without a user id and type; otherwise the default profile becomes active, replacing whatever was active |
| UserContext.UserProvider.SwitchProfile | frontend/src/contexts/UserContext.js:86-89 | the chosen profile becomes active and the switcher closes |
| UserContext.UserProvider.OpenProfileSwitcher | frontend/src/contexts/UserContext.js:94-96 | only the switcher flag changes, to visible |
| UserContext.UserProvider.CloseProfileSwitcher | frontend/src/contexts/UserContext.js:101-103 | only the switcher flag changes, to hidden |
| UserContext.UserProvider.ResetUserState | frontend/src/contexts/UserContext.js:108-112 | type, active profile and switcher all cleared |
| AuthContext.FailureMessage | frontend/src/contexts/AuthContext.js:97 | the error message, or 'Login failed' when it is empty; never empty |
| AuthContext.ExchangeResult | frontend/src/contexts/AuthContext.js:64-103 | no error iff the token is issued and userinfo answers ok, then user and token set; any failure clears user and token and records a non-empty error |
| AuthContext.AuthProvider.constructor | frontend/src/contexts/AuthContext.js:26-29 | signed out, not loading, no error |
| AuthContext.AuthProvider.ExchangeCodeForToken | frontend/src/contexts/AuthContext.js:64-103 | the session ends as the exchange result prescribes, and loading is off in every case |
| AuthContext.AuthProvider.HandleResponse | frontend/src/contexts/AuthContext.js:48-55 | success runs the exchange; an error response records its message or 'Authentication failed' and stops loading without touching user or token; anything else changes nothing |
| AuthContext.AuthProvider.Login | frontend/src/contexts/AuthContext.js:108-111 | the error is cleared and nothing else changes |
| AuthContext.AuthProvider.Logout | frontend/src/contexts/AuthContext.js:116-120 | user, token and error cleared, so not authenticated |
| AuthContext.ExchangeAuthenticates | frontend/src/contexts/AuthContext.js:122 | after an exchange the session is authenticated exactly when the token was issued non-empty and userinfo answered ok |
| AuthContext.AuthProvider.IsAuthenticated | frontend/src/contexts/AuthContext.js:122 | `Boolean(user && accessToken)`; ExchangeAuthenticates states when an exchange sets it, and Logout that logging out clears it |
| Countdown.TickValue | frontend/src/hooks/useCountdown.js:19-23 | a running counter above zero goes down by one; otherwise it is unchanged |
| Countdown.TicksBounded | frontend/src/hooks/useCountdown.js:19-23 | ticks never raise the counter and never take a non-negative counter below zero |
| Countdown.TicksCountDown | frontend/src/hooks/useCountdown.js:18-26 | a running counter started at N > 0 reads N - n after n ≤ N ticks and 0 after more, so it is expired exactly after N ticks |
| Countdown.CountdownTimer.IsExpired | frontend/src/hooks/useCountdown.js:59 | `secondsLeft <= 0`; TicksCountDown states that a running counter from N is expired exactly after N ticks |
| Countdown.StoppedTicks | frontend/src/hooks/useCountdown.js:19 | a stopped counter does not move |
| Countdown.CountdownTimer.constructor | frontend/src/hooks/useCountdown.js:13-15 | defaults of 30 seconds and not running |
| Countdown.CountdownTimer.Tick | frontend/src/hooks/useCountdown.js:18-26 | one timer firing; the running flag is unchanged |
| Countdown.CountdownTimer.Start | frontend/src/hooks/useCountdown.js:31-33 | running, counter unchanged |
| Countdown.CountdownTimer.Stop | frontend/src/hooks/useCountdown.js:38-40 | stopped, counter unchanged |
| Countdown.CountdownTimer.Reset | frontend/src/hooks/useCountdown.js:46-49 | the counter is the given value (default the initial one) and the timer stops |
| Countdown.CountdownTimer.Restart | frontend/src/hooks/useCountdown.js:54-57 | the counter is the initial value and the timer runs |
| StepUpModal.VerifyAcceptsIffValid | frontend/src/components/StepUpModal.js:40-48 | the demo code is six units long, so verification accepts exactly the codes that enable the button |
| StepUpModal.VerifyAccepts | frontend/src/components/StepUpModal.js:40-46 | the demo code or any six-unit code; VerifyAcceptsIffValid states that this is exactly IsCodeValid |
| StepUpModal.IsCodeValid | frontend/src/components/StepUpModal.js:48 | `code.length === CODE_LENGTH` in UTF-16 units; VerifyAcceptsIffValid and ConfirmButton state that it decides both verification and the button |
| StepUpModal.StepUpDialog.ShowsSendSection | frontend/src/components/StepUpModal.js:74 | the send-code section; Open states it shows, and HandleSendCode that it hides |
| StepUpModal.ConfirmButton | frontend/src/components/StepUpModal.js:89-97 | the confirm button exists only once a code is sent and is enabled iff the code has six units |
| StepUpModal.StepUpDialog.constructor | frontend/src/components/StepUpModal.js:22-24 | empty code, not sent, a stopped 30-second countdown |
| StepUpModal.StepUpDialog.Open | frontend/src/components/StepUpModal.js:27-33 | opening empties the code, un-sends it and resets the countdown to its initial value, stopped |
| StepUpModal.StepUpDialog.HandleSendCode | frontend/src/components/StepUpModal.js:35-38 | the code counts as sent and the countdown restarts |
| StepUpModal.StepUpDialog.ChangeCode | frontend/src/components/StepUpModal.js:79 | the typed text becomes the code |
| StepUpModal.StepUpDialog.HandleVerify | frontend/src/components/StepUpModal.js:40-46 | confirms iff the code has six units, whatever the countdown says |
| DelegationScreen.FindAction | frontend/src/screens/DelegationScreen.js:68 | `find` by id: a found action is the first in the list with that id; nothing iff no action has it |
| DelegationScreen.AddDelegationNeedsStepUp | frontend/src/screens/DelegationScreen.js:66-69 | the "give delegation" button finds its action, and that action asks for step-up |
| DelegationScreen.DelegationScreenState.constructor | frontend/src/screens/DelegationScreen.js:14-16 | modal closed, no selection, nothing completed |
| DelegationScreen.DelegationScreenState.HandleActionPress | frontend/src/screens/DelegationScreen.js:20-27 | a step-up action is held and the modal opens; any other is appended to the completed list |
| DelegationScreen.DelegationScreenState.HandleStepUpConfirm | frontend/src/screens/DelegationScreen.js:29-33 | the held action's id is appended, the modal closes and the selection clears |
| DelegationScreen.DelegationScreenState.HandleStepUpCancel | frontend/src/screens/DelegationScreen.js:35-38 | the modal closes and the selection clears; nothing is completed |
| DelegationScreen.DelegationScreenState.IsCompleted | frontend/src/screens/DelegationScreen.js:95 | `completedActions.includes(action.id)`; HandleActionPress and HandleStepUpConfirm state that the action they complete is shown as completed |
| DelegationScreen.FirstChars | frontend/src/screens/DelegationScreen.js:125 | `map(n => n[0]).join('')`: at most one character per part, each the first character of a non-empty part |
| DelegationScreen.FirstCharsAppend | frontend/src/screens/DelegationScreen.js:125 | first characters distribute over concatenated part lists |
| DelegationScreen.Initials | frontend/src/screens/DelegationScreen.js:125 | at most one initial per space-separated part, each a non-space character of the name |
| DelegationScreen.InPart | frontend/src/screens/DelegationScreen.js:125 | every character of a part occurs in the split string |
| DelegationScreen.InitialsOfJoined | frontend/src/screens/DelegationScreen.js:125 | names joined by one space contribute their initials in order |
| DelegationScreen.InitialOfWord | frontend/src/screens/DelegationScreen.js:125 | a single word contributes its first character |
| DelegationScreen.TwoWordInitials | frontend/src/screens/DelegationScreen.js:125 | "first last" gives the two initials |
| ConsentScreen.ConsentDraft.constructor | frontend/src/screens/ConsentScreen.js:13-18 | the draft starts with only 'necessary' granted |
| ConsentScreen.ConsentDraft.HandleToggle | frontend/src/screens/ConsentScreen.js:20-23 | 'necessary' cannot be switched; any other key is flipped and nothing else changes; necessary stays granted |
| ConsentScreen.ConsentDraft.HandleAcceptAll | frontend/src/screens/ConsentScreen.js:25-32 | all four consents granted |
| ConsentScreen.ConsentDraft.HandleAcceptSelected | frontend/src/screens/ConsentScreen.js:34-36 | the draft is handed over unchanged, with necessary granted |
| ConsentScreen.ToggleTwice | frontend/src/screens/ConsentScreen.js:20-23 | toggling the same optional consent twice restores the draft, and necessary stays granted |
| ConsentScreen.AcceptedDraftUnchanged | frontend/src/screens/ConsentScreen.js:34-36 | the consent store keeps a handed-over draft exactly as it is |
| HomeScreen.InsuranceSeed | frontend/src/screens/HomeScreen.js:28-32 | business: the active profile's id when non-empty, else the sub; private: the profile id only for a delegation profile, else the sub |
| HomeScreen.FilteredInsurances | frontend/src/screens/HomeScreen.js:40-43 | only a business customer whose active profile has a role sees the list filtered by that role's permissions; everyone else sees it unfiltered |
| HomeScreen.DisplayName | frontend/src/screens/HomeScreen.js:34-38 | business: the company name (absent without a sub); acting as a delegate: the profile name; otherwise the first name |
| HomeScreen.ShowsActingBanner | frontend/src/screens/HomeScreen.js:47 | the banner shows iff the active profile is a delegation or business profile |
| HomeScreen.ActingAsDelegate | frontend/src/screens/HomeScreen.js:22 | the active profile is a delegation; InsuranceSeed, ShowsActingBanner and DelegateSeedsDelegateId state what it changes |
| HomeScreen.ActingAsBusiness | frontend/src/screens/HomeScreen.js:23 | the active profile is a business profile; ShowsActingBanner and SecondCompanySeesTing state what it changes |
| HomeScreen.HomeInsurances | frontend/src/screens/HomeScreen.js:28-32 | the unfiltered list, business or private by customer type, seeded by InsuranceSeed; BusinessSelfSeedsSelf, PrivateSelfSeedsSub and DelegateSeedsDelegateId state it per case |
| HomeScreen.BusinessSelfSeedsSelf | frontend/src/screens/HomeScreen.js:28-29 | a business customer on their own profile sees the list seeded by the literal 'self', unfiltered and with no banner |
| HomeScreen.PrivateSelfSeedsSub | frontend/src/screens/HomeScreen.js:30-32 | a private customer on their own profile sees the list seeded by their sub, with no banner |
| HomeScreen.DelegateSeedsDelegateId | frontend/src/screens/HomeScreen.js:30-38 | acting on a received delegation shows the list seeded by 'delegate-<id>' under the delegating person's name and the banner |
| HomeScreen.SecondCompanySeesTing | frontend/src/screens/HomeScreen.js:40-43 | acting for 'company-2' with the accountant role shows exactly that company's 'ting' insurances |
| LoginScreen.ButtonText | frontend/src/screens/LoginScreen.js:26-30 | 'Laster...' iff loading; 'Velg kundetype først' iff not loading and no type; 'Logg inn med Auth0' iff login is enabled |
| LoginScreen.SelectedTypeLine | frontend/src/screens/LoginScreen.js:73-79 | the "logging in as" line is absent iff the hint shows, and reads Privatkunde iff the type is 'private' |
| LoginScreen.Variant | frontend/src/screens/LoginScreen.js:85 | primary iff a type is selected, otherwise secondary |
| LoginScreen.HintAndButtonAgree | frontend/src/screens/LoginScreen.js:64-85 | exactly one of hint and type line shows; when not loading, the button is enabled iff it is primary; it is disabled iff its text is not the login text |
| LoginScreen.IsLoginDisabled | frontend/src/screens/LoginScreen.js:23 | `loading \|\| !selectedCustomerType`; ButtonText and HintAndButtonAgree state that the login text shows exactly when it is false |
| LoginScreen.ShowsHint | frontend/src/screens/LoginScreen.js:64 | the customer-type hint; SelectedTypeLine and HintAndButtonAgree state it shows exactly when the type line does not |
| App.Gate | frontend/App.js:140-147 | login iff no user; consent iff a user without consent; the tabs iff a user with consent |
| App.AppShell.CurrentScreen | frontend/App.js:140-147 | the screen the shell renders, by Gate; the constructor states it starts at login, and HandleConsent that a signed-in user reaches the tabs |
| App.AppExchangeResult | frontend/App.js:70-93 | a token failure changes nothing; an issued token is kept even when userinfo later fails; an answered userinfo body becomes the user whether or not it was ok |
| App.ShellKeepsTokenAfterUserinfoFailure | frontend/App.js:70-93 | the shell agrees with the session provider on full success, but keeps the token (and a not-ok body as user) where the provider clears them and reports an error |
| App.ShellChangeRevokesNecessary | frontend/App.js:126-130 | the shell's change handler has no 'necessary' guard: a granted record loses it |
| App.AppShell.constructor | frontend/App.js:26-31 | signed out, home tab, not loading, no consent |
| App.AppShell.CheckExistingConsent | frontend/App.js:58-68 | a stored record becomes current and counts as consent; a missing record or failed read changes nothing |
| App.AppShell.ExchangeCodeForToken | frontend/App.js:70-93 | user and token end as the shell's exchange result prescribes, and loading is off |
| App.AppShell.HandleResponse | frontend/App.js:52-56 | only a success response runs the exchange |
| App.AppShell.HandleLogout | frontend/App.js:97-108 | session and consent cleared, home tab, login screen; the stored record is removed unless the removal fails, which does not undo the clears |
| App.AppShell.HandleDeleteAccount | frontend/App.js:121-124 | the same effect as logging out |
| App.AppShell.HandleConsent | frontend/App.js:110-119 | the user counts as consented even when the write fails; the record becomes current and stored only on success; a signed-in user reaches the tabs |
| App.AppShell.HandleConsentChange | frontend/App.js:126-137 | without a record the state is left as it was (the source throws there, as noted under Left out); otherwise the key is flipped, 'necessary' included, and applied only if the write succeeds |

## Left out

- Rendering, styling and layout components: they compute nothing the model states.
- The OAuth authorization-code grant (section 4.1 of RFC 6749) with PKCE (RFC 7636), discovery, the code exchange and the `/userinfo` fetch. Their outcomes are parameters.
- The backend, `services/api.js` and `hooks/useApiTest.js`: HTTP plumbing.
- JSON serialisation and parsing of the stored consent record, including a corrupt stored value: the store holds records.
- The `exportedAt` and `createdAt` timestamps and `formatDelegationDate` (locale formatting). The wall clock is the `now` parameter of `IsDelegationExpired`.
- React scheduling: effects, memoisation, stale closures and render order. Each handler is one atomic state update, and the countdown's `setTimeout` is the explicit `Tick` method.
- The app shell's `activeTab` switching by the bottom navigation: it only selects a view.
- The auth provider's `isReady` flag (`Boolean(request)`, whether the OAuth request object has been built), and everything on the home screen beyond lines 21-47.
- `getUserDisplayInfo`, `RELATIONSHIP_TYPES`, the userData re-exports, and `getBusinessRoles`, which returns the table itself.
- GetAccessLevelName, GetAccessLevelDescription: keys inherited from `Object.prototype` (such as `toString`) are not found when looking up `ACCESS_LEVELS[level]`; a lookup finds only the table's own keys.
- ConsentGiven: for a key inherited from `Object.prototype` (such as 'toString'), `consents?.[key] ?? false` is a truthy function; the model reads the key as absent and gives false. The app passes only the four fixed consent keys.
- ConsentContext.ConsentProvider.HasConsentFor: the same inherited keys count as given in the source and not in the model.
- Flipped: for an inherited key, `!consents[key]` is false in the source; the model reads the key as absent and stores true.
- ConsentContext.ConsentProvider.ToggleConsent: an inherited key is stored as true, where the source's `!consents[key]` stores false.
- ConsentScreen.ConsentDraft.HandleToggle: an inherited key is set to true, where the source's `!prev[key]` sets false.
- App.AppShell.HandleConsentChange, inherited keys: an inherited key is stored as true, where the source's `!consents[key]` stores false.
- GetPermissionCategory: for an inherited key such as 'toString', `PERMISSION_CATEGORIES[categoryId]` is a truthy prototype member; the model returns no category for it.
- App.AppShell.HandleConsentChange: without a consent record, the source's `!consents[key]` throws a TypeError before its `try`, and the handler's promise rejects. The model returns with nothing changed, which is the same end state: no write and no new record.
- PermissionLabel: for an inherited key such as 'toString', `permissionLabels[p]` is a function, which is truthy and survives `.filter(Boolean)`; the model gives no label for it.
- AccessLabels: the same inherited keys are dropped, where the source keeps a function in the list.
- GetStatusBadge: `statusMap[status]` for an inherited key such as 'toString' returns a function; the model returns the gray default labelled by the status.
- GroupInsurancesByCategory: for a category named like an inherited key, such as 'toString', `groups[category]` is a function and the `push` on it throws; the model makes a group for it.
- CalculateTotalAnnualPremium: a record without a premium text is read as "" and adds 0, where `insurance.premium.match` throws a TypeError.
- DelegateEntries: a received delegation without a relationship gets the subtitle "Fullmakt fra ", where `d.relationship.toLowerCase()` throws.
- Initials: a delegation without a name gives no initials, where `delegation.name.split(' ')` throws.
- Delegation expiry dates: they are the instant the date string denotes, as a millisecond count; date-string parsing is not modelled.
- Case mapping is exact only for Latin-1. Other characters are left unchanged by `toLowerCase` and `toUpperCase`.
- Initials take the first character of each name part, where JavaScript's `n[0]` takes the first UTF-16 code unit. The two differ only for characters above U+FFFF.
- `parseInt` on a very long digit run: the model reads the exact value, where JavaScript loses precision beyond 2^53.
- The order of keys in the grouped-insurance object: the model returns a map and proves the first-seen key order separately.
- The maximum input length of the step-up code field: any string can be typed.
- GetRoleAccessDescription: requires a present role to carry a permission list, because the source throws when it maps over a missing one.
- InsuranceService.UserInsurancesShape: the policy number, year, month and valid-until text of each record are bounded by their own functions but not restated about the generated list.
- InsuranceService.BusinessInsurancesShape: the same holds for business records, including the fixed year 2024.
