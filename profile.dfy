/** frontend/src/services/profile.js: the first name shown to a user and the mock customer
    profile derived from the identity provider's user claims. */
module ProfileService {
  import opened Wrappers
  import opened JsString
  import opened Hash
  import opened MockData

  /** The OpenID Connect user claims the app reads; an absent claim is "" (false for
      `email_verified`). */
  datatype User = User(
    sub: string,
    email: string,
    name: string,
    givenName: string,
    emailVerified: bool,
    picture: string)

  datatype ProfileAddress = ProfileAddress(street: string, postalCode: string, city: string, country: string)

  datatype CommunicationPreferences = CommunicationPreferences(email: bool, sms: bool, post: bool)

  /** A generated profile; `picture` is "" where the source stores null. */
  datatype UserProfile = UserProfile(
    firstName: string,
    lastName: string,
    fullName: string,
    birthDate: string,
    email: string,
    phone: string,
    address: ProfileAddress,
    customerNumber: string,
    memberSince: string,
    customerType: string,
    emailVerified: bool,
    picture: string,
    userId: string,
    communicationPreferences: CommunicationPreferences)

  // ---------------------------------------------------------------------------
  // First name
  // ---------------------------------------------------------------------------

  /** getFirstName: the name up to its first space when the name is not an email address;
      else the given name; else the email's local part with its first letter upper-cased;
      else 'bruker'. */
  function GetFirstName(user: Option<User>): (r: string)
    ensures user.None? ==> r == "bruker"
    ensures user.Some? && user.value.name != "" && '@' !in user.value.name ==>
      var name := user.value.name;
      |r| <= |name| && r == name[..|r|] && ' ' !in r && (|r| == |name| || name[|r|] == ' ')
    ensures user.Some? && (user.value.name == "" || '@' in user.value.name) ==>
      if user.value.givenName != "" then r == user.value.givenName
      else if user.value.email != "" then r == CapitalizeFirst(Split(user.value.email, '@')[0])
      else r == "bruker"
  {
    if user.None? then "bruker"
    else
      var u := user.value;
      if u.name != "" && '@' !in u.name then
        SplitHead(u.name, ' ');
        Split(u.name, ' ')[0]
      else if u.givenName != "" then u.givenName
      else if u.email != "" then
        var emailName := Split(u.email, '@')[0];
        CapitalizeFirst(emailName)
      else "bruker"
  }

  /** The email fallback keeps the local part: it is the text before the first '@' with
      only its first character changed. */
  lemma FirstNameFromEmail(user: User)
    requires user.name == "" || '@' in user.name
    requires user.givenName == "" && user.email != ""
    ensures var r := GetFirstName(Some(user));
      var local := Split(user.email, '@')[0];
      |local| <= |user.email| && user.email[..|local|] == local && '@' !in local &&
      (|local| == 0 ==> r == "") &&
      (|local| > 0 ==> r == UpperChar(local[0]) + local[1..])
  {
    SplitHead(user.email, '@');
  }

  // ---------------------------------------------------------------------------
  // Generated profile
  // ---------------------------------------------------------------------------

  /** `user.sub || user.email || 'default'`: the string the profile hash is taken of. */
  function ProfileSeed(user: User): (seed: string)
    ensures seed != ""
    ensures user.sub != "" ==> seed == user.sub
    ensures user.sub == "" && user.email != "" ==> seed == user.email
  {
    if user.sub != "" then user.sub else if user.email != "" then user.email else "default"
  }

  function BirthYear(hash: nat): (y: nat)
    ensures 1960 <= y <= 1999
  {
    1960 + hash % 40
  }

  function BirthMonth(hash: nat): (m: nat)
    ensures 1 <= m <= 12
  {
    hash % 12 + 1
  }

  function BirthDay(hash: nat): (d: nat)
    ensures 1 <= d <= 28
  {
    hash % 28 + 1
  }

  function CustomerNumber(hash: nat): (n: nat)
    ensures 1000000 <= n <= 9999999
  {
    1000000 + hash % 9000000
  }

  function MemberSinceYear(hash: nat): (y: nat)
    ensures 2015 <= y <= 2024
  {
    2015 + hash % 10
  }

  /** The birth date `dd.mm.yyyy` behind a hash. */
  function BirthDate(hash: nat): string {
    PadStart2(NatToString(BirthDay(hash))) + "." + PadStart2(NatToString(BirthMonth(hash))) + "."
      + NatToString(BirthYear(hash))
  }

  /** The customer number `KNR-nnnnnnn` behind a hash. */
  function CustomerNumberText(hash: nat): string {
    "KNR-" + NatToString(CustomerNumber(hash))
  }

  /** generateLastName. */
  function GenerateLastName(hash: nat): (r: string)
    ensures r in LAST_NAMES
  {
    LAST_NAMES[hash % |LAST_NAMES|]
  }

  /** The Norwegian mobile number `+47 4xx yy zzw`. */
  function PhoneNumber(hash: nat): string {
    "+47 " + NatToString(400 + hash % 100) + " " + NatToString(hash % 90 + 10) + " "
      + NatToString(hash * 3 % 90 + 10) + NatToString(hash * 7 % 10)
  }

  /** generateUserProfile: null without a user; otherwise a profile seeded by the hash of
      the user's subject, else email, else 'default'. */
  function GenerateUserProfile(user: Option<User>): (r: Option<UserProfile>)
    ensures user.None? <==> r.None?
    ensures r.Some? ==>
      var u := user.value;
      var hash := HashOf(ProfileSeed(u));
      var p := r.value;
      p.firstName == GetFirstName(user) &&
      p.lastName == LAST_NAMES[hash % 15] &&
      (u.name != "" ==> p.fullName == u.name) &&
      (u.name == "" ==> p.fullName == p.firstName + " " + p.lastName) &&
      p.address.country == "Norge" &&
      p.address.street == STREET_NAMES[hash % 8] + " " + NatToString(hash % 150 + 1) &&
      p.address.postalCode == CITIES[hash * 3 % 6].postalCode &&
      p.address.city == CITIES[hash * 3 % 6].city &&
      p.phone == PhoneNumber(hash) &&
      (p.customerType == "Premium" <==> hash % 3 == 0) &&
      (p.customerType == "Standard" <==> hash % 3 != 0) &&
      p.email == u.email && p.userId == u.sub && p.emailVerified == u.emailVerified &&
      p.communicationPreferences.email &&
      (p.communicationPreferences.sms <==> hash % 2 == 0) &&
      (p.communicationPreferences.post <==> hash % 4 == 0)
  {
    if user.None? then None
    else
      var u := user.value;
      var hash := HashOf(ProfileSeed(u));
      var streetIndex := hash % |STREET_NAMES|;
      var streetNumber := hash % 150 + 1;
      var cityIndex := (hash * 3) % |CITIES|;
      var cityData := CITIES[cityIndex];
      var lastName := GenerateLastName(hash);
      var firstName := GetFirstName(user);
      Some(UserProfile(
        firstName,
        lastName,
        if u.name != "" then u.name else firstName + " " + lastName,
        BirthDate(hash),
        u.email,
        PhoneNumber(hash),
        ProfileAddress(STREET_NAMES[streetIndex] + " " + NatToString(streetNumber),
                       cityData.postalCode, cityData.city, "Norge"),
        CustomerNumberText(hash),
        NatToString(MemberSinceYear(hash)),
        if hash % 3 == 0 then "Premium" else "Standard",
        u.emailVerified,
        u.picture,
        u.sub,
        CommunicationPreferences(true, hash % 2 == 0, hash % 4 == 0)))
  }

  /** A one- or two-digit number zero-padded to two characters reads back as itself. */
  lemma PaddedTwoDigits(d: nat)
    requires 1 <= d <= 99
    ensures var s := PadStart2(NatToString(d));
      |s| == 2 && AllDigits(s) && DecimalValue(s) == d
  {
    DecimalValueOfNatToString(d);
    if d < 10 {
      assert PadStart2(NatToString(d)) == ['0', DigitChar(d)];
      assert ['0', DigitChar(d)][..1] == ['0'];
    } else {
      assert Pow10(1) == 10 && Pow10(2) == 100;
      NatToStringLength(d, 2);
    }
  }

  /** The birth date is `dd.mm.yyyy`, and its three fields read back as a day in [1, 28],
      a month in [1, 12] and a year in [1960, 1999]. */
  lemma BirthDateShape(user: User)
    ensures var b := GenerateUserProfile(Some(user)).value.birthDate;
      |b| == 10 && b[2] == '.' && b[5] == '.' &&
      AllDigits(b[..2]) && AllDigits(b[3..5]) && AllDigits(b[6..]) &&
      1 <= DecimalValue(b[..2]) <= 28 &&
      1 <= DecimalValue(b[3..5]) <= 12 &&
      1960 <= DecimalValue(b[6..]) <= 1999
  {
    var hash := HashOf(ProfileSeed(user));
    assert GenerateUserProfile(Some(user)).value.birthDate == BirthDate(hash);
    BirthDateFields(hash);
  }

  /** The fields of the date behind any hash. */
  lemma BirthDateFields(hash: nat)
    ensures var b := BirthDate(hash);
      |b| == 10 && b[2] == '.' && b[5] == '.' &&
      AllDigits(b[..2]) && AllDigits(b[3..5]) && AllDigits(b[6..]) &&
      DecimalValue(b[..2]) == BirthDay(hash) &&
      DecimalValue(b[3..5]) == BirthMonth(hash) &&
      DecimalValue(b[6..]) == BirthYear(hash)
  {
    var day := PadStart2(NatToString(BirthDay(hash)));
    var month := PadStart2(NatToString(BirthMonth(hash)));
    var year := NatToString(BirthYear(hash));
    PaddedTwoDigits(BirthDay(hash));
    PaddedTwoDigits(BirthMonth(hash));
    FourDigitYear(BirthYear(hash));
    DottedDate(day, month, year);
  }

  lemma FourDigitYear(y: nat)
    requires 1000 <= y <= 9999
    ensures |NatToString(y)| == 4 && AllDigits(NatToString(y)) && DecimalValue(NatToString(y)) == y
  {
    assert Pow10(3) == 1000 && Pow10(4) == 10000;
    NatToStringLength(y, 4);
    DecimalValueOfNatToString(y);
  }

  /** `dd.mm.yyyy` splits back into its three fields. */
  lemma DottedDate(day: string, month: string, year: string)
    requires |day| == 2 && |month| == 2 && |year| == 4
    ensures var b := day + "." + month + "." + year;
      |b| == 10 && b[2] == '.' && b[5] == '.' && b[..2] == day && b[3..5] == month && b[6..] == year
  {
  }

  /** The customer number is 'KNR-' followed by seven digits in [1000000, 9999999], and the
      member-since year lies in [2015, 2024]. */
  lemma CustomerNumberShape(user: User)
    ensures var p := GenerateUserProfile(Some(user)).value;
      |p.customerNumber| == 11 && p.customerNumber[..4] == "KNR-" &&
      AllDigits(p.customerNumber[4..]) &&
      1000000 <= DecimalValue(p.customerNumber[4..]) <= 9999999 &&
      AllDigits(p.memberSince) && 2015 <= DecimalValue(p.memberSince) <= 2024
  {
    var hash := HashOf(ProfileSeed(user));
    var p := GenerateUserProfile(Some(user)).value;
    assert p.customerNumber == CustomerNumberText(hash);
    assert p.memberSince == NatToString(MemberSinceYear(hash));
    CustomerNumberFields(hash);
    DecimalValueOfNatToString(MemberSinceYear(hash));
  }

  /** The digits of the customer number behind any hash read back as that number. */
  lemma CustomerNumberFields(hash: nat)
    ensures var c := CustomerNumberText(hash);
      |c| == 11 && c[..4] == "KNR-" && AllDigits(c[4..]) && DecimalValue(c[4..]) == CustomerNumber(hash)
  {
    var n := CustomerNumber(hash);
    assert Pow10(6) == 1000000 && Pow10(7) == 10000000;
    NatToStringLength(n, 7);
    DecimalValueOfNatToString(n);
    var c := "KNR-" + NatToString(n);
    assert c[4..] == NatToString(n);
  }

  /** The phone number is `+47 4xx yy zzw`: three space-separated digit groups after the
      country code, reading back as a number in [400, 499], one in [10, 99], and a two-digit
      number in [10, 99] followed by one digit. */
  lemma PhoneShape(hash: nat)
    ensures var t := PhoneNumber(hash);
      |t| == 14 && t[..4] == "+47 " && t[4] == '4' && t[7] == ' ' && t[10] == ' ' &&
      AllDigits(t[4..7]) && AllDigits(t[8..10]) && AllDigits(t[11..]) &&
      DecimalValue(t[4..7]) == 400 + hash % 100 &&
      DecimalValue(t[8..10]) == hash % 90 + 10 &&
      DecimalValue(t[11..]) == 10 * (hash * 3 % 90 + 10) + hash * 7 % 10
  {
    var a, b, c, d := 400 + hash % 100, hash % 90 + 10, hash * 3 % 90 + 10, hash * 7 % 10;
    PrintedInRange(a, 3);
    PrintedInRange(b, 2);
    PrintedInRange(c, 2);
    LeadingFour(a);
    LastDigit(NatToString(c), d);
    PhoneGroups(NatToString(a), NatToString(b), NatToString(c), NatToString(d));
  }

  /** A number of k digits prints as k digits that read back as the number. */
  lemma PrintedInRange(n: nat, k: nat)
    requires 1 <= k <= 3 && Pow10(k - 1) <= n < Pow10(k)
    ensures |NatToString(n)| == k && DecimalValue(NatToString(n)) == n
  {
    NatToStringLength(n, k);
    DecimalValueOfNatToString(n);
  }

  /** A number in [400, 499] prints with a leading '4'. */
  lemma LeadingFour(a: nat)
    requires 400 <= a <= 499
    ensures NatToString(a)[0] == '4'
  {
    assert NatToString(a) == NatToString(a / 10) + [DigitChar(a % 10)];
    assert NatToString(a / 10) == NatToString(a / 100) + [DigitChar(a / 10 % 10)];
    assert a / 100 == 4;
  }

  /** Appending one printed digit multiplies the value read back by ten and adds it. */
  lemma LastDigit(s: string, d: nat)
    requires AllDigits(s) && d < 10
    ensures AllDigits(s + NatToString(d)) && DecimalValue(s + NatToString(d)) == 10 * DecimalValue(s) + d
  {
    var t := s + NatToString(d);
    assert t[..|t| - 1] == s;
  }

  /** Where the groups of the phone number sit. */
  lemma PhoneGroups(sa: string, sb: string, sc: string, sd: string)
    requires |sa| == 3 && |sb| == 2 && |sc| == 2 && |sd| == 1
    ensures var t := "+47 " + sa + " " + sb + " " + sc + sd;
      |t| == 14 && t[..4] == "+47 " && t[4] == sa[0] && t[7] == ' ' && t[10] == ' ' &&
      t[4..7] == sa && t[8..10] == sb && t[11..] == sc + sd
  {
  }

  /** The street is one of the street names, a space and a house number in [1, 150]. */
  lemma UserStreetFields(user: User)
    ensures var hash := HashOf(ProfileSeed(user));
      var name := STREET_NAMES[hash % 8];
      var street := GenerateUserProfile(Some(user)).value.address.street;
      |street| > |name| + 1 && street[..|name|] == name && street[|name|] == ' ' &&
      AllDigits(street[|name| + 1..]) && DecimalValue(street[|name| + 1..]) == hash % 150 + 1 &&
      1 <= DecimalValue(street[|name| + 1..]) <= 150
  {
    var hash := HashOf(ProfileSeed(user));
    WordThenNumber(STREET_NAMES[hash % 8], hash % 150 + 1);
  }

  /** formatAddress: '' without an address, else "street, postalCode city". */
  function FormatAddress(address: Option<ProfileAddress>): (r: string)
    ensures address.None? ==> r == ""
    ensures address.Some? ==>
      var a := address.value;
      |r| == |a.street| + |a.postalCode| + |a.city| + 3 &&
      r[..|a.street|] == a.street && r[|a.street|..|a.street| + 2] == ", " &&
      r[|a.street| + 2..|a.street| + 2 + |a.postalCode|] == a.postalCode &&
      r[|a.street| + 2 + |a.postalCode|] == ' ' &&
      r[|r| - |a.city|..] == a.city
  {
    if address.None? then ""
    else
      var a := address.value;
      a.street + ", " + a.postalCode + " " + a.city
  }
}
