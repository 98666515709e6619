/** frontend/src/constants/mockData.js: the fixed tables the mock-data generators index into. */
module MockData {
  import opened Wrappers

  datatype City = City(city: string, postalCode: string)

  /** `type` in the source; `typeName` here because `type` is a Dafny keyword. */
  datatype InsuranceType = InsuranceType(typeName: string, icon: string, prefix: string, category: string)

  /** A business role; `permissions` may in principle be missing, which the RBAC helpers guard against. */
  datatype Role = Role(id: string, name: string, permissions: Option<seq<string>>, description: string)

  datatype SensitiveAction = SensitiveAction(id: string, name: string, icon: string, description: string, requiresStepUp: bool)

  datatype AccessLevel = AccessLevel(id: string, name: string, description: string)

  const STREET_NAMES: seq<string> := [
    "Storgata", "Kirkegata", "Parkveien", "Solveien", "Fjordgata",
    "Bj\U{00F8}rkeall\U{00E9}en", "Granveien", "Osloveien"
  ]

  const CITIES: seq<City> := [
    City("Oslo", "0150"),
    City("Bergen", "5003"),
    City("Trondheim", "7010"),
    City("Stavanger", "4006"),
    City("Drammen", "3015"),
    City("Kristiansand", "4612")
  ]

  const LAST_NAMES: seq<string> := [
    "Hansen", "Johansen", "Olsen", "Larsen", "Andersen",
    "Pedersen", "Nilsen", "Kristiansen", "Jensen", "Karlsen",
    "Johnsen", "Pettersen", "Eriksen", "Berg", "Haugen"
  ]

  const INSURANCE_TYPES: seq<InsuranceType> := [
    InsuranceType("Bilforsikring", "\U{1F697}", "BIL", "ting"),
    InsuranceType("Innboforsikring", "\U{1F3E0}", "INN", "ting"),
    InsuranceType("Reiseforsikring", "\U{2708}\U{FE0F}", "REI", "person"),
    InsuranceType("Husforsikring", "\U{1F3E1}", "HUS", "ting"),
    InsuranceType("Livsforsikring", "\U{2764}\U{FE0F}", "LIV", "person"),
    InsuranceType("B\U{00E5}tforsikring", "\U{26F5}", "BAT", "ting"),
    InsuranceType("Dyreforsikring", "\U{1F415}", "DYR", "person")
  ]

  const BUSINESS_INSURANCE_TYPES: seq<InsuranceType> := [
    InsuranceType("N\U{00E6}ringsforsikring", "\U{1F3E2}", "N\U{00C6}R", "ting"),
    InsuranceType("Ansvarsforsikring", "\U{2696}\U{FE0F}", "ANS", "ting"),
    InsuranceType("Yrkesskadeforsikring", "\U{1F9BA}", "YRK", "person"),
    InsuranceType("Bedriftsbil", "\U{1F690}", "BIL", "ting"),
    InsuranceType("Kontorforsikring", "\U{1F5A5}\U{FE0F}", "KNT", "ting"),
    InsuranceType("Driftstapsforsikring", "\U{1F4C9}", "DRF", "ting")
  ]

  const COMPANY_NAMES: seq<string> := [
    "Nordvik AS", "Fjordtech Solutions", "Bergen Bygg AS",
    "Oslo Consulting Group", "Trondheim Transport", "Stavanger Shipping"
  ]

  const BUSINESS_ROLES: seq<Role> := [
    Role("daglig_leder", "Daglig leder", Some(["ting", "person", "pensjon"]),
         "Full tilgang til alle forsikringer og pensjon"),
    Role("hr_ansvarlig", "HR-ansvarlig", Some(["person", "pensjon"]),
         "Tilgang til personforsikringer og pensjon"),
    Role("regnskapsforer", "Regnskapsf\U{00F8}rer", Some(["ting"]),
         "Kun tilgang til tingforsikringer"),
    Role("okonomisjef", "\U{00D8}konomisjef", Some(["ting", "pensjon"]),
         "Tilgang til tingforsikringer og pensjon")
  ]

  const SENSITIVE_ACTIONS: seq<SensitiveAction> := [
    SensitiveAction("change_contact", "Endre kontaktinformasjon", "\U{1F4DD}",
                    "Endre e-post, telefon eller adresse", true),
    SensitiveAction("sign_agreement", "Signere avtale", "\U{270D}\U{FE0F}",
                    "Signere nye forsikringsavtaler", true),
    SensitiveAction("add_delegation", "Gi fullmakt", "\U{1F91D}",
                    "Gi andre tilgang til dine forsikringer", true),
    SensitiveAction("cancel_insurance", "Si opp forsikring", "\U{274C}",
                    "Avslutte en forsikringsavtale", true),
    SensitiveAction("view_policy", "Se forsikringsdetaljer", "\U{1F441}\U{FE0F}",
                    "Lese forsikringsinformasjon", false),
    SensitiveAction("report_claim", "Melde skade", "\U{1F4CB}",
                    "Registrere en skademelding", false)
  ]

  const ACCESS_LEVELS: map<string, AccessLevel> := map[
    "full" := AccessLevel("full", "Full tilgang", "Full tilgang (lese og endre)"),
    "read" := AccessLevel("read", "Lesetilgang", "Kun lesetilgang"),
    "limited" := AccessLevel("limited", "Begrenset tilgang", "Begrenset tilgang")
  ]

  /** The permission categories a role may hold. */
  predicate IsPermission(p: string) {
    p == "ting" || p == "person" || p == "pensjon"
  }

  /** The geographic, name and company tables are non-empty, so `hash % length` always
      indexes inside them. */
  lemma TableSizes()
    ensures |STREET_NAMES| == 8 && |CITIES| == 6 && |LAST_NAMES| == 15 && |COMPANY_NAMES| == 6
    ensures |INSURANCE_TYPES| == 7 && |BUSINESS_INSURANCE_TYPES| == 6
    ensures |BUSINESS_ROLES| == 4 && |SENSITIVE_ACTIONS| == 6
  {
  }

  /** Every insurance type, private or business, is a 'ting' or a 'person' insurance. */
  lemma InsuranceTypeCategories()
    ensures forall i :: 0 <= i < |INSURANCE_TYPES| ==>
      INSURANCE_TYPES[i].category == "ting" || INSURANCE_TYPES[i].category == "person"
    ensures forall i :: 0 <= i < |BUSINESS_INSURANCE_TYPES| ==>
      BUSINESS_INSURANCE_TYPES[i].category == "ting" || BUSINESS_INSURANCE_TYPES[i].category == "person"
  {
  }

  /** The four roles have distinct ids and permission lists drawn from {ting, person, pensjon};
      'daglig_leder' holds all three and 'regnskapsforer' (index 2) only 'ting'. */
  lemma RolesWellFormed()
    ensures forall i, j :: 0 <= i < j < |BUSINESS_ROLES| ==> BUSINESS_ROLES[i].id != BUSINESS_ROLES[j].id
    ensures forall i :: 0 <= i < |BUSINESS_ROLES| ==> BUSINESS_ROLES[i].permissions.Some?
    ensures forall i, k :: 0 <= i < |BUSINESS_ROLES| && 0 <= k < |BUSINESS_ROLES[i].permissions.value| ==>
      IsPermission(BUSINESS_ROLES[i].permissions.value[k])
    ensures BUSINESS_ROLES[0].id == "daglig_leder"
    ensures forall p :: IsPermission(p) ==> p in BUSINESS_ROLES[0].permissions.value
    ensures BUSINESS_ROLES[2].id == "regnskapsforer" && BUSINESS_ROLES[2].permissions == Some(["ting"])
  {
  }

  /** Action ids are distinct, and exactly the four state-changing actions demand step-up. */
  lemma SensitiveActionsStepUp()
    ensures forall i, j :: 0 <= i < j < |SENSITIVE_ACTIONS| ==> SENSITIVE_ACTIONS[i].id != SENSITIVE_ACTIONS[j].id
    ensures forall i :: 0 <= i < |SENSITIVE_ACTIONS| ==>
      (SENSITIVE_ACTIONS[i].requiresStepUp <==>
        SENSITIVE_ACTIONS[i].id in {"change_contact", "sign_agreement", "add_delegation", "cancel_insurance"})
  {
  }

  /** The access-level table is keyed by each entry's own id. */
  lemma AccessLevelsKeyedById()
    ensures ACCESS_LEVELS.Keys == {"full", "read", "limited"}
    ensures forall k :: k in ACCESS_LEVELS ==> ACCESS_LEVELS[k].id == k
  {
  }
}
