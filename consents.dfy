/** The consent record the consent store, the consent screen and the app shell pass around:
    a JavaScript object of boolean flags keyed by consent name. */
module Consents {
  import opened Wrappers

  /** A consent record; keys beyond the four standard ones are kept as given. */
  type Consents = map<string, bool>

  const NECESSARY: string := "necessary"
  const ANALYTICS: string := "analytics"
  const MARKETING: string := "marketing"
  const THIRD_PARTY: string := "thirdParty"

  /** DEFAULT_CONSENTS: only the necessary consent is given. */
  const DEFAULT_CONSENTS: Consents :=
    map[NECESSARY := true, ANALYTICS := false, MARKETING := false, THIRD_PARTY := false]

  /** The four standard flags all set: what "accept all" produces. */
  const ALL_ACCEPTED: Consents :=
    map[NECESSARY := true, ANALYTICS := true, MARKETING := true, THIRD_PARTY := true]

  /** The necessary consent is recorded and true. */
  predicate NecessaryGranted(c: Consents) {
    NECESSARY in c && c[NECESSARY]
  }

  /** `{ ...DEFAULT_CONSENTS, ...userConsents, necessary: true }`: the defaults overridden
      by the user's choices, with the necessary consent forced on. */
  function AcceptedRecord(userConsents: Consents): (r: Consents)
    ensures r.Keys == DEFAULT_CONSENTS.Keys + userConsents.Keys
    ensures NecessaryGranted(r)
    ensures forall k :: k in userConsents && k != NECESSARY ==> r[k] == userConsents[k]
    ensures forall k :: k in DEFAULT_CONSENTS && k !in userConsents ==> r[k] == DEFAULT_CONSENTS[k]
  {
    (DEFAULT_CONSENTS + userConsents)[NECESSARY := true]
  }

  /** `{ ...consents, [key]: value }`; spreading a missing record yields no keys. */
  function WithConsent(consents: Option<Consents>, key: string, value: bool): (r: Consents)
    ensures key in r && r[key] == value
    ensures consents.Some? ==> r.Keys == consents.value.Keys + {key}
    ensures consents.None? ==> r.Keys == {key}
    ensures consents.Some? ==> forall k :: k in consents.value && k != key ==> r[k] == consents.value[k]
  {
    (if consents.Some? then consents.value else map[])[key := value]
  }

  /** `consents?.[key] ?? false`: a consent counts only when recorded and true. */
  function ConsentGiven(consents: Option<Consents>, key: string): (r: bool)
    ensures r <==> consents.Some? && key in consents.value && consents.value[key]
    ensures consents.None? ==> !r
  {
    match consents
    case None => false
    case Some(c) => if key in c then c[key] else false
  }

  /** `{ ...consents, [key]: !consents[key] }` on a present record: an absent key reads as
      undefined and so becomes true. */
  function Flipped(c: Consents, key: string): (r: Consents)
    ensures r.Keys == c.Keys + {key}
    ensures r[key] == !ConsentGiven(Some(c), key)
    ensures forall k :: k in c && k != key ==> r[k] == c[k]
  {
    WithConsent(Some(c), key, !ConsentGiven(Some(c), key))
  }

  /** Flipping a recorded key twice gives back the record. */
  lemma FlipTwice(c: Consents, key: string)
    requires key in c
    ensures Flipped(Flipped(c, key), key) == c
  {
    var twice := Flipped(Flipped(c, key), key);
    assert twice.Keys == c.Keys;
    assert forall k :: k in c ==> twice[k] == c[k];
  }

  /** Flipping any key but the necessary one keeps the necessary consent as it was. */
  lemma FlipKeepsNecessary(c: Consents, key: string)
    requires key != NECESSARY
    ensures NecessaryGranted(Flipped(c, key)) <==> NecessaryGranted(c)
  {
  }
}
