/** frontend/src/services/delegation.js: the mock power-of-attorney ("fullmakt") lists of a
    user, access-level lookups, expiry, and validation of a new delegation. */
module DelegationService {
  import opened Wrappers
  import opened Seqs
  import opened JsString
  import opened Hash
  import opened MockData

  /** A delegation. An absent email is ""; `expiresDate` is the instant, in milliseconds
      since the epoch, that `new Date(expiresDate)` denotes, or None when there is none. */
  datatype Delegation = Delegation(
    id: nat,
    name: string,
    relationship: string,
    email: string,
    accessLevel: string,
    accessTypes: seq<string>,
    grantedDate: string,
    expiresDate: Option<int>)

  datatype UserDelegations = UserDelegations(givenTo: seq<Delegation>, receivedFrom: seq<Delegation>)

  /** 2025-06-01T00:00:00Z: ISO date-only strings denote midnight UTC. */
  const ERIK_EXPIRES: int := 1748736000000

  const SPOUSE_DELEGATION: Delegation :=
    Delegation(1, "Marie Hansen", "Ektefelle", "m.hansen@email.no", "full",
               ["Forsikringer", "Pensjon"], "2024-01-15", None)

  const ACCOUNTANT_DELEGATION: Delegation :=
    Delegation(2, "Erik Olsen", "Regnskapsf\U{00F8}rer", "erik@regnskap.no", "read",
               ["Forsikringer"], "2024-06-01", Some(ERIK_EXPIRES))

  const MOTHER_DELEGATION: Delegation :=
    Delegation(3, "Kari Nordmann", "Mor", "", "full",
               ["Forsikringer", "Pensjon"], "2023-08-20", None)

  // ---------------------------------------------------------------------------
  // Generation
  // ---------------------------------------------------------------------------

  /** The lists `generateUserDelegations(userId)` returns. */
  function Delegations(userId: string): UserDelegations {
    if userId == "" then UserDelegations([], [])
    else
      var hash := HashOf(userId);
      UserDelegations(
        Selected([(hash % 3 == 0, SPOUSE_DELEGATION), (hash % 5 == 0, ACCOUNTANT_DELEGATION)]),
        Selected([(hash % 4 == 0, MOTHER_DELEGATION)]))
  }

  /** generateUserDelegations: the conditional pushes, as written. */
  method GenerateUserDelegations(userId: string) returns (result: UserDelegations)
    ensures result == Delegations(userId)
  {
    if userId == "" {
      return UserDelegations([], []);
    }
    var hash := HashCode(userId);
    var givenTo: seq<Delegation> := [];
    if hash % 3 == 0 {
      givenTo := givenTo + [SPOUSE_DELEGATION];
    }
    if hash % 5 == 0 {
      givenTo := givenTo + [ACCOUNTANT_DELEGATION];
    }
    var receivedFrom: seq<Delegation> := [];
    if hash % 4 == 0 {
      receivedFrom := receivedFrom + [MOTHER_DELEGATION];
    }
    SelectedPair(hash % 3 == 0, SPOUSE_DELEGATION, hash % 5 == 0, ACCOUNTANT_DELEGATION);
    SelectedSingle(hash % 4 == 0, MOTHER_DELEGATION);
    return UserDelegations(givenTo, receivedFrom);
  }

  /** One conditional push: the value when its flag is set, nothing otherwise. Used to
      unfold the one-push list of received delegations. */
  lemma SelectedSingle<T>(a: bool, x: T)
    ensures Selected([(a, x)]) == if a then [x] else []
  {
    assert [(a, x)][..0] == [];
  }

  /** Two conditional pushes in a row: the flagged values in push order. Used to unfold
      the two-push list of given delegations. */
  lemma SelectedPair<T>(a: bool, x: T, b: bool, y: T)
    ensures Selected([(a, x), (b, y)]) == (if a then [x] else []) + (if b then [y] else [])
  {
    assert [(a, x), (b, y)][..1] == [(a, x)];
    SelectedSingle(a, x);
  }

  /** Without a user id both lists are empty. Otherwise the spouse (id 1) is given access
      iff the hash is a multiple of 3 and the accountant (id 2) iff it is a multiple of 5,
      in that order; the mother's delegation (id 3) is received iff the hash is a multiple
      of 4. */
  lemma DelegationsShape(userId: string)
    ensures var d := Delegations(userId);
      var hash := HashOf(userId);
      (userId == "" ==> d.givenTo == [] && d.receivedFrom == []) &&
      (userId != "" ==>
        (SPOUSE_DELEGATION in d.givenTo <==> hash % 3 == 0) &&
        (ACCOUNTANT_DELEGATION in d.givenTo <==> hash % 5 == 0) &&
        (d.receivedFrom == if hash % 4 == 0 then [MOTHER_DELEGATION] else [])) &&
      |d.givenTo| <= 2 && |d.receivedFrom| <= 1 &&
      (forall i, j :: 0 <= i < j < |d.givenTo| ==> d.givenTo[i].id < d.givenTo[j].id)
  {
    if userId != "" {
      var hash := HashOf(userId);
      SelectedPair(hash % 3 == 0, SPOUSE_DELEGATION, hash % 5 == 0, ACCOUNTANT_DELEGATION);
      SelectedSingle(hash % 4 == 0, MOTHER_DELEGATION);
    }
  }

  // ---------------------------------------------------------------------------
  // Access levels
  // ---------------------------------------------------------------------------

  /** getAccessLevelName: `ACCESS_LEVELS[level]?.name || level`. */
  function GetAccessLevelName(level: string): (r: string)
    ensures level in ACCESS_LEVELS ==> r == ACCESS_LEVELS[level].name
    ensures level !in ACCESS_LEVELS ==> r == level
  {
    if level in ACCESS_LEVELS && ACCESS_LEVELS[level].name != "" then ACCESS_LEVELS[level].name else level
  }

  /** getAccessLevelDescription: `ACCESS_LEVELS[level]?.description || level`. */
  function GetAccessLevelDescription(level: string): (r: string)
    ensures level in ACCESS_LEVELS ==> r == ACCESS_LEVELS[level].description
    ensures level !in ACCESS_LEVELS ==> r == level
  {
    if level in ACCESS_LEVELS && ACCESS_LEVELS[level].description != "" then ACCESS_LEVELS[level].description
    else level
  }

  // ---------------------------------------------------------------------------
  // Expiry
  // ---------------------------------------------------------------------------

  /** isDelegationExpired, with the current instant `now` passed in. */
  function IsDelegationExpired(delegation: Delegation, now: int): (r: bool)
    ensures delegation.expiresDate.None? ==> !r
    ensures delegation.expiresDate.Some? ==> (r <==> delegation.expiresDate.value < now)
  {
    if delegation.expiresDate.None? then false else delegation.expiresDate.value < now
  }

  /** filterActiveDelegations: the non-expired delegations, in order. */
  function FilterActiveDelegations(delegations: seq<Delegation>, now: int): (r: seq<Delegation>)
    ensures |r| <= |delegations|
    ensures forall i :: 0 <= i < |r| ==> r[i] in delegations && !IsDelegationExpired(r[i], now)
    ensures forall i :: 0 <= i < |delegations| && !IsDelegationExpired(delegations[i], now) ==>
      delegations[i] in r
  {
    Filter((d: Delegation) => !IsDelegationExpired(d, now), delegations)
  }

  /** Time only shrinks the active list: whatever is active later was active earlier. */
  lemma {:induction false} ActiveShrinksOverTime(delegations: seq<Delegation>, earlier: int, later: int)
    requires earlier <= later
    ensures |FilterActiveDelegations(delegations, later)| <= |FilterActiveDelegations(delegations, earlier)|
    ensures forall i :: 0 <= i < |FilterActiveDelegations(delegations, later)| ==>
      FilterActiveDelegations(delegations, later)[i] in FilterActiveDelegations(delegations, earlier)
  {
    if |delegations| > 0 {
      var init, last := delegations[..|delegations| - 1], delegations[|delegations| - 1];
      ActiveShrinksOverTime(init, earlier, later);
      assert delegations == init + [last];
      FilterAppend((d: Delegation) => !IsDelegationExpired(d, later), init, [last]);
      FilterAppend((d: Delegation) => !IsDelegationExpired(d, earlier), init, [last]);
    }
  }

  /** The generated delegations without an expiry never lapse; the accountant's lapses
      after 2025-06-01. */
  lemma GeneratedExpiry(now: int)
    ensures !IsDelegationExpired(SPOUSE_DELEGATION, now) && !IsDelegationExpired(MOTHER_DELEGATION, now)
    ensures IsDelegationExpired(ACCOUNTANT_DELEGATION, now) <==> now > ERIK_EXPIRES
  {
  }

  // ---------------------------------------------------------------------------
  // Validation
  // ---------------------------------------------------------------------------

  /** The form fields of a new delegation; an absent field is "". */
  datatype NewDelegation = NewDelegation(name: string, email: string, relationship: string, accessLevel: string)

  datatype ValidationResult = ValidationResult(valid: bool, errors: seq<string>)

  const NAME_ERROR: string := "Navn m\U{00E5} v\U{00E6}re minst 2 tegn"
  const EMAIL_ERROR: string := "Ugyldig e-postadresse"
  const RELATIONSHIP_ERROR: string := "Relasjon m\U{00E5} velges"
  const ACCESS_LEVEL_ERROR: string := "Tilgangsniv\U{00E5} m\U{00E5} velges"

  /** The name check: missing, or shorter than two UTF-16 units once trimmed. */
  predicate NameInvalid(delegation: NewDelegation) {
    delegation.name == "" || Length(Trim(delegation.name)) < 2
  }

  predicate EmailInvalid(delegation: NewDelegation) {
    delegation.email == "" || '@' !in delegation.email
  }

  /** The messages validateNewDelegation collects, in check order. */
  function ValidationErrors(delegation: NewDelegation): seq<string> {
    Selected([
      (NameInvalid(delegation), NAME_ERROR),
      (EmailInvalid(delegation), EMAIL_ERROR),
      (delegation.relationship == "", RELATIONSHIP_ERROR),
      (delegation.accessLevel == "", ACCESS_LEVEL_ERROR)])
  }

  /** validateNewDelegation: the four checks pushing their messages, as written. */
  method ValidateNewDelegation(delegation: NewDelegation) returns (result: ValidationResult)
    ensures result.errors == ValidationErrors(delegation)
    ensures result.valid <==> result.errors == []
  {
    SelectedFour(NameInvalid(delegation), NAME_ERROR, EmailInvalid(delegation), EMAIL_ERROR,
                 delegation.relationship == "", RELATIONSHIP_ERROR, delegation.accessLevel == "", ACCESS_LEVEL_ERROR);
    var errors: seq<string> := [];
    if NameInvalid(delegation) {
      errors := errors + [NAME_ERROR];
    }
    assert errors == if NameInvalid(delegation) then [NAME_ERROR] else [];
    ghost var afterName := errors;
    if EmailInvalid(delegation) {
      errors := errors + [EMAIL_ERROR];
    }
    assert errors == afterName + (if EmailInvalid(delegation) then [EMAIL_ERROR] else []);
    ghost var afterEmail := errors;
    if delegation.relationship == "" {
      errors := errors + [RELATIONSHIP_ERROR];
    }
    assert errors == afterEmail + (if delegation.relationship == "" then [RELATIONSHIP_ERROR] else []);
    ghost var afterRelationship := errors;
    if delegation.accessLevel == "" {
      errors := errors + [ACCESS_LEVEL_ERROR];
    }
    assert errors == afterRelationship + (if delegation.accessLevel == "" then [ACCESS_LEVEL_ERROR] else []);
    return ValidationResult(|errors| == 0, errors);
  }

  lemma SelectedFour<T>(a: bool, w: T, b: bool, x: T, c: bool, y: T, d: bool, z: T)
    ensures Selected([(a, w), (b, x), (c, y), (d, z)])
         == (if a then [w] else []) + (if b then [x] else []) + (if c then [y] else []) + (if d then [z] else [])
  {
    var cands := [(a, w), (b, x), (c, y), (d, z)];
    assert cands[..3] == [(a, w), (b, x), (c, y)];
    assert cands[..3][..2] == [(a, w), (b, x)];
    SelectedPair(a, w, b, x);
  }

  /** A new delegation is valid iff its trimmed name has at least two units, its email
      contains '@', and a relationship and an access level are chosen; each message is
      present exactly when its check fails. */
  lemma ValidationErrorsExact(delegation: NewDelegation)
    ensures var errors := ValidationErrors(delegation);
      (errors == [] <==>
        Length(Trim(delegation.name)) >= 2 && '@' in delegation.email &&
        delegation.relationship != "" && delegation.accessLevel != "") &&
      (NAME_ERROR in errors <==> NameInvalid(delegation)) &&
      (EMAIL_ERROR in errors <==> EmailInvalid(delegation)) &&
      (RELATIONSHIP_ERROR in errors <==> delegation.relationship == "") &&
      (ACCESS_LEVEL_ERROR in errors <==> delegation.accessLevel == "") &&
      |errors| <= 4
  {
    SelectedFour(NameInvalid(delegation), NAME_ERROR, EmailInvalid(delegation), EMAIL_ERROR,
                 delegation.relationship == "", RELATIONSHIP_ERROR, delegation.accessLevel == "", ACCESS_LEVEL_ERROR);
    if delegation.name == "" {
      assert Trim(delegation.name) == "";
    }
    if delegation.email == "" {
      assert '@' !in delegation.email;
    }
  }
}
