/** frontend/App.js: the older app shell that keeps the session and the consent record in
    its own state instead of the context providers. Token and userinfo outcomes come in as
    parameters, and the device store is the shared AsyncStorage model. */
module App {
  import opened Wrappers
  import opened Consents
  import opened Storage
  import opened ProfileService
  import opened AuthContext

  /** The three-way gate that picks what the shell renders. */
  datatype Screen = LoginScreen | ConsentScreen | MainTabs

  const HOME_TAB: string := "home"

  /** The gate: login without a user, consent for a user who has not consented, the tabs
      otherwise. */
  function Gate(user: Option<User>, hasConsented: bool): (r: Screen)
    ensures r == LoginScreen <==> user.None?
    ensures r == ConsentScreen <==> user.Some? && !hasConsented
    ensures r == MainTabs <==> user.Some? && hasConsented
  {
    if user.None? then LoginScreen
    else if !hasConsented then ConsentScreen
    else MainTabs
  }

  /** The (user, token) an exchange leaves behind. The token is stored as soon as it is
      issued and a later failure is only logged, so it stays; the answered userinfo body
      becomes the user whether or not the response was ok; a failure leaves the user as it
      was. */
  function AppExchangeResult(token: TokenOutcome, info: UserInfoOutcome, user: Option<User>, accessToken: Option<string>)
    : (r: (Option<User>, Option<string>))
    ensures token.TokenFailed? ==> r == (user, accessToken)
    ensures token.TokenIssued? ==> r.1 == Some(token.accessToken)
    ensures token.TokenIssued? && info.UserInfoAnswered? ==> r.0 == Some(info.claims)
    ensures info.UserInfoFailed? ==> r.0 == user
  {
    match token
    case TokenFailed(_) => (user, accessToken)
    case TokenIssued(t) =>
      match info
      case UserInfoFailed(_) => (user, Some(t))
      case UserInfoAnswered(_, claims) => (Some(claims), Some(t))
  }

  /** The shell and the session provider agree on a full success, but a userinfo answer
      that is not ok, or a userinfo failure, leaves the shell holding the token while the
      provider clears it and reports an error. */
  lemma ShellKeepsTokenAfterUserinfoFailure(token: TokenOutcome, info: UserInfoOutcome, user: Option<User>, accessToken: Option<string>)
    ensures token.TokenIssued? && info.UserInfoAnswered? && info.ok ==>
      AppExchangeResult(token, info, user, accessToken) == (ExchangeResult(token, info).0, ExchangeResult(token, info).1)
    ensures token.TokenIssued? && !(info.UserInfoAnswered? && info.ok) ==>
      AppExchangeResult(token, info, user, accessToken).1.Some? &&
      ExchangeResult(token, info).1.None? && ExchangeResult(token, info).2.Some?
    ensures token.TokenIssued? && info.UserInfoAnswered? && !info.ok ==>
      AppExchangeResult(token, info, user, accessToken).0 == Some(info.claims) && ExchangeResult(token, info).0.None?
  {
  }

  /** Without the consent store's guard, the shell's change handler flips the necessary
      consent like any other: a granted record loses it. */
  lemma ShellChangeRevokesNecessary(c: Consents)
    requires NecessaryGranted(c)
    ensures !NecessaryGranted(Flipped(c, NECESSARY))
  {
  }

  class AppShell {
    var user: Option<User>
    var accessToken: Option<string>
    var activeTab: string
    var loading: bool
    var hasConsented: bool
    var consents: Option<Consents>
    const store: AsyncStorage

    /** The initial state: signed out, home tab, not loading, no consent. */
    constructor(store: AsyncStorage)
      ensures this.store == store
      ensures user.None? && accessToken.None? && activeTab == HOME_TAB && !loading
      ensures !hasConsented && consents.None?
    {
      this.store := store;
      user := None;
      accessToken := None;
      activeTab := HOME_TAB;
      loading := false;
      hasConsented := false;
      consents := None;
    }

    /** What the shell renders now. */
    function CurrentScreen(): Screen
      reads this
    {
      Gate(user, hasConsented)
    }

    /** checkExistingConsent, run once at start: a stored record becomes the current one
        and counts as consent; a missing record or a failed read changes nothing. */
    method CheckExistingConsent(readFails: bool)
      modifies this
      ensures !readFails && CONSENT_STORAGE_KEY in store.items ==>
        consents == Some(store.items[CONSENT_STORAGE_KEY]) && hasConsented
      ensures readFails || CONSENT_STORAGE_KEY !in store.items ==>
        consents == old(consents) && hasConsented == old(hasConsented)
      ensures user == old(user) && accessToken == old(accessToken) && activeTab == old(activeTab) && loading == old(loading)
    {
      var stored := store.GetItem(CONSENT_STORAGE_KEY, readFails);
      if stored.Read? && stored.value.Some? {
        consents := Some(stored.value.value);
        hasConsented := true;
      }
    }

    /** exchangeCodeForToken: loading while it runs, ended in every case. */
    method ExchangeCodeForToken(token: TokenOutcome, info: UserInfoOutcome)
      modifies this
      ensures (user, accessToken) == AppExchangeResult(token, info, old(user), old(accessToken))
      ensures !loading
      ensures activeTab == old(activeTab) && hasConsented == old(hasConsented) && consents == old(consents)
    {
      loading := true;
      if token.TokenIssued? {
        accessToken := Some(token.accessToken);
        if info.UserInfoAnswered? {
          user := Some(info.claims);
        }
      }
      loading := false;
    }

    /** The response effect: only a success starts the exchange. */
    method HandleResponse(response: AuthResponse, token: TokenOutcome, info: UserInfoOutcome)
      modifies this
      ensures response.Success? ==>
        (user, accessToken) == AppExchangeResult(token, info, old(user), old(accessToken)) && !loading
      ensures !response.Success? ==>
        user == old(user) && accessToken == old(accessToken) && loading == old(loading)
      ensures activeTab == old(activeTab) && hasConsented == old(hasConsented) && consents == old(consents)
    {
      if response.Success? {
        ExchangeCodeForToken(token, info);
      }
    }

    /** handleLogout: the in-memory session and consent are cleared first, so a failed
        removal of the stored record does not undo them. */
    method HandleLogout(removeFails: bool)
      modifies this, store
      ensures user.None? && accessToken.None? && activeTab == HOME_TAB
      ensures !hasConsented && consents.None?
      ensures CurrentScreen() == LoginScreen
      ensures loading == old(loading)
      ensures store.items == if removeFails then old(store.items) else old(store.items) - {CONSENT_STORAGE_KEY}
    {
      user := None;
      accessToken := None;
      activeTab := HOME_TAB;
      hasConsented := false;
      consents := None;
      var _ := store.RemoveItem(CONSENT_STORAGE_KEY, removeFails);
    }

    /** handleDeleteAccount: the same as logging out. */
    method HandleDeleteAccount(removeFails: bool)
      modifies this, store
      ensures user.None? && accessToken.None? && activeTab == HOME_TAB
      ensures !hasConsented && consents.None?
      ensures loading == old(loading)
      ensures store.items == if removeFails then old(store.items) else old(store.items) - {CONSENT_STORAGE_KEY}
    {
      HandleLogout(removeFails);
    }

    /** handleConsent: the record becomes current only if it was stored, but the user
        counts as consented either way, so the gate lets a signed-in user through even
        when nothing was saved. */
    method HandleConsent(userConsents: Consents, writeFails: bool)
      modifies this, store
      ensures hasConsented
      ensures consents == if writeFails then old(consents) else Some(userConsents)
      ensures store.items == if writeFails then old(store.items) else old(store.items)[CONSENT_STORAGE_KEY := userConsents]
      ensures user == old(user) && accessToken == old(accessToken) && activeTab == old(activeTab) && loading == old(loading)
      ensures user.Some? ==> CurrentScreen() == MainTabs
    {
      var ok := store.SetItem(CONSENT_STORAGE_KEY, userConsents, writeFails);
      if ok {
        consents := Some(userConsents);
      }
      hasConsented := true;
    }

    /** handleConsentChange: reading the flag of a missing record throws before anything
        happens; otherwise the key is flipped, with no exception for 'necessary', and the
        new record becomes current only if it was stored. */
    method HandleConsentChange(key: string, writeFails: bool)
      modifies this, store
      ensures old(consents).None? ==> consents == old(consents) && store.items == old(store.items)
      ensures old(consents).Some? ==>
        consents == (if writeFails then old(consents) else Some(Flipped(old(consents).value, key))) &&
        store.items == (if writeFails then old(store.items) else old(store.items)[CONSENT_STORAGE_KEY := Flipped(old(consents).value, key)])
      ensures hasConsented == old(hasConsented)
      ensures user == old(user) && accessToken == old(accessToken) && activeTab == old(activeTab) && loading == old(loading)
    {
      if consents.None? {
        return;
      }
      var updatedConsents := Flipped(consents.value, key);
      var ok := store.SetItem(CONSENT_STORAGE_KEY, updatedConsents, writeFails);
      if ok {
        consents := Some(updatedConsents);
      }
    }
  }
}
