/** frontend/src/screens/LoginScreen.js: the login button's state and text, and the lines
    shown around it, derived from the loading flag and the chosen customer type ("" when
    none is chosen). */
module LoginScreen {
  import opened Wrappers

  const LOADING_TEXT: string := "Laster..."
  const CHOOSE_TYPE_TEXT: string := "Velg kundetype f\U{00F8}rst"
  const LOGIN_TEXT: string := "Logg inn med Auth0"

  /** isLoginDisabled. */
  predicate IsLoginDisabled(loading: bool, selectedCustomerType: string) {
    loading || selectedCustomerType == ""
  }

  /** getButtonText: loading takes precedence over a missing type. */
  function ButtonText(loading: bool, selectedCustomerType: string): (r: string)
    ensures r == LOADING_TEXT <==> loading
    ensures r == CHOOSE_TYPE_TEXT <==> !loading && selectedCustomerType == ""
    ensures r == LOGIN_TEXT <==> !IsLoginDisabled(loading, selectedCustomerType)
  {
    assert LOADING_TEXT != CHOOSE_TYPE_TEXT && LOADING_TEXT != LOGIN_TEXT && CHOOSE_TYPE_TEXT != LOGIN_TEXT by {
      assert LOADING_TEXT[0] != CHOOSE_TYPE_TEXT[0] && LOADING_TEXT[0] == LOGIN_TEXT[0];
      assert LOADING_TEXT[1] != LOGIN_TEXT[1] && CHOOSE_TYPE_TEXT[0] != LOGIN_TEXT[0];
    }
    if loading then LOADING_TEXT
    else if selectedCustomerType == "" then CHOOSE_TYPE_TEXT
    else LOGIN_TEXT
  }

  /** The hint asking for a customer type. */
  predicate ShowsHint(selectedCustomerType: string) {
    selectedCustomerType == ""
  }

  /** The "logging in as" line: absent without a type; any type other than 'private' reads
      as a business customer. */
  function SelectedTypeLine(selectedCustomerType: string): (r: Option<string>)
    ensures r.None? <==> ShowsHint(selectedCustomerType)
    ensures r.Some? ==> (r.value == "\U{1F464} Privatkunde" <==> selectedCustomerType == "private")
  {
    if selectedCustomerType == "" then None
    else if selectedCustomerType == "private" then Some("\U{1F464} Privatkunde")
    else
      assert "\U{1F3E2} Bedriftskunde"[0] != "\U{1F464} Privatkunde"[0];
      Some("\U{1F3E2} Bedriftskunde")
  }

  /** The button variant: primary once a type is chosen. */
  function Variant(selectedCustomerType: string): (r: string)
    ensures r == "primary" <==> !ShowsHint(selectedCustomerType)
    ensures r == "primary" || r == "secondary"
  {
    if selectedCustomerType != "" then "primary" else "secondary"
  }

  /** Exactly one of the hint and the "logging in as" line shows, and when not loading the
      button is enabled exactly when it is styled primary. */
  lemma HintAndButtonAgree(loading: bool, selectedCustomerType: string)
    ensures ShowsHint(selectedCustomerType) <==> SelectedTypeLine(selectedCustomerType).None?
    ensures !loading ==>
      (!IsLoginDisabled(loading, selectedCustomerType) <==> Variant(selectedCustomerType) == "primary")
    ensures IsLoginDisabled(loading, selectedCustomerType) <==> ButtonText(loading, selectedCustomerType) != LOGIN_TEXT
  {
  }
}
