/** frontend/src/contexts/ConsentContext.js: the consent store. It holds the current consent
    record, whether the user has consented, and whether the stored record is still loading,
    and it mirrors every change into the device store. */
module ConsentContext {
  import opened Wrappers
  import opened Consents
  import opened Storage

  /** What exportConsentData returns; the export timestamp is not modelled. */
  datatype ConsentExport = ConsentExport(consents: Consents, version: string)

  /** exportConsentData on a given record: nothing without consents, otherwise the record
      under version '1.0'. */
  function ExportOf(consents: Option<Consents>): (r: Option<ConsentExport>)
    ensures consents.None? <==> r.None?
    ensures r.Some? ==> r.value.consents == consents.value && r.value.version == "1.0"
  {
    match consents
    case None => None
    case Some(c) => Some(ConsentExport(c, "1.0"))
  }

  class ConsentProvider {
    var consents: Option<Consents>
    var hasConsented: bool
    var isLoading: bool
    const store: AsyncStorage

    /** The initial state: no consents, not consented, loading. */
    constructor(store: AsyncStorage)
      ensures this.store == store
      ensures consents == None && !hasConsented && isLoading
    {
      this.store := store;
      consents := None;
      hasConsented := false;
      isLoading := true;
    }

    /** loadStoredConsents: a stored record becomes the current one and counts as consent;
        a missing record or a failed read changes nothing; loading ends either way. */
    method LoadStoredConsents(readFails: bool)
      modifies this
      ensures !isLoading
      ensures !readFails && CONSENT_STORAGE_KEY in store.items ==>
        consents == Some(store.items[CONSENT_STORAGE_KEY]) && hasConsented
      ensures readFails || CONSENT_STORAGE_KEY !in store.items ==>
        consents == old(consents) && hasConsented == old(hasConsented)
    {
      var stored := store.GetItem(CONSENT_STORAGE_KEY, readFails);
      if stored.Read? && stored.value.Some? {
        consents := Some(stored.value.value);
        hasConsented := true;
      }
      isLoading := false;
    }

    /** saveConsents: true iff the write succeeded. */
    method SaveConsents(newConsents: Consents, writeFails: bool) returns (saved: bool)
      modifies store
      ensures saved == !writeFails
      ensures store.items == if saved then old(store.items)[CONSENT_STORAGE_KEY := newConsents] else old(store.items)
    {
      saved := store.SetItem(CONSENT_STORAGE_KEY, newConsents, writeFails);
    }

    /** clearStoredConsents: true iff the removal succeeded. */
    method ClearStoredConsents(removeFails: bool) returns (cleared: bool)
      modifies store
      ensures cleared == !removeFails
      ensures store.items == if cleared then old(store.items) - {CONSENT_STORAGE_KEY} else old(store.items)
    {
      cleared := store.RemoveItem(CONSENT_STORAGE_KEY, removeFails);
    }

    /** acceptConsents: the accepted record becomes current and the user counts as consented
        whether or not it could be saved; the result says whether it was saved. */
    method AcceptConsents(userConsents: Consents, writeFails: bool) returns (saved: bool)
      modifies this, store
      ensures saved == !writeFails
      ensures consents == Some(AcceptedRecord(userConsents)) && hasConsented
      ensures NecessaryGranted(consents.value)
      ensures isLoading == old(isLoading)
      ensures store.items == if saved then old(store.items)[CONSENT_STORAGE_KEY := AcceptedRecord(userConsents)]
                             else old(store.items)
    {
      var consentsToSave := AcceptedRecord(userConsents);
      saved := SaveConsents(consentsToSave, writeFails);
      consents := Some(consentsToSave);
      hasConsented := true;
    }

    /** updateConsent: the necessary consent cannot be changed; any other key is set only
        if the updated record could be saved. */
    method UpdateConsent(key: string, value: bool, writeFails: bool) returns (saved: bool)
      modifies this, store
      ensures key == NECESSARY ==> !saved && store.items == old(store.items)
      ensures key != NECESSARY ==> saved == !writeFails
      ensures consents == if saved then Some(WithConsent(old(consents), key, value)) else old(consents)
      ensures store.items == if saved then old(store.items)[CONSENT_STORAGE_KEY := WithConsent(old(consents), key, value)]
                             else old(store.items)
      ensures hasConsented == old(hasConsented) && isLoading == old(isLoading)
      ensures old(consents).Some? && NecessaryGranted(old(consents).value) ==> NecessaryGranted(consents.value)
    {
      if key == NECESSARY {
        return false;
      }
      var updatedConsents := WithConsent(consents, key, value);
      saved := SaveConsents(updatedConsents, writeFails);
      if saved {
        consents := Some(updatedConsents);
      }
    }

    /** toggleConsent: nothing without a record; otherwise updateConsent with the flag
        flipped. */
    method ToggleConsent(key: string, writeFails: bool) returns (saved: bool)
      modifies this, store
      ensures old(consents).None? ==> !saved && consents == old(consents) && store.items == old(store.items)
      ensures old(consents).Some? && key != NECESSARY ==> saved == !writeFails
      ensures key == NECESSARY ==> !saved && consents == old(consents) && store.items == old(store.items)
      ensures saved ==> consents == Some(Flipped(old(consents).value, key)) &&
                        store.items == old(store.items)[CONSENT_STORAGE_KEY := Flipped(old(consents).value, key)]
      ensures !saved ==> consents == old(consents) && store.items == old(store.items)
      ensures hasConsented == old(hasConsented) && isLoading == old(isLoading)
    {
      if consents.None? {
        return false;
      }
      saved := UpdateConsent(key, !ConsentGiven(consents, key), writeFails);
    }

    /** revokeAllConsents: the stored record is removed (a failure is swallowed) and the
        consent state is cleared. */
    method RevokeAllConsents(removeFails: bool)
      modifies this, store
      ensures consents == None && !hasConsented && isLoading == old(isLoading)
      ensures store.items == if removeFails then old(store.items) else old(store.items) - {CONSENT_STORAGE_KEY}
    {
      var _ := ClearStoredConsents(removeFails);
      consents := None;
      hasConsented := false;
    }

    /** resetConsentState, run on logout: the same steps as revokeAllConsents. */
    method ResetConsentState(removeFails: bool)
      modifies this, store
      ensures consents == None && !hasConsented && isLoading == old(isLoading)
      ensures store.items == if removeFails then old(store.items) else old(store.items) - {CONSENT_STORAGE_KEY}
    {
      RevokeAllConsents(removeFails);
    }

    /** exportConsentData. */
    function ExportConsentData(): (r: Option<ConsentExport>)
      reads this
      ensures consents.None? ==> r.None?
      ensures consents.Some? ==> r == Some(ConsentExport(consents.value, "1.0"))
    {
      ExportOf(consents)
    }

    /** hasConsentFor: false without a record or without the key. */
    function HasConsentFor(key: string): (r: bool)
      reads this
      ensures r <==> consents.Some? && key in consents.value && consents.value[key]
    {
      ConsentGiven(consents, key)
    }
  }
}
