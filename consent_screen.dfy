/** frontend/src/screens/ConsentScreen.js: the draft of consent choices shown after the
    first login, handed to the caller when the user accepts. */
module ConsentScreen {
  import opened Consents

  class ConsentDraft {
    var consents: Consents

    /** The necessary consent is granted in every draft the screen can reach. */
    predicate Valid()
      reads this
    {
      NecessaryGranted(consents)
    }

    /** The initial draft: only the necessary consent granted. */
    constructor()
      ensures Valid()
      ensures consents == DEFAULT_CONSENTS
    {
      consents := DEFAULT_CONSENTS;
    }

    /** handleToggle: 'necessary' cannot be switched; any other key is flipped and nothing
        else changes. */
    method HandleToggle(key: string)
      requires Valid()
      modifies this
      ensures Valid()
      ensures key == NECESSARY ==> consents == old(consents)
      ensures key != NECESSARY ==> consents == Flipped(old(consents), key)
    {
      if key == NECESSARY {
        return;
      }
      FlipKeepsNecessary(consents, key);
      consents := Flipped(consents, key);
    }

    /** handleAcceptAll: all four consents granted. */
    method HandleAcceptAll()
      requires Valid()
      modifies this
      ensures Valid()
      ensures consents == ALL_ACCEPTED
    {
      consents := ALL_ACCEPTED;
    }

    /** handleAcceptSelected: the draft as it stands is handed to onAccept. */
    method HandleAcceptSelected() returns (accepted: Consents)
      requires Valid()
      ensures accepted == consents
      ensures NecessaryGranted(accepted)
    {
      accepted := consents;
    }
  }

  /** Toggling the same optional consent twice restores the draft. */
  lemma ToggleTwice(c: Consents, key: string)
    requires NecessaryGranted(c) && key != NECESSARY && key in c
    ensures Flipped(Flipped(c, key), key) == c
    ensures NecessaryGranted(Flipped(c, key))
  {
    FlipTwice(c, key);
    FlipKeepsNecessary(c, key);
  }

  /** Whatever the user accepts from the screen, the record the consent store keeps is the
      same draft: the store's forcing of 'necessary' changes nothing. */
  lemma AcceptedDraftUnchanged(draft: Consents)
    requires NecessaryGranted(draft) && DEFAULT_CONSENTS.Keys <= draft.Keys
    ensures AcceptedRecord(draft) == draft
  {
    var r := AcceptedRecord(draft);
    assert r.Keys == draft.Keys;
    forall k | k in draft
      ensures r[k] == draft[k]
    {
    }
  }
}
