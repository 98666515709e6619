/** frontend/src/screens/DelegationScreen.js: the list of delegations and the step-up demo.
    Pressing a sensitive action either completes it at once or asks for step-up first. */
module DelegationScreen {
  import opened Wrappers
  import opened JsString
  import opened MockData

  /** `SENSITIVE_ACTIONS.find(a => a.id === id)`: the first action carrying the id. */
  function FindAction(actions: seq<SensitiveAction>, id: string): (r: Option<SensitiveAction>)
    ensures r.Some? ==> r.value in actions && r.value.id == id
    ensures r.None? ==> forall a :: a in actions ==> a.id != id
    ensures r.Some? ==> exists i :: 0 <= i < |actions| && actions[i] == r.value &&
                                  forall j :: 0 <= j < i ==> actions[j].id != id
  {
    if |actions| == 0 then None
    else if actions[0].id == id then Some(actions[0])
    else
      var r := FindAction(actions[1..], id);
      if r.Some? then
        ghost var i :| 0 <= i < |actions[1..]| && actions[1..][i] == r.value &&
          forall j :: 0 <= j < i ==> actions[1..][j].id != id;
        assert actions[i + 1] == r.value;
        r
      else r
  }

  /** The "give delegation" button's action exists and asks for step-up. */
  lemma AddDelegationNeedsStepUp()
    ensures var a := FindAction(SENSITIVE_ACTIONS, "add_delegation");
      a.Some? && a.value.requiresStepUp
  {
    assert SENSITIVE_ACTIONS[0].id != "add_delegation";
    assert SENSITIVE_ACTIONS[1].id != "add_delegation";
    assert SENSITIVE_ACTIONS[2].id == "add_delegation";
  }

  class DelegationScreenState {
    var stepUpVisible: bool
    var selectedAction: Option<SensitiveAction>
    var completedActions: seq<string>

    /** The modal is open exactly while an action awaits step-up, and only actions that ask
        for step-up are ever held. */
    predicate Valid()
      reads this
    {
      (stepUpVisible <==> selectedAction.Some?) &&
      (selectedAction.Some? ==> selectedAction.value.requiresStepUp)
    }

    constructor()
      ensures Valid()
      ensures !stepUpVisible && selectedAction.None? && completedActions == []
    {
      stepUpVisible := false;
      selectedAction := None;
      completedActions := [];
    }

    /** An action shows as completed iff its id was ever appended. */
    predicate IsCompleted(id: string)
      reads this
    {
      id in completedActions
    }

    /** handleActionPress: a step-up action is held and the modal opens; any other is
        completed at once. */
    method HandleActionPress(action: SensitiveAction)
      requires Valid()
      modifies this
      ensures Valid()
      ensures action.requiresStepUp ==>
        selectedAction == Some(action) && stepUpVisible && completedActions == old(completedActions)
      ensures !action.requiresStepUp ==>
        completedActions == old(completedActions) + [action.id] &&
        selectedAction == old(selectedAction) && stepUpVisible == old(stepUpVisible)
      ensures !action.requiresStepUp ==> IsCompleted(action.id)
    {
      if action.requiresStepUp {
        selectedAction := Some(action);
        stepUpVisible := true;
      } else {
        completedActions := completedActions + [action.id];
      }
    }

    /** handleStepUpConfirm: the held action is completed and the modal closes. Without a
        held action reading its id throws before any state changes. */
    method HandleStepUpConfirm()
      requires Valid()
      modifies this
      ensures Valid()
      ensures old(selectedAction).Some? ==>
        completedActions == old(completedActions) + [old(selectedAction).value.id] &&
        !stepUpVisible && selectedAction.None?
      ensures old(selectedAction).None? ==>
        completedActions == old(completedActions) && !stepUpVisible && selectedAction.None?
      ensures old(selectedAction).Some? ==> IsCompleted(old(selectedAction).value.id)
    {
      if selectedAction.None? {
        return;
      }
      completedActions := completedActions + [selectedAction.value.id];
      stepUpVisible := false;
      selectedAction := None;
    }

    /** handleStepUpCancel: the modal closes and nothing is completed. */
    method HandleStepUpCancel()
      requires Valid()
      modifies this
      ensures Valid()
      ensures !stepUpVisible && selectedAction.None? && completedActions == old(completedActions)
    {
      stepUpVisible := false;
      selectedAction := None;
    }
  }

  /** `parts.map(n => n[0]).join('')`: the first character of each part; an empty part
      yields undefined, which joins as nothing. */
  function FirstChars(parts: seq<string>): (r: string)
    ensures |r| <= |parts|
    ensures forall c :: c in r ==> exists i :: 0 <= i < |parts| && parts[i] != "" && parts[i][0] == c
  {
    if |parts| == 0 then ""
    else
      var rest := FirstChars(parts[1..]);
      assert forall c :: c in rest ==> exists i :: 0 <= i < |parts[1..]| && parts[1..][i] != "" && parts[1..][i][0] == c;
      (if parts[0] == "" then "" else [parts[0][0]]) + rest
  }

  lemma {:induction false} FirstCharsAppend(a: seq<string>, b: seq<string>)
    ensures FirstChars(a + b) == FirstChars(a) + FirstChars(b)
  {
    if |a| == 0 {
      assert a + b == b;
    } else {
      assert (a + b)[0] == a[0];
      assert (a + b)[1..] == a[1..] + b;
      FirstCharsAppend(a[1..], b);
    }
  }

  /** The avatar initials of a delegation: the first character of each space-separated
      part of the name. */
  function Initials(name: string): (r: string)
    ensures |r| <= |Split(name, ' ')|
    ensures forall c :: c in r ==> c in name && c != ' '
  {
    var parts := Split(name, ' ');
    var r := FirstChars(parts);
    forall c | c in r
      ensures c in name
    {
      var i :| 0 <= i < |parts| && parts[i] != "" && parts[i][0] == c;
      InPart(name, ' ', i);
    }
    r
  }

  /** Every character of a part occurs in the split string. */
  lemma {:induction false} InPart(s: string, sep: char, i: nat)
    requires i < |Split(s, sep)|
    ensures forall c :: c in Split(s, sep)[i] ==> c in s
  {
    if |s| > 0 {
      var rest := Split(s[1..], sep);
      if s[0] == sep {
        if i > 0 {
          InPart(s[1..], sep, i - 1);
        }
      } else {
        if i == 0 {
          InPart(s[1..], sep, 0);
        } else {
          InPart(s[1..], sep, i);
        }
      }
    }
  }

  /** Names joined by one space contribute their initials in order. */
  lemma InitialsOfJoined(a: string, b: string)
    ensures Initials(a + " " + b) == Initials(a) + Initials(b)
  {
    SplitAppend(a, b, ' ');
    FirstCharsAppend(Split(a, ' '), Split(b, ' '));
  }

  /** A single word contributes its first character. */
  lemma InitialOfWord(w: string)
    requires w != "" && ' ' !in w
    ensures Initials(w) == [w[0]]
  {
    SplitNoSep(w, ' ');
  }

  /** A first and last name give two initials. */
  lemma TwoWordInitials(first: string, last: string)
    requires first != "" && ' ' !in first && last != "" && ' ' !in last
    ensures Initials(first + " " + last) == [first[0], last[0]]
  {
    InitialsOfJoined(first, last);
    InitialOfWord(first);
    InitialOfWord(last);
  }
}
