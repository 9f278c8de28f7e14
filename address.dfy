/**
 * The delivery-address screen: a text field checked by a length rule, an
 * inline error, and a list of built-in suggestions filtered by what has been
 * typed, case-insensitively.
 */
module Address {
  import opened Wrappers
  import opened Navigation

  /** The built-in suggestions, in display order. */
  const Suggestions: seq<string> := [
    "123 Main St, New York, NY 10001",
    "456 Oak Ave, San Francisco, CA 94102",
    "789 Pine Rd, Chicago, IL 60601"
  ]

  const InvalidAddress: string := "Please enter a valid address"

  /** An address is accepted when it has at least ten characters. */
  predicate ValidateAddress(address: string)
    ensures ValidateAddress(address) ==> address != []
  {
    |address| >= 10
  }

  /** Every built-in suggestion passes the address check. */
  lemma SuggestionsAreValid()
    ensures forall s :: s in Suggestions ==> ValidateAddress(s)
  {
  }

  /** Lower-casing of one character (ASCII letters only). */
  function LowerChar(c: char): (d: char)
    ensures 'A' <= c <= 'Z' ==> 'a' <= d <= 'z' && d as int - 'a' as int == c as int - 'A' as int
    ensures !('A' <= c <= 'Z') ==> d == c
  {
    if 'A' <= c <= 'Z' then (c as int - 'A' as int + 'a' as int) as char else c
  }

  function ToLower(s: string): (r: string)
    ensures |r| == |s|
    ensures forall i :: 0 <= i < |s| ==> r[i] == LowerChar(s[i])
  {
    seq(|s|, i requires 0 <= i < |s| => LowerChar(s[i]))
  }

  /** `sub` occurs in `s` starting at position `i`. */
  ghost predicate OccursAt(s: string, sub: string, i: int)
  {
    0 <= i && i + |sub| <= |s| && s[i..i + |sub|] == sub
  }

  /** Substring search: does `sub` occur somewhere in `s`? */
  function Includes(s: string, sub: string): bool
  {
    if |sub| <= |s| && s[..|sub|] == sub then true
    else if s == [] then false
    else Includes(s[1..], sub)
  }

  /** The search agrees with the definition of an occurrence. */
  lemma {:induction false} IncludesIsOccurrence(s: string, sub: string)
    ensures Includes(s, sub) <==> exists i :: OccursAt(s, sub, i)
  {
    if |sub| <= |s| && s[..|sub|] == sub {
      assert OccursAt(s, sub, 0);
    } else if s == [] {
      assert forall i :: !OccursAt(s, sub, i);
    } else {
      assert !OccursAt(s, sub, 0);
      IncludesIsOccurrence(s[1..], sub);
      if exists i :: OccursAt(s[1..], sub, i) {
        var i :| OccursAt(s[1..], sub, i);
        assert s[1..][i..i + |sub|] == s[i + 1..i + 1 + |sub|];
        assert OccursAt(s, sub, i + 1);
      }
      if exists i :: OccursAt(s, sub, i) {
        var i :| OccursAt(s, sub, i);
        assert s[1..][i - 1..i - 1 + |sub|] == s[i..i + |sub|];
        assert OccursAt(s[1..], sub, i - 1);
      }
    }
  }

  /** A suggestion is offered when it contains the typed text, ignoring case. */
  predicate Matches(suggestion: string, typed: string)
  {
    Includes(ToLower(suggestion), ToLower(typed))
  }

  /** The suggestions that contain the typed text, in their original order. */
  function MatchingSuggestions(all: seq<string>, typed: string): (r: seq<string>)
    ensures |r| <= |all|
  {
    if all == [] then []
    else if Matches(all[0], typed) then [all[0]] + MatchingSuggestions(all[1..], typed)
    else MatchingSuggestions(all[1..], typed)
  }

  /** `a` is `b` with some elements left out and the rest in the same order. */
  predicate SubsequenceOf(a: seq<string>, b: seq<string>)
  {
    || a == []
    || (&& b != []
        && ((a[0] == b[0] && SubsequenceOf(a[1..], b[1..])) || SubsequenceOf(a, b[1..])))
  }

  /**
   * The displayed suggestions are exactly those that contain the typed text
   * case-insensitively, each as often as it is listed, and they keep their
   * original order.
   */
  lemma {:induction false} MatchingSuggestionsExact(all: seq<string>, typed: string)
    ensures forall s :: s in MatchingSuggestions(all, typed) <==> s in all && Matches(s, typed)
    ensures SubsequenceOf(MatchingSuggestions(all, typed), all)
    ensures forall s :: multiset(MatchingSuggestions(all, typed))[s] ==
                          if Matches(s, typed) then multiset(all)[s] else 0
  {
    if all == [] {
    } else {
      var rest := MatchingSuggestions(all[1..], typed);
      MatchingSuggestionsExact(all[1..], typed);
      assert all == [all[0]] + all[1..];
      assert multiset(all) == multiset{all[0]} + multiset(all[1..]);
      if Matches(all[0], typed) {
        assert ([all[0]] + rest)[1..] == rest;
        assert multiset([all[0]] + rest) == multiset{all[0]} + multiset(rest);
      }
    }
  }

  /** Back returns to the welcome screen. */
  function BackTarget(): (o: Outcome)
    ensures o == Navigate(Welcome)
  {
    Navigate(Route.Welcome)
  }

  class AddressScreen {
    var address: string
    var error: Option<string>
    var showSuggestions: bool

    /** The error is only ever shown for an invalid address, and the list only for typed text. */
    ghost predicate Valid()
      reads this
    {
      && (error.Some? ==> error.value == InvalidAddress && !ValidateAddress(address))
      && (showSuggestions ==> address != [])
    }

    constructor ()
      ensures address == [] && error == None && !showSuggestions
      ensures Valid()
    {
      address := [];
      error := None;
      showSuggestions := false;
    }

    /** The field's text changed to `value`. */
    method HandleAddressChange(value: string)
      modifies this
      ensures Valid()
      ensures address == value
      ensures showSuggestions <==> value != []
      ensures value == [] ==> error == None
      ensures value != [] ==> (error.Some? <==> !ValidateAddress(value))
      ensures error.Some? ==> error.value == InvalidAddress
    {
      address := value;
      showSuggestions := |value| > 0;
      if |value| > 0 {
        error := if ValidateAddress(value) then None else Some(InvalidAddress);
      } else {
        error := None;
      }
    }

    /** A suggestion was clicked: it becomes the address, the error and the list are hidden. */
    method HandleSuggestionClick(suggestion: string)
      requires Valid()
      modifies this
      ensures Valid()
      ensures address == suggestion && error == None && !showSuggestions
      ensures suggestion in Suggestions ==> !ContinueDisabled()
    {
      SuggestionsAreValid();
      address := suggestion;
      error := None;
      showSuggestions := false;
    }

    /** Continue goes on to insurance for a valid address; otherwise it shows the error. */
    method HandleContinue() returns (o: Outcome)
      requires Valid()
      modifies this`error
      ensures Valid()
      ensures ValidateAddress(address) ==> o == Navigate(Insurance) && error == old(error)
      ensures !ValidateAddress(address) ==> o == NoOp && error == Some(InvalidAddress)
    {
      if ValidateAddress(address) {
        o := Navigate(Insurance);
      } else {
        error := Some(InvalidAddress);
        o := NoOp;
      }
    }

    /** The Continue button's disabled flag. */
    predicate ContinueDisabled()
      reads this
    {
      !ValidateAddress(address)
    }

    /** The suggestions on screen: the matching ones, while the list is shown. */
    function DisplayedSuggestions(): (r: seq<string>)
      reads this
      ensures !showSuggestions ==> r == []
      ensures showSuggestions ==> forall s :: s in r <==> s in Suggestions && Matches(s, address)
    {
      MatchingSuggestionsExact(Suggestions, address);
      if showSuggestions then MatchingSuggestions(Suggestions, address) else []
    }
  }
}
