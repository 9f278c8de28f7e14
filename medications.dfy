/**
 * The prescribed-medication screen: a fixed list of medications and the ids
 * the user keeps selected. Every medication starts selected; a checkbox
 * toggles one id; Continue needs at least one id.
 */
module Medications {
  import opened Navigation

  datatype Medication = Medication(id: int, name: string, dosage: string, description: string)

  /** The prescription list the screen shows. */
  function Prescribed(): seq<Medication>
  {
    [ Medication(1, "Lisinopril", "10mg, once daily", "For blood pressure management"),
      Medication(2, "Atorvastatin", "20mg, once daily at bedtime", "For cholesterol management"),
      Medication(3, "Metformin", "500mg, twice daily with meals", "For blood sugar control") ]
  }

  function Ids(meds: seq<Medication>): (r: seq<int>)
    ensures |r| == |meds|
    ensures forall i :: 0 <= i < |meds| ==> r[i] == meds[i].id
  {
    seq(|meds|, i requires 0 <= i < |meds| => meds[i].id)
  }

  predicate Distinct(s: seq<int>)
  {
    forall i, j :: 0 <= i < j < |s| ==> s[i] != s[j]
  }

  /** `s` with every occurrence of `x` filtered out, keeping the order of the rest. */
  function Without(s: seq<int>, x: int): (r: seq<int>)
    ensures |r| <= |s|
  {
    if s == [] then []
    else if s[0] == x then Without(s[1..], x)
    else [s[0]] + Without(s[1..], x)
  }

  lemma {:induction false} WithoutMembership(s: seq<int>, x: int, y: int)
    ensures y in Without(s, x) <==> y in s && y != x
  {
    if s != [] {
      WithoutMembership(s[1..], x, y);
      assert s == [s[0]] + s[1..];
    }
  }

  lemma {:induction false} WithoutKeepsDistinct(s: seq<int>, x: int)
    requires Distinct(s)
    ensures Distinct(Without(s, x))
  {
    if s != [] {
      WithoutKeepsDistinct(s[1..], x);
      if s[0] != x {
        var r := Without(s[1..], x);
        WithoutMembership(s[1..], x, s[0]);
        assert s[0] !in s[1..];
        assert forall j :: 0 <= j < |r| ==> r[j] in r;
      }
    }
  }

  /** Removing an id that is not there leaves the sequence exactly as it was. */
  lemma {:induction false} WithoutAbsent(s: seq<int>, x: int)
    requires x !in s
    ensures Without(s, x) == s
  {
    if s != [] {
      WithoutAbsent(s[1..], x);
      assert s == [s[0]] + s[1..];
    }
  }

  /** Filtering out the id just appended undoes the append. */
  lemma {:induction false} WithoutAppended(s: seq<int>, x: int)
    requires x !in s
    ensures Without(s + [x], x) == s
  {
    if s == [] {
      assert s + [x] == [x];
    } else {
      assert (s + [x])[1..] == s[1..] + [x];
      WithoutAppended(s[1..], x);
      assert s == [s[0]] + s[1..];
    }
  }

  /** Filtering out an id that is present shortens the sequence. */
  lemma {:induction false} WithoutShrinks(s: seq<int>, x: int)
    requires x in s
    ensures |Without(s, x)| < |s|
  {
    if s[0] != x {
      assert s == [s[0]] + s[1..];
      WithoutShrinks(s[1..], x);
    }
  }

  /** The checkbox handler: drop the id when it is selected, otherwise append it at the end. */
  function Toggle(selected: seq<int>, id: int): (r: seq<int>)
    ensures id in selected ==> id !in r && |r| < |selected|
    ensures id !in selected ==> |r| == |selected| + 1 && r[|selected|] == id && r[..|selected|] == selected
  {
    if id in selected then
      WithoutMembership(selected, id, id);
      WithoutShrinks(selected, id);
      Without(selected, id)
    else selected + [id]
  }

  /** Toggling flips the membership of `id` and leaves every other id's membership alone. */
  lemma ToggleMembership(selected: seq<int>, id: int, other: int)
    ensures id in Toggle(selected, id) <==> id !in selected
    ensures other != id ==> (other in Toggle(selected, id) <==> other in selected)
  {
    WithoutMembership(selected, id, id);
    WithoutMembership(selected, id, other);
  }

  /** Toggling never introduces a duplicate id. */
  lemma ToggleKeepsDistinct(selected: seq<int>, id: int)
    requires Distinct(selected)
    ensures Distinct(Toggle(selected, id))
  {
    if id in selected {
      WithoutKeepsDistinct(selected, id);
    }
  }

  /**
   * Toggling the same id twice selects the same ids as before; when the id
   * started unselected the selection is restored exactly, order included.
   */
  lemma ToggleTwice(selected: seq<int>, id: int)
    ensures forall y :: y in Toggle(Toggle(selected, id), id) <==> y in selected
    ensures id !in selected ==> Toggle(Toggle(selected, id), id) == selected
  {
    forall y
      ensures y in Toggle(Toggle(selected, id), id) <==> y in selected
    {
      ToggleMembership(selected, id, y);
      ToggleMembership(Toggle(selected, id), id, y);
    }
    if id !in selected {
      assert id in selected + [id];
      WithoutAppended(selected, id);
    }
  }

  /** Continue proceeds to delivery only with a non-empty selection and otherwise does nothing. */
  function ContinueOutcome(selected: seq<int>): (o: Outcome)
    ensures o == Navigate(Delivery) <==> selected != []
    ensures o != Navigate(Delivery) ==> o == NoOp
  {
    if |selected| > 0 then Navigate(Delivery) else NoOp
  }

  class MedicationsScreen {
    var medications: seq<Medication>
    var selectedMeds: seq<int>

    /** Selected ids are always distinct. */
    ghost predicate Valid()
      reads this
    {
      Distinct(selectedMeds)
    }

    /** Initially every medication on the list is selected. */
    constructor ()
      ensures medications == Prescribed()
      ensures selectedMeds == Ids(medications)
      ensures forall m :: m in medications ==> m.id in selectedMeds
      ensures Valid()
    {
      medications := Prescribed();
      selectedMeds := Ids(Prescribed());
    }

    /** The checkbox of medication `medId` was clicked; the medication list itself is untouched. */
    method HandleCheckboxChange(medId: int)
      requires Valid()
      modifies this`selectedMeds
      ensures Valid()
      ensures selectedMeds == Toggle(old(selectedMeds), medId)
    {
      ToggleKeepsDistinct(selectedMeds, medId);
      selectedMeds := Toggle(selectedMeds, medId);
    }

    /** The "select at least one" message is shown exactly when nothing is selected. */
    predicate ShowsSelectionError()
      reads this
    {
      |selectedMeds| == 0
    }

    /** The Continue button's disabled flag. */
    predicate ContinueDisabled()
      reads this
    {
      |selectedMeds| == 0
    }

    method HandleContinue() returns (o: Outcome)
      ensures o == ContinueOutcome(selectedMeds)
      ensures o.Navigate? <==> !ContinueDisabled()
      ensures ContinueDisabled() <==> ShowsSelectionError()
    {
      if |selectedMeds| > 0 {
        o := Navigate(Delivery);
      } else {
        o := NoOp;
      }
    }
  }
}
