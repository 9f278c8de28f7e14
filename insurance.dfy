/**
 * The insurance screen: a verification status machine driven by a card scan
 * or a manual form of three fields. Verification completes later with either
 * outcome; which one is not determined here, so the completing event carries it.
 */
module Insurance {
  import opened Wrappers
  import Navigation

  datatype VerificationStatus = Idle | Verifying | Success | Error

  datatype Field = Provider | Number | Dob

  datatype InsuranceForm = InsuranceForm(provider: string, number: string, dob: string)

  const EmptyForm: InsuranceForm := InsuranceForm("", "", "")

  /**
   * The screen's state: status, form fields, whether the manual form is open,
   * and how many delayed completions have been scheduled and not yet run.
   */
  datatype InsuranceState = InsuranceState(
    status: VerificationStatus, form: InsuranceForm, showManualEntry: bool, pendingTimers: nat)

  const Initial: InsuranceState := InsuranceState(Idle, EmptyForm, false, 0)

  /** What can happen on the screen. */
  datatype Event =
    | Change(field: Field, value: string)   // a form input changed
    | ToggleManualEntry                    // the "Manual Entry" header was clicked
    | ScanCard                             // "Scan your card" was clicked
    | SubmitManual                         // "Verify" was clicked
    | VerificationDone(success: bool)      // a scheduled completion ran

  function Get(form: InsuranceForm, field: Field): string
  {
    match field
    case Provider => form.provider
    case Number => form.number
    case Dob => form.dob
  }

  /** The form with one field replaced. */
  function SetField(form: InsuranceForm, field: Field, value: string): (r: InsuranceForm)
    ensures Get(r, field) == value
    ensures forall other :: other != field ==> Get(r, other) == Get(form, other)
  {
    match field
    case Provider => form.(provider := value)
    case Number => form.(number := value)
    case Dob => form.(dob := value)
  }

  /** Manual submission needs every field non-empty. */
  predicate FormComplete(form: InsuranceForm)
  {
    form.provider != "" && form.number != "" && form.dob != ""
  }

  /** Starting verification: status Verifying, one more completion scheduled. */
  function Start(st: InsuranceState): InsuranceState
  {
    st.(status := Verifying, pendingTimers := st.pendingTimers + 1)
  }

  /** The screen's response to one event. A completion runs only when one is scheduled. */
  function Step(st: InsuranceState, e: Event): (r: InsuranceState)
    ensures e.Change? ==> r.status == st.status && r.showManualEntry == st.showManualEntry
    ensures e.Change? ==> Get(r.form, e.field) == e.value
    ensures e.Change? ==> forall f :: f != e.field ==> Get(r.form, f) == Get(st.form, f)
  {
    match e
    case Change(field, value) => st.(form := SetField(st.form, field, value))
    case ToggleManualEntry => st.(showManualEntry := !st.showManualEntry)
    case ScanCard => Start(st)
    case SubmitManual => if FormComplete(st.form) then Start(st) else st
    case VerificationDone(success) =>
      if st.pendingTimers > 0
      then st.(status := if success then Success else Error, pendingTimers := st.pendingTimers - 1)
      else st
  }

  function Run(st: InsuranceState, events: seq<Event>): InsuranceState
    decreases |events|
  {
    if events == [] then st else Run(Step(st, events[0]), events[1..])
  }

  /** Idle means nothing was started; Verifying means a completion is still to come. */
  predicate Consistent(st: InsuranceState)
  {
    && (st.status == Idle ==> st.pendingTimers == 0)
    && (st.status == Verifying ==> st.pendingTimers > 0)
  }

  lemma StepConsistent(st: InsuranceState, e: Event)
    requires Consistent(st)
    ensures Consistent(Step(st, e))
  {
  }

  lemma {:induction false} RunConsistent(st: InsuranceState, events: seq<Event>)
    requires Consistent(st)
    ensures Consistent(Run(st, events))
    decreases |events|
  {
    if events != [] {
      StepConsistent(st, events[0]);
      RunConsistent(Step(st, events[0]), events[1..]);
    }
  }

  /**
   * From Idle the only way out is to Verifying; Success and Error are reached
   * only by a completion while verification is under way.
   */
  lemma StepOrder(st: InsuranceState, e: Event)
    requires Consistent(st)
    ensures st.status == Idle ==> Step(st, e).status in {Idle, Verifying}
    ensures (Step(st, e).status in {Success, Error} && st.status !in {Success, Error}) ==>
              st.status == Verifying && e.VerificationDone?
  {
  }

  /** A completion sets Success or Error according to its outcome. */
  lemma CompletionOutcome(st: InsuranceState, success: bool)
    requires Consistent(st) && st.status == Verifying
    ensures Step(st, VerificationDone(success)).status == if success then Success else Error
  {
  }

  /** A scan restarts verification from any status, Success and Error included. */
  lemma ScanRestarts(st: InsuranceState)
    ensures Step(st, ScanCard).status == Verifying
    ensures Step(st, ScanCard).form == st.form
  {
  }

  /** Manual submission starts verification exactly when all three fields are filled in. */
  lemma SubmitGate(st: InsuranceState)
    ensures FormComplete(st.form) ==> Step(st, SubmitManual) == Start(st)
    ensures !FormComplete(st.form) ==> Step(st, SubmitManual) == st
  {
  }

  /** Once it has left Idle, the status never returns to it, whatever happens next. */
  lemma {:induction false} NeverBackToIdle(st: InsuranceState, events: seq<Event>)
    requires st.status != Idle
    ensures Run(st, events).status != Idle
    decreases |events|
  {
    if events != [] {
      NeverBackToIdle(Step(st, events[0]), events[1..]);
    }
  }

  /** Events that start or finish verification. */
  predicate Verifies(e: Event)
  {
    e.ScanCard? || e.SubmitManual? || e.VerificationDone?
  }

  /** Typing into the form and opening it never change the status. */
  lemma {:induction false} FormEditsKeepStatus(st: InsuranceState, events: seq<Event>)
    requires forall i :: 0 <= i < |events| ==> !Verifies(events[i])
    ensures Run(st, events).status == st.status
    decreases |events|
  {
    if events != [] {
      FormEditsKeepStatus(Step(st, events[0]), events[1..]);
    }
  }

  /** The scan button is disabled while verifying. */
  predicate ScanDisabled(st: InsuranceState)
    ensures ScanDisabled(st) ==> VerifyDisabled(st)
  {
    st.status == Verifying
  }

  /** The manual Verify button is disabled while verifying or while a field is empty. */
  predicate VerifyDisabled(st: InsuranceState)
    ensures !VerifyDisabled(st) ==> FormComplete(st.form)
  {
    st.status == Verifying || st.form.provider == "" || st.form.number == "" || st.form.dob == ""
  }

  /** Continue is enabled only after a successful verification. */
  predicate ContinueDisabled(st: InsuranceState)
    ensures !ContinueDisabled(st) <==> StatusMessage(st.status) == Some("Insurance verified")
  {
    st.status != Success
  }

  /**
   * The scan button is disabled only while a started verification is still
   * outstanding, and a scan disables it until its completion runs.
   */
  lemma ScanDisabledWhileOutstanding(st: InsuranceState)
    requires Consistent(st)
    ensures ScanDisabled(st) ==> st.pendingTimers > 0
    ensures ScanDisabled(Step(st, ScanCard))
  {
  }

  /** An enabled Verify button always starts verification. */
  lemma EnabledVerifyStarts(st: InsuranceState)
    requires !VerifyDisabled(st)
    ensures Step(st, SubmitManual).status == Verifying
  {
  }

  /** Success is only ever entered by a completion that reports success. */
  lemma {:induction false} SuccessNeedsCompletion(st: InsuranceState, events: seq<Event>)
    requires st.status != Success && Run(st, events).status == Success
    ensures exists i :: 0 <= i < |events| && events[i] == VerificationDone(true)
    decreases |events|
  {
    assert events != [];
    var next := Step(st, events[0]);
    if next.status == Success {
      assert events[0] == VerificationDone(true);
    } else {
      SuccessNeedsCompletion(next, events[1..]);
      var i :| 0 <= i < |events[1..]| && events[1..][i] == VerificationDone(true);
      assert events[i + 1] == VerificationDone(true);
    }
  }

  /**
   * The Continue button, whose handler navigates unconditionally, is enabled
   * from the initial screen only after a completion that reported success.
   */
  lemma ContinueNeedsSuccessfulCompletion(events: seq<Event>)
    requires !ContinueDisabled(Run(Initial, events))
    ensures exists i :: 0 <= i < |events| && events[i] == VerificationDone(true)
  {
    SuccessNeedsCompletion(Initial, events);
  }

  /** The message of the status card; there is no card while Idle. */
  function StatusMessage(status: VerificationStatus): (m: Option<string>)
    ensures m.None? <==> status == Idle
  {
    match status
    case Idle => None
    case Verifying => Some("Verifying your insurance...")
    case Success => Some("Insurance verified")
    case Error => Some("We couldn't verify your card.")
  }

  /** Each non-idle status shows its own message. */
  lemma StatusMessagesDistinct(a: VerificationStatus, b: VerificationStatus)
    requires StatusMessage(a) == StatusMessage(b)
    ensures a == b
  {
  }

  class InsuranceScreen {
    var verificationStatus: VerificationStatus
    var formData: InsuranceForm
    var showManualEntry: bool
    /** The completions scheduled by the verification timer and not yet run. */
    ghost var pendingTimers: nat

    ghost function State(): InsuranceState
      reads this
    {
      InsuranceState(verificationStatus, formData, showManualEntry, pendingTimers)
    }

    ghost predicate Valid()
      reads this
    {
      Consistent(State())
    }

    constructor ()
      ensures State() == Initial && Valid()
    {
      verificationStatus := Idle;
      formData := EmptyForm;
      showManualEntry := false;
      pendingTimers := 0;
    }

    method HandleChange(field: Field, value: string)
      requires Valid()
      modifies this`formData
      ensures Valid()
      ensures State() == Step(old(State()), Change(field, value))
    {
      formData := SetField(formData, field, value);
    }

    method ToggleManual()
      requires Valid()
      modifies this`showManualEntry
      ensures Valid()
      ensures State() == Step(old(State()), ToggleManualEntry)
    {
      showManualEntry := !showManualEntry;
    }

    /** Sets Verifying and schedules the delayed completion. */
    method SimulateVerification()
      requires Valid()
      modifies this`verificationStatus, this`pendingTimers
      ensures Valid()
      ensures State() == Start(old(State()))
    {
      verificationStatus := Verifying;
      pendingTimers := pendingTimers + 1;
    }

    /** A scheduled completion runs; its outcome is chosen by the caller. */
    method CompleteVerification(isSuccess: bool)
      requires Valid() && pendingTimers > 0
      modifies this`verificationStatus, this`pendingTimers
      ensures Valid()
      ensures State() == Step(old(State()), VerificationDone(isSuccess))
    {
      verificationStatus := if isSuccess then Success else Error;
      pendingTimers := pendingTimers - 1;
    }

    method HandleScanCard()
      requires Valid()
      modifies this`verificationStatus, this`pendingTimers
      ensures Valid()
      ensures State() == Step(old(State()), ScanCard)
    {
      SimulateVerification();
    }

    method HandleSubmitManual()
      requires Valid()
      modifies this`verificationStatus, this`pendingTimers
      ensures Valid()
      ensures State() == Step(old(State()), SubmitManual)
    {
      if FormComplete(formData) {
        SimulateVerification();
      }
    }

    /** Continue itself is unconditional: only the button's disabled flag gates it. */
    method HandleContinue() returns (o: Navigation.Outcome)
      ensures o == Navigation.Navigate(Navigation.Medications)
    {
      o := Navigation.Navigate(Navigation.Medications);
    }
  }
}
