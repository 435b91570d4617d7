// frontend/src/components/DemoModal.tsx: the "request a demo" form. The
// form state is a class. The request is given its reply; each success arms
// a two-second timer, `pendingResets` counts the armed ones, a timer firing is
// the method `ResetTimerFires`, and each call of the parent's `onClose` is
// counted.

module DemoModal {

  /** The seven inputs of the form, by their `name` attribute. */
  datatype Field = FirstName | LastName | Email | Company | Phone | CompanySize | CurrentChallenges

  /** The form data: a value for every field. */
  datatype FormData = FormData(firstName: string, lastName: string, email: string, company: string,
                               phone: string, companySize: string, currentChallenges: string)

  /** `formData[name]`. */
  function Get(f: FormData, x: Field): string
  {
    match x
    case FirstName => f.firstName
    case LastName => f.lastName
    case Email => f.email
    case Company => f.company
    case Phone => f.phone
    case CompanySize => f.companySize
    case CurrentChallenges => f.currentChallenges
  }

  /** `{ ...formData, [name]: value }`: the named field takes the value; every other field keeps its own. */
  function With(f: FormData, x: Field, value: string): (g: FormData)
    ensures Get(g, x) == value
    ensures forall y :: y != x ==> Get(g, y) == Get(f, y)
  {
    match x
    case FirstName => f.(firstName := value)
    case LastName => f.(lastName := value)
    case Email => f.(email := value)
    case Company => f.(company := value)
    case Phone => f.(phone := value)
    case CompanySize => f.(companySize := value)
    case CurrentChallenges => f.(currentChallenges := value)
  }

  /** Every field empty, as the form opens and after the reset. */
  const EmptyForm := FormData("", "", "", "", "", "", "")

  /** The empty form has every field empty, and it is the only such form. */
  lemma EmptyFormEmpty(f: FormData)
    ensures forall x :: Get(EmptyForm, x) == ""
    ensures (forall x :: Get(f, x) == "") ==> f == EmptyForm
  {
    if forall x :: Get(f, x) == "" {
      assert Get(f, FirstName) == "" && Get(f, LastName) == "" && Get(f, Email) == "" && Get(f, Company) == "";
      assert Get(f, Phone) == "" && Get(f, CompanySize) == "" && Get(f, CurrentChallenges) == "";
    }
  }

  /** How the demo request ends. */
  datatype DemoReply = Accepted | Refused | Threw

  class Modal {
    var formData: FormData
    var isSubmitting: bool
    var isSubmitted: bool
    var pendingResets: nat
    var closeCalls: nat

    /** The form as it mounts: every field empty, nothing sent. */
    constructor ()
      ensures formData == EmptyForm && !isSubmitting && !isSubmitted && pendingResets == 0 && closeCalls == 0
    {
      formData := EmptyForm;
      isSubmitting := false;
      isSubmitted := false;
      pendingResets := 0;
      closeCalls := 0;
    }

    /** `handleInputChange`: the named field takes the value; every other field keeps its own. */
    method HandleInputChange(field: Field, value: string)
      modifies `formData
      ensures formData == With(old(formData), field, value)
    {
      formData := With(formData, field, value);
    }

    /**
     * `handleSubmit`, given how the request ends: the form data is sent as it
     * is; an accepted request marks the form submitted and arms another reset
     * timer, a refused or failed one leaves the form and the flags as they
     * were. `isSubmitting`, set while the request runs, is false afterwards.
     */
    method HandleSubmit(reply: DemoReply) returns (sent: FormData)
      modifies `isSubmitting, `isSubmitted, `pendingResets
      ensures sent == formData
      ensures !isSubmitting
      ensures reply.Accepted? ==> isSubmitted && pendingResets == old(pendingResets) + 1
      ensures !reply.Accepted? ==> isSubmitted == old(isSubmitted) && pendingResets == old(pendingResets)
    {
      isSubmitting := true;
      sent := formData;
      if reply.Accepted? {
        isSubmitted := true;
        pendingResets := pendingResets + 1;
      }
      isSubmitting := false;
    }

    /**
     * One of the timers started by a success fires: the modal is closed, the
     * success view goes and every field is emptied; the other timers stay armed.
     */
    method ResetTimerFires()
      requires pendingResets > 0
      modifies `formData, `isSubmitted, `pendingResets, `closeCalls
      ensures closeCalls == old(closeCalls) + 1
      ensures !isSubmitted && pendingResets == old(pendingResets) - 1
      ensures formData == EmptyForm
    {
      closeCalls := closeCalls + 1;
      isSubmitted := false;
      formData := EmptyForm;
      pendingResets := pendingResets - 1;
    }

    /** `handleClose`: the parent is told to close and the success view goes; the form data stays. */
    method HandleClose()
      modifies `isSubmitted, `closeCalls
      ensures closeCalls == old(closeCalls) + 1 && !isSubmitted
    {
      closeCalls := closeCalls + 1;
      isSubmitted := false;
    }
  }
}
