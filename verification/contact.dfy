/** The contact page's feedback form: a name and a required message, sent
    through `FeedbackService.send`, with an idle / submitting / success /
    error status. */
module Contact {
  import opened Base
  import opened Text
  import opened Model
  import Store

  datatype Status = Idle | Submitting | Success | Error

  datatype Form = Form(name: string, message: string)

  datatype ContactState = ContactState(form: Form, status: Status)

  /** The form as the page opens it. */
  const Initial := ContactState(Form("", ""), Idle)

  /** The two inputs of the form. */
  datatype Field = NameField | MessageField

  /** `handleChange`: one input's value replaces that field only. */
  function Change(s: ContactState, field: Field, value: string): (r: ContactState)
    ensures r.status == s.status
    ensures field == NameField ==> r.form.name == value && r.form.message == s.form.message
    ensures field == MessageField ==> r.form.message == value && r.form.name == s.form.name
  {
    match field
    case NameField => s.(form := s.form.(name := value))
    case MessageField => s.(form := s.form.(message := value))
  }

  /** The message holds nothing but whitespace (or nothing at all). */
  predicate IsBlank(message: string) {
    forall i :: 0 <= i < |message| ==> IsSpace(message[i])
  }

  /** The synchronous half of a submit: the new state and the feedback
      handed to the service, if any. */
  datatype Submission = Submission(state: ContactState, sent: Option<Feedback>)

  /** `handleSubmit` up to the service call. The page tests
      `!formData.message.trim()`, and a message trims to empty exactly when
      it is blank: a blank message does nothing at all; otherwise the status
      becomes submitting and the form as it stands is sent. The message
      input is also `required`, so the browser stops an empty one first,
      with the same outcome: nothing happens. */
  function Submit(s: ContactState): (r: Submission)
    ensures IsBlank(s.form.message) ==> r.state == s && r.sent.None?
    ensures !IsBlank(s.form.message) ==> r.state.status == Submitting && r.state.form == s.form
    ensures r.sent.Some? <==> !IsBlank(s.form.message)
    ensures r.sent.Some? ==> r.sent.value == Feedback(s.form.name, s.form.message)
  {
    BlankIffAllSpace(s.form.message);
    if Trim(s.form.message) == "" then Submission(s, None)
    else Submission(s.(status := Submitting), Some(Feedback(s.form.name, s.form.message)))
  }

  /** `handleSubmit` after the service settles: success clears the form,
      failure keeps it for another try. */
  function SubmitSettled(s: ContactState, result: Result<()>): (r: ContactState)
    ensures result.Ok? ==> r.status == Success && r.form == Form("", "")
    ensures result.Err? ==> r.status == Error && r.form == s.form
  {
    if result.Ok? then ContactState(Form("", ""), Success) else s.(status := Error)
  }

  /** The submit button is disabled exactly while a submission is in
      flight. */
  predicate SubmitDisabled(s: ContactState) {
    s.status == Submitting
  }

  /** Pressing the submit button: nothing while it is disabled, the
      submit handler otherwise. */
  function PressSubmit(s: ContactState): (r: Submission)
    ensures SubmitDisabled(s) ==> r == Submission(s, None)
    ensures !SubmitDisabled(s) ==> r == Submit(s)
  {
    if SubmitDisabled(s) then Submission(s, None) else Submit(s)
  }

  /** "Send another": back from the success panel to the empty form. */
  function SendAnother(s: ContactState): (r: ContactState)
    ensures r.status == Idle && r.form == s.form
  {
    s.(status := Idle)
  }

  /** A whole submission against the feedback service: a blank message
      changes nothing; otherwise the form is cleared with status success
      exactly when the service accepts it, and kept with status error when
      it does not. */
  function HandleSubmit(demo: bool, s: ContactState, error: Option<string>): (r: ContactState)
    ensures IsBlank(s.form.message) ==> r == s
    ensures !IsBlank(s.form.message) ==> (r.status == Success <==> demo || error.None?)
    ensures !IsBlank(s.form.message) && r.status == Success ==> r.form == Form("", "")
    ensures !IsBlank(s.form.message) && r.status != Success ==> r == s.(status := Error)
  {
    var sub := Submit(s);
    if sub.sent.None? then sub.state
    else SubmitSettled(sub.state, Store.SendFeedback(demo, sub.sent.value, error))
  }

  /** In demo mode every non-blank submission succeeds, and "send another"
      then returns the page to its opening state. */
  lemma DemoSubmissionSucceeds(s: ContactState, error: Option<string>)
    requires !IsBlank(s.form.message)
    ensures HandleSubmit(true, s, error).status == Success
    ensures SendAnother(HandleSubmit(true, s, error)) == Initial
  {
  }

  /** A failed live submission keeps what the visitor typed. */
  lemma FailedSubmissionKeepsForm(s: ContactState, message: string)
    requires !IsBlank(s.form.message)
    ensures HandleSubmit(false, s, Some(message)) == s.(status := Error)
  {
  }

  /** While a submission is in flight a second press sends nothing. */
  lemma NoDoubleSubmit(s: ContactState)
    requires !IsBlank(s.form.message)
    ensures PressSubmit(Submit(s).state).sent.None?
  {
  }
}
