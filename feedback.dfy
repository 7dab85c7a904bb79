/**
 * The feedback page (frontend/src/pages/Feedback.js): the form's fields, the
 * checks made before anything is sent, the record that is sent, and the
 * reset after a successful submission. The server's reply is a parameter.
 */
module Feedback {
  import opened Wrappers
  import opened Text

  datatype FormData = FormData(name: string, email: string, rating: int, comments: string)

  const EmptyForm := FormData("", "", 0, "")

  /** The text inputs, by their `name` attribute. */
  datatype Field = Name | Email | Comments

  /** `handleChange`: the named field takes the new value and the others keep theirs. */
  function Changed(form: FormData, field: Field, value: string): (r: FormData)
    ensures field == Name ==> r == form.(name := value)
    ensures field == Email ==> r == form.(email := value)
    ensures field == Comments ==> r == form.(comments := value)
  {
    match field
    case Name => form.(name := value)
    case Email => form.(email := value)
    case Comments => form.(comments := value)
  }

  /** Reading a field of the form. */
  function Get(form: FormData, field: Field): string {
    match field
    case Name => form.name
    case Email => form.email
    case Comments => form.comments
  }

  /** A change is seen on its own field, leaves the rating alone, and is invisible on every other field. */
  lemma ChangeOnlyNamedField(form: FormData, field: Field, other: Field, value: string)
    ensures Get(Changed(form, field, value), field) == value
    ensures Changed(form, field, value).rating == form.rating
    ensures other != field ==> Get(Changed(form, field, value), other) == Get(form, other)
  {
  }

  /** The JSON sent to the feedback endpoint, without its timestamp. */
  datatype Submission = Submission(name: string, email: string, rating: int, comments: string, username: string)

  /** The name the feedback is filed under: the logged-in user's, else the form's, else `'Anonymous'`. */
  function SubmitterName(loggedIn: Option<string>, formName: string): (u: string)
    ensures u != ""
    ensures loggedIn.Some? && loggedIn.value != "" ==> u == loggedIn.value
    ensures (loggedIn.None? || loggedIn.value == "") && formName != "" ==> u == formName
    ensures (loggedIn.None? || loggedIn.value == "") && formName == "" ==> u == "Anonymous"
  {
    if loggedIn.Some? && loggedIn.value != "" then loggedIn.value
    else if formName != "" then formName
    else "Anonymous"
  }

  function SubmissionOf(form: FormData, loggedIn: Option<string>): Submission {
    Submission(form.name, form.email, form.rating, form.comments, SubmitterName(loggedIn, form.name))
  }

  /** How the request to the feedback endpoint ends. */
  datatype Reply = Accepted | Rejected | Unreachable

  datatype SubmitOutcome = RatingRequired | CommentsRequired | Submitted(sent: Submission) | SubmitFailed(sent: Submission)

  /** The page's state cells. */
  class FeedbackPage {
    var form: FormData
    var submitting: bool

    constructor()
      ensures form == EmptyForm && !submitting && Valid()
    {
      form := EmptyForm;
      submitting := false;
    }

    method HandleChange(field: Field, value: string)
      modifies this`form
      ensures form == Changed(old(form), field, value)
      ensures old(Valid()) ==> Valid()
    {
      form := Changed(form, field, value);
    }

    /** The rating is 0 (none yet) or one of the five stars. */
    predicate Valid()
      reads this
    {
      0 <= form.rating <= 5
    }

    /** A click on star `star` (1 to 5) sets the rating and nothing else. */
    method SetRating(star: int)
      requires 1 <= star <= 5
      modifies this`form
      ensures form == old(form).(rating := star) && Valid()
    {
      form := form.(rating := star);
    }

    /**
     * `handleSubmit`: no rating, then blank comments, are refused before any
     * request. Otherwise the form is sent with the submitter's name; success
     * empties the form, failure keeps it, and `submitting` ends false.
     */
    method HandleSubmit(loggedIn: Option<string>, reply: Reply) returns (outcome: SubmitOutcome)
      modifies this`form, this`submitting
      ensures old(form).rating == 0 ==> outcome == RatingRequired
      ensures old(form).rating != 0 && Trim(old(form).comments) == "" ==> outcome == CommentsRequired
      ensures outcome.RatingRequired? || outcome.CommentsRequired? ==>
        form == old(form) && submitting == old(submitting)
      ensures old(form).rating != 0 && Trim(old(form).comments) != "" ==>
        (outcome.Submitted? || outcome.SubmitFailed?) && outcome.sent == SubmissionOf(old(form), loggedIn) && !submitting
      ensures outcome.Submitted? <==> old(form).rating != 0 && Trim(old(form).comments) != "" && reply == Accepted
      ensures outcome.Submitted? ==> form == EmptyForm
      ensures outcome.SubmitFailed? ==> form == old(form)
      ensures old(Valid()) && (outcome.Submitted? || outcome.SubmitFailed?) ==> 1 <= outcome.sent.rating <= 5
      ensures old(Valid()) ==> Valid()
    {
      if form.rating == 0 {
        return RatingRequired;
      }
      if Trim(form.comments) == "" {
        return CommentsRequired;
      }
      submitting := true;
      var sent := SubmissionOf(form, loggedIn);
      if reply != Accepted {
        submitting := false;
        return SubmitFailed(sent);
      }
      form := EmptyForm;
      submitting := false;
      outcome := Submitted(sent);
    }
  }
}
