/** The "check the meal event and ask whether it can be cancelled" task:
    the agent must email Sarah Martinez, whose address it has to find in
    the Contacts app. The checker looks only at the last sent email. */
module CheckMealEvent {
  import opened Outcomes
  import opened Text

  const CorrectRecipient := "sarah.martinez@greenfield.com"
  const ContactName := "Sarah Martinez"
  const ContactHint := "The contact information for Sarah Martinez can be found in the Contacts app."

  /** The sent-email record; a key the record lacks is `None`. */
  datatype Email = Email(to: Option<string>, body: Option<string>)

  const NoEmailReason := "No email found"

  const WrongRecipientHead := "Email sent to wrong recipient: "
  const ExpectedLabel := ", expected: "

  function WrongRecipientReason(emailTo: string): string {
    WrongRecipientHead + emailTo + ExpectedLabel + Lower(CorrectRecipient)
  }

  /** `is_successful`: `initCheck` is the outcome of the base class's
      initialization check, `email` what `get_sent_email_info` returns. */
  function IsSuccessful(initCheck: Outcome, email: Option<Email>): (r: Result<Verdict>)
    ensures initCheck.Fail? <==> r.Err?
    ensures r.Err? ==> r.error == initCheck.error
    ensures r.Ok? ==> r.value.score == 0.0 || r.value.score == 1.0
    ensures r.Ok? ==> (r.value.score == 1.0 <==> r.value.reason == "Success")
  {
    if initCheck.Fail? then Err(initCheck.error)
    else match email
      case None => Ok(Verdict(0.0, NoEmailReason))
      case Some(e) =>
        var emailTo := Lower(e.to.GetOr(""));
        var content := Lower(e.body.GetOr(""));
        if emailTo == Lower(CorrectRecipient) && |content| > 0 then Ok(Verdict(1.0, "Success"))
        else
          assert WrongRecipientReason(emailTo)[0] == 'E';
          Ok(Verdict(0.0, WrongRecipientReason(emailTo)))
  }

  /** Without a sent email the score is 0.0 with "No email found". */
  lemma NoEmail(initCheck: Outcome)
    requires initCheck.Pass?
    ensures IsSuccessful(initCheck, None) == Ok(Verdict(0.0, NoEmailReason))
  {
  }

  /** The task succeeds exactly when the email went to the expected
      address, compared without letter case, and has a non-empty body (a
      missing field counts as empty). */
  lemma SucceedsIff(e: Email)
    ensures IsSuccessful(Pass, Some(e)) == Ok(Verdict(1.0, "Success")) <==>
      Lower(e.to.GetOr("")) == Lower(CorrectRecipient) && e.body.GetOr("") != []
  {
  }

  /** Recipients that differ only in letter case get the same verdict. */
  lemma RecipientCaseInsensitive(initCheck: Outcome, to1: string, to2: string, body: Option<string>)
    requires Lower(to1) == Lower(to2)
    ensures IsSuccessful(initCheck, Some(Email(Some(to1), body))) == IsSuccessful(initCheck, Some(Email(Some(to2), body)))
  {
  }

  /** The right recipient with an empty or missing body fails, and so does
      a missing recipient. */
  lemma EmptyFieldsFail(initCheck: Outcome, body: Option<string>)
    requires initCheck.Pass?
    requires body == None || body == Some("")
    ensures IsSuccessful(initCheck, Some(Email(Some(CorrectRecipient), body))).value.score == 0.0
    ensures IsSuccessful(initCheck, Some(Email(None, Some("Can we cancel?")))).value.score == 0.0
  {
    assert Lower("") != Lower(CorrectRecipient);
  }

  /** Every failure about a sent email names the recipient it went to and
      the one expected, both lowercased. */
  lemma FailureNamesRecipients(initCheck: Outcome, e: Email)
    requires initCheck.Pass?
    ensures var r := IsSuccessful(initCheck, Some(e));
      r.value.score == 0.0 ==>
        Contains(r.value.reason, Lower(e.to.GetOr(""))) && Contains(r.value.reason, Lower(CorrectRecipient))
  {
    WrongRecipientReasonNames(Lower(e.to.GetOr("")));
  }

  lemma WrongRecipientReasonNames(emailTo: string)
    ensures Contains(WrongRecipientReason(emailTo), emailTo)
    ensures Contains(WrongRecipientReason(emailTo), Lower(CorrectRecipient))
  {
    ContainsParts(WrongRecipientHead, emailTo, ExpectedLabel, Lower(CorrectRecipient));
  }

  /** `CheckMealEventAskUserTask`: the only state its hook touches. */
  class CheckMealEventAskUserTask {
    var relevantInformation: Option<string>

    constructor ()
      ensures relevantInformation == None
    {
      relevantInformation := None;
    }

    /** `initialize_task_hook` sets the hint and, unlike other hooks,
        returns `None`. */
    method InitializeTaskHook() returns (r: Option<bool>)
      modifies this
      ensures r == None
      ensures relevantInformation == Some(ContactHint)
    {
      relevantInformation := Some(ContactHint);
      r := None;
    }
  }
}
