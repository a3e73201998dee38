/**
 * The e-mail results form: the colour given to a severity label, and the
 * state of the form that sends the results to an address the user types in.
 *
 * The send itself is asynchronous and external; it is split here into the
 * submit (which validates and starts the send, returning what would be
 * sent) and the settling of the send (success or failure passed in).
 */
module Email {
  import opened Wrappers
  import opened Text
  import Dass

  const ExtremelyColor: string := "#7f1d1d"
  const SevereColor: string := "#ef4444"
  const ModerateColor: string := "#f97316"
  const MildColor: string := "#f59e0b"
  const NormalColor: string := "#10b981"
  /** The brand colour, for a label that names no band. */
  const FallbackColor: string := "#12b695"

  const ExtremelyWord: string := "extremely"
  const SevereWord: string := "severe"
  const ModerateWord: string := "moderate"
  const MildWord: string := "mild"
  const NormalWord: string := "normal"

  /** `getStatusColor`: the first band word, in the order extremely, severe,
      moderate, mild, normal, that occurs in the lower-cased label decides
      the colour. */
  function StatusColor(status: string): (r: string)
    ensures r in [ExtremelyColor, SevereColor, ModerateColor, MildColor, NormalColor, FallbackColor]
  {
    var s := ToLower(status);
    if Contains(s, ExtremelyWord) then ExtremelyColor
    else if Contains(s, SevereWord) then SevereColor
    else if Contains(s, ModerateWord) then ModerateColor
    else if Contains(s, MildWord) then MildColor
    else if Contains(s, NormalWord) then NormalColor
    else FallbackColor
  }

  /** `word` occurs somewhere in the lower-cased label. */
  ghost predicate Mentions(status: string, word: string)
  {
    exists i :: OccursAt(ToLower(status), word, i)
  }

  /** The classifier stated by occurrences: each colour is chosen exactly
      when its word occurs and no word earlier in the order does, and the
      brand colour exactly when none of the five occurs. */
  lemma StatusColorSpec(status: string)
    ensures StatusColor(status) == ExtremelyColor <==> Mentions(status, ExtremelyWord)
    ensures StatusColor(status) == SevereColor <==>
              !Mentions(status, ExtremelyWord) && Mentions(status, SevereWord)
    ensures StatusColor(status) == ModerateColor <==>
              !Mentions(status, ExtremelyWord) && !Mentions(status, SevereWord) && Mentions(status, ModerateWord)
    ensures StatusColor(status) == MildColor <==>
              !Mentions(status, ExtremelyWord) && !Mentions(status, SevereWord) && !Mentions(status, ModerateWord)
              && Mentions(status, MildWord)
    ensures StatusColor(status) == NormalColor <==>
              !Mentions(status, ExtremelyWord) && !Mentions(status, SevereWord) && !Mentions(status, ModerateWord)
              && !Mentions(status, MildWord) && Mentions(status, NormalWord)
    ensures StatusColor(status) == FallbackColor <==>
              !Mentions(status, ExtremelyWord) && !Mentions(status, SevereWord) && !Mentions(status, ModerateWord)
              && !Mentions(status, MildWord) && !Mentions(status, NormalWord)
  {
    var s := ToLower(status);
    ContainsSpec(s, ExtremelyWord);
    ContainsSpec(s, SevereWord);
    ContainsSpec(s, ModerateWord);
    ContainsSpec(s, MildWord);
    ContainsSpec(s, NormalWord);
  }

  /** Two labels that differ only in the case of their letters get the same colour. */
  lemma StatusColorIgnoresCase(status: string, other: string)
    requires |status| == |other|
    requires forall i :: 0 <= i < |status| ==> LowerChar(status[i]) == LowerChar(other[i])
    ensures StatusColor(status) == StatusColor(other)
  {
    ToLowerIgnoresCase(status, other);
  }

  /** The colour of each DASS-21 band. */
  function BandColor(s: Dass.Severity): string
  {
    match s
    case ExtremelySevere => ExtremelyColor
    case Severe => SevereColor
    case Moderate => ModerateColor
    case Mild => MildColor
    case Normal => NormalColor
  }

  /** Each DASS-21 band label gets its own colour; in particular "Extremely
      Severe" is matched by "extremely" before "severe" is tried. */
  lemma SeverityColor(s: Dass.Severity)
    ensures StatusColor(Dass.SeverityName(s)) == BandColor(s)
  {
    var t := ToLower(Dass.SeverityName(s));
    match s
    case ExtremelySevere =>
      assert OccursAt(t, ExtremelyWord, 0);
      ContainsAt(t, ExtremelyWord, 0);
    case Severe =>
      assert OccursAt(t, SevereWord, 0);
      ContainsAt(t, SevereWord, 0);
      NotContainsLonger(t, ExtremelyWord);
    case Moderate =>
      assert OccursAt(t, ModerateWord, 0);
      ContainsAt(t, ModerateWord, 0);
      NotContainsLonger(t, ExtremelyWord);
      NotContainsFirstChar(t, SevereWord);
    case Mild =>
      assert OccursAt(t, MildWord, 0);
      ContainsAt(t, MildWord, 0);
      NotContainsLonger(t, ExtremelyWord);
      NotContainsLonger(t, SevereWord);
      NotContainsLonger(t, ModerateWord);
    case Normal =>
      assert OccursAt(t, NormalWord, 0);
      ContainsAt(t, NormalWord, 0);
      NotContainsLonger(t, ExtremelyWord);
      NotContainsLonger(t, ModerateWord);
      NotContainsFirstChar(t, SevereWord);
      NotContainsFirstChar(t, MildWord);
  }

  /** The name sent with the results: the one typed in, or "Anonymous User". */
  const AnonymousName: string := "Anonymous User"

  function SenderName(userName: string): (r: string)
    ensures r != []
    ensures userName != [] ==> r == userName
  {
    if userName != [] then userName else AnonymousName
  }

  const MissingEmailError: string := "Please enter your email address"
  const SendFailedError: string := "Failed to send email. Please try again."

  /** What a submit hands to the sender besides the results themselves. */
  datatype EmailRequest = EmailRequest(userEmail: string, userName: string)

  /** The form's state. */
  class EmailForm {
    var userEmail: string
    var userName: string
    var isSending: bool
    var emailSent: bool
    var error: string

    /** No error is shown while a send is under way or after it succeeded,
        and a sent form is no longer sending. */
    ghost predicate Valid()
      reads this
    {
      (isSending ==> error == [] && !emailSent) && (emailSent ==> error == [])
    }

    constructor()
      ensures Valid()
      ensures userEmail == [] && userName == [] && !isSending && !emailSent && error == []
    {
      userEmail := "";
      userName := "";
      isSending := false;
      emailSent := false;
      error := "";
    }

    /** Typing in the e-mail field. */
    method SetUserEmail(value: string)
      requires Valid()
      modifies this
      ensures Valid()
      ensures userEmail == value
      ensures userName == old(userName) && isSending == old(isSending)
      ensures emailSent == old(emailSent) && error == old(error)
    {
      userEmail := value;
    }

    /** Typing in the name field. */
    method SetUserName(value: string)
      requires Valid()
      modifies this
      ensures Valid()
      ensures userName == value
      ensures userEmail == old(userEmail) && isSending == old(isSending)
      ensures emailSent == old(emailSent) && error == old(error)
    {
      userName := value;
    }

    /** The synchronous part of `handleEmailSubmit`. With no address the
        error asks for one and nothing is sent; otherwise the error is
        cleared, the form is marked as sending, and the request to send
        (the address and the name, "Anonymous User" when none was typed) is
        returned. The submit button is disabled while sending, and the form
        is replaced by a confirmation once sent. */
    method Submit() returns (request: Option<EmailRequest>)
      requires Valid() && !isSending && !emailSent
      modifies this
      ensures Valid()
      ensures old(userEmail) == [] ==> request == None && error == MissingEmailError && !isSending
      ensures old(userEmail) != [] ==>
                request == Some(EmailRequest(userEmail, SenderName(userName))) && error == [] && isSending
      ensures userEmail == old(userEmail) && userName == old(userName) && !emailSent
    {
      if userEmail == [] {
        error := MissingEmailError;
        request := None;
        return;
      }
      isSending := true;
      error := "";
      request := Some(EmailRequest(userEmail, SenderName(userName)));
    }

    /** The end of the send: success marks the results as sent, failure
        shows the retry message, and either way the form stops sending. */
    method SendSettled(succeeded: bool)
      requires Valid() && isSending
      modifies this
      ensures Valid()
      ensures !isSending
      ensures emailSent <==> succeeded
      ensures error == if succeeded then [] else SendFailedError
      ensures userEmail == old(userEmail) && userName == old(userName)
    {
      if succeeded {
        emailSent := true;
      } else {
        error := SendFailedError;
      }
      isSending := false;
    }
  }

  /** Submitting twice, the second time after a failed send, clears the
      failure message and starts a new send of the same request. */
  method RetryAfterFailure(email: string, name: string) returns (first: Option<EmailRequest>, second: Option<EmailRequest>)
    requires email != []
    ensures first == second == Some(EmailRequest(email, SenderName(name)))
  {
    var form := new EmailForm();
    form.SetUserEmail(email);
    form.SetUserName(name);
    first := form.Submit();
    form.SendSettled(false);
    assert form.error == SendFailedError;
    second := form.Submit();
  }
}
