/**
 * The floating inquiry form on an actor's profile: it validates the sender's name and
 * message after trimming, builds the body for the inquiry relay function, and resets or
 * keeps its contents depending on how the call ends.
 */
module ContactSection {
  import opened Wrappers
  import opened Text
  import opened Toasts
  import SendTelegram

  const MissingFieldsToast := Toast("이름과 문의 내용을 입력해 주세요.", None, true)
  const SentToast := Toast("문의가 전송되었습니다.", None, false)

  function FailedToast(message: string): Toast {
    Toast("전송 실패", Some(message), true)
  }

  /**
   * The body `handleSubmit` sends, or nothing when the name or the message is blank after
   * trimming. Sender name and message are the trimmed inputs, the organization is the
   * trimmed input or null when that is empty, and the actor fields pass through.
   */
  function BuildInquiry(actorId: string, actorName: string, name: string, organization: string, message: string)
    : (b: Option<SendTelegram.InquiryBody>)
    ensures b.None? <==> AllSpace(name) || AllSpace(message)
    ensures b.Some? ==>
              && b.value.actor_id == actorId && b.value.actor_name == actorName
              && b.value.sender_name == Trim(name) && b.value.message == Trim(message)
              && b.value.sender_name != "" && b.value.message != ""
              && (b.value.organization == None <==> AllSpace(organization))
              && (b.value.organization.Some? ==> b.value.organization.value == Trim(organization))
  {
    TrimBlank(name);
    TrimBlank(message);
    TrimBlank(organization);
    if Trim(name) == "" || Trim(message) == "" then None
    else Some(SendTelegram.InquiryBody(actorId, actorName, Trim(name), OrNull(Trim(organization)), Trim(message)))
  }

  /**
   * A message relayed for a submitted form carries the organization segment exactly when
   * the organization field held something other than whitespace.
   */
  lemma SubmittedOrganizationSegment(actorId: string, actorName: string, name: string, organization: string, message: string, assignmentType: string)
    requires BuildInquiry(actorId, actorName, name, organization, message).Some?
    ensures var b := BuildInquiry(actorId, actorName, name, organization, message).value;
            SendTelegram.MessageText(b.actor_name, b.sender_name, b.organization, b.message, assignmentType)
              == SendTelegram.MessageText(b.actor_name, b.sender_name, None, b.message, assignmentType)
            <==> AllSpace(organization)
  {
    var b := BuildInquiry(actorId, actorName, name, organization, message).value;
    SendTelegram.MessageTextLayout(b.actor_name, b.sender_name, b.organization, b.message, assignmentType);
  }

  class ContactForm {
    const actorId: string
    const actorName: string
    var open: bool
    var name: string
    var organization: string
    var message: string
    var sending: bool

    /** The panel starts closed, with an empty form and no call in flight. */
    constructor(actorId: string, actorName: string)
      ensures this.actorId == actorId && this.actorName == actorName
      ensures !open && name == "" && organization == "" && message == "" && !sending
    {
      this.actorId := actorId;
      this.actorName := actorName;
      open := false;
      name := "";
      organization := "";
      message := "";
      sending := false;
    }

    /** The envelope button opens the panel; the close button closes it. */
    method SetOpen(value: bool)
      modifies this
      ensures open == value
      ensures name == old(name) && organization == old(organization) && message == old(message) && sending == old(sending)
    {
      open := value;
    }

    method EditName(value: string)
      modifies this
      ensures name == value
      ensures open == old(open) && organization == old(organization) && message == old(message) && sending == old(sending)
    {
      name := value;
    }

    method EditOrganization(value: string)
      modifies this
      ensures organization == value
      ensures open == old(open) && name == old(name) && message == old(message) && sending == old(sending)
    {
      organization := value;
    }

    method EditMessage(value: string)
      modifies this
      ensures message == value
      ensures open == old(open) && name == old(name) && organization == old(organization) && sending == old(sending)
    {
      message := value;
    }

    /**
     * The first half of `handleSubmit`, up to the call. With a blank name or message it
     * returns the warning toast and no body, and changes nothing (in particular `sending`);
     * otherwise it marks the form as sending and returns the body to send.
     */
    method BeginSubmit() returns (body: Option<SendTelegram.InquiryBody>, toast: Option<Toast>)
      modifies this
      ensures body == BuildInquiry(actorId, actorName, old(name), old(organization), old(message))
      ensures body.None? ==> toast == Some(MissingFieldsToast) && sending == old(sending)
      ensures body.Some? ==> toast == None && sending
      ensures open == old(open) && name == old(name) && organization == old(organization) && message == old(message)
    {
      body := BuildInquiry(actorId, actorName, name, organization, message);
      if Trim(name) == "" || Trim(message) == "" {
        toast := Some(MissingFieldsToast);
        return;
      }
      toast := None;
      sending := true;
    }

    /**
     * The second half of `handleSubmit`, once the call has settled with `error` (None on
     * success). Success clears the three fields and closes the panel; failure keeps them.
     * Either way `sending` ends false.
     */
    method CompleteSubmit(error: Option<string>) returns (toast: Toast)
      modifies this
      ensures !sending
      ensures error.None? ==> toast == SentToast && name == "" && organization == "" && message == "" && !open
      ensures error.Some? ==> toast == FailedToast(error.value)
      ensures error.Some? ==> name == old(name) && organization == old(organization) && message == old(message) && open == old(open)
    {
      if error.None? {
        toast := SentToast;
        name, organization, message := "", "", "";
        open := false;
      } else {
        toast := FailedToast(error.value);
      }
      sending := false;
    }
  }
}
