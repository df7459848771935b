/** The feedback form: type selection among four ids, the message guard of
    `handleSubmit` (trimmed, non-empty, at least 10 characters), the payload
    it submits and the reset after a confirmed success. The network call is
    external: its outcome is a parameter. */
module FeedbackScreen {
  import opened Text

  /** The ids of `FEEDBACK_TYPES`, in display order. */
  const TypeIds: seq<string> := ["bug", "feature", "improvement", "other"]

  const DefaultType: string := "feature"

  const MinLength: nat := 10

  const MsgEmpty: string := "Veuillez entrer votre message"
  const MsgTooShort: string := "Le message doit contenir au moins 10 caractères"

  datatype MessageCheck = Accepted(message: string) | Rejected(reason: string)

  /** The two guards of `handleSubmit`; an accepted message is sent trimmed. */
  function CheckMessage(message: string): (r: MessageCheck)
    ensures r.Accepted? <==> |Trim(message)| >= MinLength
    ensures r.Accepted? ==> r.message == Trim(message) && r.message != ""
    ensures (forall i :: 0 <= i < |message| ==> IsSpace(message[i])) ==> r == Rejected(MsgEmpty)
    ensures 0 < |Trim(message)| < MinLength ==> r == Rejected(MsgTooShort)
  {
    var t := Trim(message);
    if t == "" then Rejected(MsgEmpty)
    else if |t| < MinLength then Rejected(MsgTooShort)
    else Accepted(t)
  }

  /** What `feedbackAPI.submit` is given. */
  datatype Payload = Payload(kind: string, message: string)

  datatype Sent = Sent(payload: Payload, loadingDuringCall: bool)

  datatype Alert = Alert(title: string, text: string)

  const AlertThanks: Alert := Alert("Merci !", "Votre feedback a été envoyé avec succès. Nous l'examinerons rapidement.")
  const AlertFailed: Alert := Alert("Erreur", "Impossible d'envoyer le feedback")

  class Screen {
    var kind: string
    var message: string
    var loading: bool
    /** The success alert is up, waiting for its OK. */
    var thanking: bool
    /** Every submission issued, in order. */
    var sent: seq<Sent>

    ghost predicate Valid()
      reads this
    {
      kind in TypeIds
    }

    constructor ()
      ensures Valid()
      ensures kind == DefaultType && message == "" && !loading && !thanking && sent == []
    {
      kind, message := DefaultType, "";
      loading, thanking := false, false;
      sent := [];
    }

    /** Pressing the `i`-th type button (`setType(item.id)`). */
    method SelectType(i: nat)
      requires Valid() && i < |TypeIds|
      modifies this
      ensures Valid()
      ensures kind == TypeIds[i] && message == old(message) && sent == old(sent)
      ensures loading == old(loading) && thanking == old(thanking)
    {
      kind := TypeIds[i];
    }

    /** The message text box (`onChangeText={setMessage}`). */
    method EditMessage(text: string)
      requires Valid()
      modifies this
      ensures Valid()
      ensures message == text && kind == old(kind) && sent == old(sent)
      ensures loading == old(loading) && thanking == old(thanking)
    {
      message := text;
    }

    /** `handleSubmit`: a rejected message sends nothing; an accepted one
        sends the selected type and the trimmed message while `loading` is
        true, and `loading` is false afterwards whatever the outcome. */
    method Submit(succeeded: bool) returns (alert: Alert)
      requires Valid() && !loading
      modifies this
      ensures Valid()
      ensures kind == old(kind) && message == old(message) && !loading
      ensures CheckMessage(message).Rejected? ==>
        sent == old(sent) && alert == Alert("Erreur", CheckMessage(message).reason) && thanking == old(thanking)
      ensures CheckMessage(message).Accepted? ==>
        && sent == old(sent) + [Sent(Payload(kind, Trim(message)), true)]
        && alert == (if succeeded then AlertThanks else AlertFailed)
        && thanking == succeeded
    {
      var check := CheckMessage(message);
      if check.Rejected? {
        return Alert("Erreur", check.reason);
      }
      loading := true;
      sent := sent + [Sent(Payload(kind, check.message), loading)];
      if succeeded {
        alert := AlertThanks;
        thanking := true;
      } else {
        alert := AlertFailed;
        thanking := false;
      }
      loading := false;
    }

    /** The OK of the success alert: the form goes back to its initial state. */
    method ConfirmThanks()
      requires Valid() && thanking
      modifies this
      ensures Valid()
      ensures message == "" && kind == DefaultType && !thanking && sent == old(sent)
      ensures loading == old(loading)
    {
      message, kind := "", DefaultType;
      thanking := false;
    }
  }
}
