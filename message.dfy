/**
 * The Message schema: sender and receiver reference users but are not required,
 * text is required, and the timestamp defaults to the server's clock when the
 * record is created.
 */
module MessageSchema {
  import opened Wrappers
  import opened UserSchema

  datatype Message = Message(
    sender: Option<UserId>,
    receiver: Option<UserId>,
    text: string,
    timestamp: nat)

  /** The `required` check on the text path: the field is given and is not empty. */
  predicate TextPresent(text: Option<string>)
  {
    text.Some? && Present(text.value)
  }

  /**
   * `new Message({ text, sender, receiver })` followed by schema validation:
   * a message whose text fails the `required` check is refused; otherwise the
   * record holds exactly the given sender, receiver and text, stamped `now`.
   */
  function Validate(sender: Option<UserId>, receiver: Option<UserId>, text: Option<string>, now: nat)
    : (r: Option<Message>)
    ensures r.Some? <==> text.Some? && text.value != ""
    ensures r.Some? ==> r.value == Message(sender, receiver, text.value, now)
  {
    if TextPresent(text) then Some(Message(sender, receiver, text.value, now)) else None
  }
}
