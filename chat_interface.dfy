/** The chat panel: the draft input with its whitespace guard, Enter as a
    shortcut for sending, which side a message is drawn on, and the avatar
    initials. */
module ChatInterface {
  import opened Types
  import opened Text

  predicate IsBlank(draft: string)
  {
    forall i :: 0 <= i < |draft| ==> IsSpace(draft[i])
  }

  /** The send button is disabled when the trimmed draft is empty. */
  predicate SendDisabled(draft: string)
  {
    Trim(draft) == ""
  }

  /** What one send action does: the message sent (if any) and the draft
      left in the input. */
  datatype SendResult = SendResult(sent: Option<string>, draft: string)

  /** `handleSendMessage`: a blank draft is not sent and stays as it is;
      otherwise the draft is sent as typed, untrimmed, and cleared. */
  function SendOnce(draft: string): (r: SendResult)
    ensures r.sent.None? <==> IsBlank(draft)
    ensures r.sent.None? ==> r.draft == draft
    ensures r.sent.Some? ==> r.sent.value == draft && r.draft == ""
  {
    TrimEmptyIffBlank(draft);
    if Trim(draft) == "" then SendResult(None, draft) else SendResult(Some(draft), "")
  }

  /** The button is disabled for exactly the drafts the handler refuses. */
  lemma ButtonMatchesGuard(draft: string)
    ensures SendDisabled(draft) <==> SendOnce(draft).sent.None?
  {
    TrimEmptyIffBlank(draft);
  }

  /** After a send the input is blank, so a second send does nothing. */
  lemma SendTwiceSendsOnce(draft: string)
    ensures SendOnce(SendOnce(draft).draft).sent.None?
    ensures SendOnce(SendOnce(draft).draft).draft == SendOnce(draft).draft
  {
  }

  /** A message is the current user's exactly when they sent it. */
  predicate IsCurrentUser(m: Message, currentUser: User)
  {
    m.senderId == currentUser.id
  }

  /** `name.substring(0, 2).toUpperCase()`. */
  function Initials(name: string): (r: string)
    ensures |r| == Min(2, |name|)
    ensures forall i :: 0 <= i < |r| ==> r[i] == UpperChar(name[i])
  {
    Upper(Substring(name, 0, 2))
  }

  /** The avatar next to a message: the current user's initials on their own
      messages, the other participant's on every other message. */
  function MessageInitials(m: Message, currentUser: User, otherUser: User): (r: string)
    ensures IsCurrentUser(m, currentUser) ==> r == Initials(currentUser.name)
    ensures !IsCurrentUser(m, currentUser) ==> r == Initials(otherUser.name)
  {
    if m.senderId == currentUser.id then Initials(currentUser.name) else Initials(otherUser.name)
  }

  /** Initials of an upper-case ASCII name are its first two letters, and
      upper-casing them again changes nothing. */
  lemma InitialsStable(name: string)
    ensures Upper(Initials(name)) == Initials(name)
    ensures (forall i :: 0 <= i < |name| ==> !IsLowerAscii(name[i])) ==> Initials(name) == name[..Min(2, |name|)]
  {
  }

  /** The draft in the message input. */
  class Composer {
    var newMessage: string

    constructor ()
      ensures newMessage == ""
    {
      newMessage := "";
    }

    method Change(value: string)
      modifies this
      ensures newMessage == value
    {
      newMessage := value;
    }

    /** `handleSendMessage`. The draft is cleared only after the parent's
        `onSendMessage` returns; if it throws, the message was handed over
        but the draft stays. */
    method Send(callbackThrows: bool) returns (sent: Option<string>)
      modifies this
      ensures sent == SendOnce(old(newMessage)).sent
      ensures !callbackThrows ==> SendResult(sent, newMessage) == SendOnce(old(newMessage))
      ensures callbackThrows ==> newMessage == old(newMessage)
    {
      TrimEmptyIffBlank(newMessage);
      if Trim(newMessage) == "" {
        return None;
      }
      sent := Some(newMessage);
      if !callbackThrows {
        newMessage := "";
      }
    }

    /** Enter sends exactly like the button; any other key does nothing here. */
    method KeyDown(key: string, callbackThrows: bool) returns (sent: Option<string>)
      modifies this
      ensures key == "Enter" ==> sent == SendOnce(old(newMessage)).sent
      ensures key == "Enter" && !callbackThrows ==> SendResult(sent, newMessage) == SendOnce(old(newMessage))
      ensures key != "Enter" || callbackThrows ==> newMessage == old(newMessage)
      ensures key != "Enter" ==> sent == None
    {
      sent := None;
      if key == "Enter" {
        sent := Send(callbackThrows);
      }
    }
  }
}
