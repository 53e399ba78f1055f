/** The conversation view: its message list is filled once from the stored
    history and then grows by one message per `messageReceived` event; a sent
    message shows up only when the channel delivers it back. */
module Chat {
  import opened Wrappers
  import opened Text

  /** The populated `senderId` of a stored message. */
  datatype Sender = Sender(id: string, firstName: string, lastName: string)

  /** A message as the history endpoint returns it; its sender may be null. */
  datatype StoredMessage = StoredMessage(sender: Option<Sender>, text: string)

  /** A message as the view keeps it. */
  datatype Message = Message(firstName: Option<string>, lastName: Option<string>, text: string, senderId: Option<string>)

  datatype Name = Name(firstName: Option<string>, lastName: Option<string>)

  /** The payload emitted on `sendMessage`. */
  datatype Outgoing = Outgoing(firstName: Option<string>, lastName: Option<string>, userId: Option<string>,
                               targetUserId: string, text: string)

  /** One stored message in the view's shape; a null sender leaves the name
      and the sender id undefined. */
  function FromStored(m: StoredMessage): (r: Message)
    ensures r.text == m.text
    ensures r.senderId.Some? <==> m.sender.Some?
    ensures m.sender.Some? ==> (r.senderId == Some(m.sender.value.id)
                                && r.firstName == Some(m.sender.value.firstName)
                                && r.lastName == Some(m.sender.value.lastName))
    ensures m.sender.None? ==> r == Message(None, None, m.text, None)
  {
    match m.sender
    case Some(s) => Message(Some(s.firstName), Some(s.lastName), m.text, Some(s.id))
    case None => Message(None, None, m.text, None)
  }

  /** The history in the view's shape: one message per stored message, in
      the same order. */
  function Backfill(ms: seq<StoredMessage>): (r: seq<Message>)
    ensures |r| == |ms|
    ensures forall i :: 0 <= i < |ms| ==> r[i] == FromStored(ms[i])
  {
    seq(|ms|, i requires 0 <= i < |ms| => FromStored(ms[i]))
  }

  /** `find((msg) => msg.senderId !== userId)`, as a position: the first
      message not sent by the user, or none when every message is. */
  function FirstOther(ms: seq<Message>, userId: Option<string>): (r: Option<nat>)
    ensures r.None? <==> forall i :: 0 <= i < |ms| ==> ms[i].senderId == userId
    ensures r.Some? ==> r.value < |ms| && ms[r.value].senderId != userId
    ensures r.Some? ==> forall i :: 0 <= i < r.value ==> ms[i].senderId == userId
  {
    if ms == [] then None
    else if ms[0].senderId != userId then Some(0)
    else match FirstOther(ms[1..], userId)
      case None => None
      case Some(k) => Some(k + 1)
  }

  /** The other participant's name: from the first message someone else
      sent, if any. */
  function TargetUser(ms: seq<Message>, userId: Option<string>): (r: Option<Name>)
    ensures r.None? <==> forall i :: 0 <= i < |ms| ==> ms[i].senderId == userId
    ensures r.Some? ==> (exists i :: (0 <= i < |ms| && ms[i].senderId != userId
                                      && r.value == Name(ms[i].firstName, ms[i].lastName)
                                      && forall j :: 0 <= j < i ==> ms[j].senderId == userId))
  {
    match FirstOther(ms, userId)
    case Some(k) => Some(Name(ms[k].firstName, ms[k].lastName))
    case None => None
  }

  /** A message is drawn as one's own when its first name is the user's. */
  predicate IsOwnMessage(userFirstName: Option<string>, m: Message) {
    userFirstName == m.firstName
  }

  /** `${n} message${n !== 1 ? "s" : ""}`. */
  function CountLabel(n: nat): (r: string)
    ensures |r| > |NatToDecimal(n)| && ParseDecimal(r[..|NatToDecimal(n)|]) == Some(n)
    ensures r[|r| - 1] == 's' <==> n != 1
  {
    var digits := NatToDecimal(n);
    IntToDecimalRoundTrip(n);
    var r := digits + " message" + (if n != 1 then "s" else "");
    assert r[..|digits|] == digits;
    r
  }

  /** Only the first name decides: the sender id is never looked at. */
  lemma OwnMessageIgnoresSenderId(userFirstName: Option<string>, m: Message, other: Option<string>)
    ensures IsOwnMessage(userFirstName, m.(senderId := other)) == IsOwnMessage(userFirstName, m)
    ensures IsOwnMessage(userFirstName, m) <==> m.firstName == userFirstName
  {
  }

  /** So a message from someone else who shares the user's first name is
      drawn as the user's own. */
  lemma NamesakeDrawnAsOwn()
    ensures IsOwnMessage(Some("Ana"), Message(Some("Ana"), Some("Lee"), "hi", Some("u2")))
  {
  }

  class ChatView {
    const userId: Option<string>
    const firstName: Option<string>
    const lastName: Option<string>
    const targetUserId: string
    var messages: seq<Message>
    var newMessage: string
    var loading: bool
    var targetUser: Option<Name>

    /** The view opens empty and loading its history. */
    constructor (userId: Option<string>, firstName: Option<string>, lastName: Option<string>, targetUserId: string)
      ensures this.userId == userId && this.firstName == firstName && this.lastName == lastName
      ensures this.targetUserId == targetUserId
      ensures messages == [] && newMessage == "" && loading && targetUser == None
    {
      this.userId := userId;
      this.firstName := firstName;
      this.lastName := lastName;
      this.targetUserId := targetUserId;
      messages := [];
      newMessage := "";
      loading := true;
      targetUser := None;
    }

    /** The history request ends. `None` is a failed request or an answer
        without a message list: the error is caught and nothing but the
        loading flag changes. Otherwise the list is replaced by the history,
        and the other participant's name is taken from it when someone else
        wrote; if nobody did, the previous name stays. */
    method ApplyBackfill(response: Option<seq<StoredMessage>>)
      modifies this
      ensures !loading && newMessage == old(newMessage)
      ensures response.None? ==> messages == old(messages) && targetUser == old(targetUser)
      ensures response.Some? ==> messages == Backfill(response.value)
      ensures response.Some? && TargetUser(messages, userId).Some? ==> targetUser == TargetUser(messages, userId)
      ensures response.Some? && TargetUser(messages, userId).None? ==> targetUser == old(targetUser)
    {
      if response.Some? {
        var history := Backfill(response.value);
        messages := history;
        if |history| > 0 {
          var other := TargetUser(history, userId);
          if other.Some? {
            targetUser := other;
          }
        }
      }
      loading := false;
    }

    /** A `messageReceived` event: exactly one message is added, at the end. */
    method MessageReceived(m: Message)
      modifies this
      ensures messages == old(messages) + [m]
      ensures newMessage == old(newMessage) && loading == old(loading) && targetUser == old(targetUser)
    {
      messages := messages + [m];
    }

    /** Typing in the input. */
    method Type(text: string)
      modifies this
      ensures newMessage == text
      ensures messages == old(messages) && loading == old(loading) && targetUser == old(targetUser)
    {
      newMessage := text;
    }

    /** `sendMessage`: blank text is never sent. Otherwise the text, as typed,
        is emitted with the user's name and the input is cleared; the list
        itself is left alone until the channel delivers the message back. */
    method SendMessage() returns (sent: Option<Outgoing>)
      modifies this
      ensures sent.None? <==> IsBlank(old(newMessage))
      ensures sent.None? ==> newMessage == old(newMessage)
      ensures sent.Some? ==> sent.value == Outgoing(firstName, lastName, userId, targetUserId, old(newMessage))
      ensures sent.Some? ==> newMessage == ""
      ensures messages == old(messages) && loading == old(loading) && targetUser == old(targetUser)
    {
      if IsBlank(newMessage) {
        return None;
      }
      sent := Some(Outgoing(firstName, lastName, userId, targetUserId, newMessage));
      newMessage := "";
    }
  }
}
