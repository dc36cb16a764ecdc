/**
 * The rider-driver chat: sending typed, quick-reply and dictated text, and the rule that decides
 * when the simulated driver answers.
 */
module DriverChat {
  import opened Wrappers
  import opened Text
  import Auth

  datatype SenderType = UserSender | DriverSender

  datatype MessageStatus = Sent | Delivered | Read

  /** `timestamp` is a clock reading in milliseconds. */
  datatype Message = Message(
    id: string, senderId: string, senderType: SenderType, content: string, timestamp: int,
    status: MessageStatus)

  const DriverId := "driver-1"
  const FallbackUserId := "user-1"
  const MsPerMinute := 60000

  /** The three messages the conversation opens with, dated from the time the page was loaded. */
  function InitialMessages(loadedAt: int): (ms: seq<Message>)
    ensures |ms| == 3 && ms[|ms| - 1].senderType == DriverSender
  {
    [
      Message("1", DriverId, DriverSender, "Hi! I'm on my way to pick you up.", loadedAt - 5 * MsPerMinute, Read),
      Message("2", FallbackUserId, UserSender, "Great! I'm waiting at the main entrance.", loadedAt - 4 * MsPerMinute, Read),
      Message("3", DriverId, DriverSender, "I'll be there in about 3 minutes. I'm in a white Maruti Dzire.", loadedAt - 3 * MsPerMinute, Read)
    ]
  }

  const InitialCount := 3

  const QuickReplies: seq<string> := ["I'm here", "On my way", "5 more minutes", "Can you wait?", "I see you!"]

  const DriverResponses: seq<string> := [
    "Got it, thanks!", "Okay, see you soon!", "No problem!", "Sure thing!", "Understood!"
  ]

  /** `user?.id || "user-1"`: the signed-in user's id unless there is none or it is empty. */
  function SenderId(user: Option<Auth.User>): (id: string)
    ensures user.Some? && user.value.id != "" ==> id == user.value.id
    ensures !(user.Some? && user.value.id != "") ==> id == FallbackUserId
    ensures id != ""
  {
    if user.Some? && user.value.id != "" then user.value.id else FallbackUserId
  }

  /** The message `sendMessage` appends. */
  function UserMessage(text: string, user: Option<Auth.User>, id: string, timestamp: int): (m: Message)
    ensures m.senderType == UserSender && m.status == Sent && m.content == Trim(text)
    ensures m.senderId == SenderId(user) && m.id == id && m.timestamp == timestamp
  {
    Message(id, SenderId(user), UserSender, Trim(text), timestamp, Sent)
  }

  /**
   * The effect's test: the driver answers once the conversation has grown past the opening
   * messages and its last message is the user's.
   */
  predicate ReplyScheduled(messages: seq<Message>) {
    |messages| > InitialCount && messages[|messages| - 1].senderType == UserSender
  }

  /** The driver's answer: one of the canned responses, marked delivered. */
  function DriverReply(choice: nat, id: string, timestamp: int): (m: Message)
    requires choice < |DriverResponses|
    ensures m.senderType == DriverSender && m.senderId == DriverId && m.status == Delivered
    ensures m.content in DriverResponses
  {
    Message(id, DriverId, DriverSender, DriverResponses[choice], timestamp, Delivered)
  }

  /** The opening conversation schedules no reply. */
  lemma NoReplyAtStart(loadedAt: int)
    ensures !ReplyScheduled(InitialMessages(loadedAt))
  {
  }

  /** Every message the user sends is answered... */
  lemma SendSchedulesReply(messages: seq<Message>, m: Message)
    requires |messages| >= InitialCount && m.senderType == UserSender
    ensures ReplyScheduled(messages + [m])
  {
  }

  /** ... and the answer itself schedules nothing, so the driver never answers the driver. */
  lemma ReplySchedulesNothing(messages: seq<Message>, choice: nat, id: string, timestamp: int)
    requires choice < |DriverResponses|
    ensures !ReplyScheduled(messages + [DriverReply(choice, id, timestamp)])
  {
  }

  /** Dictation onto an empty input adds a leading space, which the trim on sending removes. */
  lemma DictationOnEmptyInput(transcript: string)
    ensures Trim("" + " " + transcript) == Trim(transcript)
  {
    assert "" + " " + transcript == [' '] + transcript;
    assert TrimStart([' '] + transcript) == TrimStart(transcript) by {
      assert ([' '] + transcript)[1..] == transcript;
    }
  }

  /** The number of messages from one kind of sender. */
  function CountFrom(ms: seq<Message>, t: SenderType): nat
    decreases |ms|
  {
    if ms == [] then 0
    else CountFrom(ms[..|ms| - 1], t) + (if ms[|ms| - 1].senderType == t then 1 else 0)
  }

  /** The messages after the opening ones. */
  function Later(ms: seq<Message>): seq<Message>
    requires |ms| >= InitialCount
  {
    ms[InitialCount..]
  }

  /** Appending a message adds one to its sender's count and nothing to the other's. */
  lemma LaterAppend(ms: seq<Message>, m: Message, t: SenderType)
    requires |ms| >= InitialCount
    ensures CountFrom(Later(ms + [m]), t) == CountFrom(Later(ms), t) + (if m.senderType == t then 1 else 0)
  {
    var later := Later(ms + [m]);
    assert later[..|later| - 1] == Later(ms);
  }

  /**
   * The page's state. Each change of the message list whose last entry is the user's (past the
   * opening three) arms two timers, one that shows the driver typing and one that delivers a
   * reply; nothing ever cancels them. `pendingTyping` and `pendingReplies` count the timers of
   * each kind that are armed and have not fired yet.
   */
  class ChatPage {
    var messages: seq<Message>
    var inputText: string
    var isTyping: bool
    var pendingTyping: nat
    var pendingReplies: nat

    /**
     * The opening messages stay first, and every user message sent so far has been answered or
     * has its reply still pending, so driver replies never outnumber the user's messages. Each
     * message's typing timer (1 s) fires before its reply timer (2.5 s), so no more typing timers
     * than reply timers are pending, and the driver is shown typing only while a reply is pending
     * whose typing timer has fired.
     */
    ghost predicate Valid()
      reads this
    {
      && |messages| >= InitialCount
      && CountFrom(Later(messages), DriverSender) + pendingReplies == CountFrom(Later(messages), UserSender)
      && pendingTyping <= pendingReplies
      && (isTyping ==> pendingTyping < pendingReplies)
    }

    constructor (loadedAt: int)
      ensures Valid()
      ensures messages == InitialMessages(loadedAt) && inputText == "" && !isTyping
      ensures pendingTyping == 0 && pendingReplies == 0
    {
      messages := InitialMessages(loadedAt);
      inputText := "";
      isTyping := false;
      pendingTyping := 0;
      pendingReplies := 0;
    }

    /**
     * `sendMessage`: blank text changes nothing; otherwise one user message with the trimmed text
     * is appended, the input is cleared, and the effect on the new list arms one typing timer and
     * one reply timer.
     */
    method SendMessage(text: string, user: Option<Auth.User>, id: string, timestamp: int) returns (sent: bool)
      requires Valid()
      modifies this`messages, this`inputText, this`pendingTyping, this`pendingReplies
      ensures Valid()
      ensures sent <==> !IsBlank(text)
      ensures !sent ==> messages == old(messages) && inputText == old(inputText)
      ensures !sent ==> pendingTyping == old(pendingTyping) && pendingReplies == old(pendingReplies)
      ensures sent ==> messages == old(messages) + [UserMessage(text, user, id, timestamp)] && inputText == ""
      ensures sent ==> pendingTyping == old(pendingTyping) + 1 && pendingReplies == old(pendingReplies) + 1
    {
      if IsBlank(text) {
        return false;
      }
      var m := UserMessage(text, user, id, timestamp);
      LaterAppend(messages, m, UserSender);
      LaterAppend(messages, m, DriverSender);
      messages := messages + [m];
      inputText := "";
      if ReplyScheduled(messages) {
        pendingTyping := pendingTyping + 1;
        pendingReplies := pendingReplies + 1;
      }
      sent := true;
    }

    /** `handleSubmit` and Enter in the input: sends the input when it is not blank. */
    method HandleSubmit(user: Option<Auth.User>, id: string, timestamp: int) returns (sent: bool)
      requires Valid()
      modifies this`messages, this`inputText, this`pendingTyping, this`pendingReplies
      ensures Valid()
      ensures sent <==> !IsBlank(old(inputText))
      ensures !sent ==> messages == old(messages) && inputText == old(inputText)
      ensures !sent ==> pendingTyping == old(pendingTyping) && pendingReplies == old(pendingReplies)
      ensures sent ==> messages == old(messages) + [UserMessage(old(inputText), user, id, timestamp)] && inputText == ""
      ensures sent ==> pendingTyping == old(pendingTyping) + 1 && pendingReplies == old(pendingReplies) + 1
    {
      sent := false;
      if !IsBlank(inputText) {
        sent := SendMessage(inputText, user, id, timestamp);
      }
    }

    /** A quick-reply chip: sends its text, and clears whatever was typed without sending it. */
    method QuickReply(reply: string, user: Option<Auth.User>, id: string, timestamp: int)
      requires Valid() && reply in QuickReplies
      modifies this`messages, this`inputText, this`pendingTyping, this`pendingReplies
      ensures Valid()
      ensures messages == old(messages) + [UserMessage(reply, user, id, timestamp)] && inputText == ""
      ensures pendingTyping == old(pendingTyping) + 1 && pendingReplies == old(pendingReplies) + 1
    {
      assert forall i :: 0 <= i < |QuickReplies| ==> !IsBlank(QuickReplies[i]) by {
        assert !IsJsWhitespace(QuickReplies[0][0]) && !IsJsWhitespace(QuickReplies[1][0]);
        assert !IsJsWhitespace(QuickReplies[2][0]) && !IsJsWhitespace(QuickReplies[3][0]);
        assert !IsJsWhitespace(QuickReplies[4][0]);
      }
      var sent := SendMessage(reply, user, id, timestamp);
    }

    /** A dictation result is added after a space. */
    method VoiceResult(transcript: string)
      modifies this`inputText
      ensures inputText == old(inputText) + " " + transcript
    {
      inputText := inputText + " " + transcript;
    }

    /** The input's `onChange`. */
    method SetInput(text: string)
      modifies this`inputText
      ensures inputText == text
    {
      inputText := text;
    }

    /** A typing timer fires: the driver is shown typing, even when an earlier reply has already come. */
    method DriverStartsTyping()
      requires Valid() && pendingTyping > 0
      modifies this`isTyping, this`pendingTyping
      ensures Valid()
      ensures isTyping && pendingTyping == old(pendingTyping) - 1
    {
      isTyping := true;
      pendingTyping := pendingTyping - 1;
    }

    /**
     * A reply timer fires: the typing indicator goes off and the driver's answer is appended;
     * `choice` stands for the random pick. The appended reply arms nothing. The typing timer of
     * the same message has already fired.
     */
    method DeliverDriverReply(choice: nat, id: string, timestamp: int)
      requires Valid() && pendingTyping < pendingReplies && choice < |DriverResponses|
      modifies this`messages, this`isTyping, this`pendingReplies
      ensures Valid()
      ensures messages == old(messages) + [DriverReply(choice, id, timestamp)] && !isTyping
      ensures pendingReplies == old(pendingReplies) - 1 && !ReplyScheduled(messages)
      ensures CountFrom(Later(messages), DriverSender) <= CountFrom(Later(messages), UserSender)
    {
      var m := DriverReply(choice, id, timestamp);
      LaterAppend(messages, m, UserSender);
      LaterAppend(messages, m, DriverSender);
      isTyping := false;
      messages := messages + [m];
      pendingReplies := pendingReplies - 1;
    }
  }
}
