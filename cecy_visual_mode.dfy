/**
 * Model of the mood logic of components/CecyVisualMode.tsx: the effect that
 * picks the avatar's state from (isTyping, currentSpeakingId, isUserTyping)
 * and keeps the text of the message being spoken, the label and colour of
 * each state, and the condition for showing the speech bubble.
 * The component's two state variables live in the class Avatar.
 */
module CecyVisualMode {

  import opened Common

  /** `CecyState`. */
  datatype CecyState = Waiting | Thinking | Speaking

  /** The fields of a chat message the avatar reads. */
  datatype Message = Message(id: string, text: string, isUser: bool)

  /** The state chosen by the effect: pending reply first, then speech, else waiting. */
  function SelectState(isTyping: bool, currentSpeakingId: Option<string>, isUserTyping: bool): (s: CecyState)
    ensures isTyping ==> s == Thinking
    ensures !isTyping && Truthy(currentSpeakingId) ==> s == Speaking
    ensures !isTyping && !Truthy(currentSpeakingId) ==> s == Waiting
  {
    if isTyping then Thinking
    else if Truthy(currentSpeakingId) then Speaking
    else if isUserTyping then Waiting
    else Waiting
  }

  /** `messages.findIndex(m => m.id === id)`, as an option. */
  function FindIndex(messages: seq<Message>, id: string): (r: Option<nat>)
    ensures r.Some? ==> r.value < |messages| && messages[r.value].id == id
    ensures r.Some? ==> forall j :: 0 <= j < r.value ==> messages[j].id != id
    ensures r.None? ==> forall j :: 0 <= j < |messages| ==> messages[j].id != id
  {
    if messages == [] then None
    else if messages[0].id == id then Some(0)
    else
      match FindIndex(messages[1..], id)
      case None => None
      case Some(k) => Some(k + 1)
  }

  /** `messages.find(m => m.id === id)`: the first message with that id. */
  function Find(messages: seq<Message>, id: string): (r: Option<Message>)
    ensures r.Some? ==> r.value.id == id && r.value in messages
    ensures r.Some? ==> exists k :: 0 <= k < |messages| && messages[k] == r.value &&
                                    forall j :: 0 <= j < k ==> messages[j].id != id
    ensures r.None? <==> forall m :: m in messages ==> m.id != id
  {
    match FindIndex(messages, id)
    case None => None
    case Some(k) => Some(messages[k])
  }

  /** The value of `currentMessage` after the effect: the text of the spoken message when
      the speaking branch runs and finds it, otherwise the previous value. */
  function NextCurrentMessage(current: string, messages: seq<Message>, isTyping: bool,
                              currentSpeakingId: Option<string>): (next: string)
    // the text changes only to the text of a message being spoken, and only in the speaking branch
    ensures next != current ==>
      && !isTyping && Truthy(currentSpeakingId)
      && exists m :: m in messages && m.id == currentSpeakingId.value && m.text == next
    // while a reply is pending, or with nobody speaking, the text is kept
    ensures isTyping || !Truthy(currentSpeakingId) ==> next == current
  {
    if !isTyping && Truthy(currentSpeakingId) then
      match Find(messages, currentSpeakingId.value)
      case Some(m) => m.text
      case None => current
    else current
  }

  /** `getStateMessage()`. */
  function StateMessage(s: CecyState): (text: string)
    ensures text != ""
  {
    match s
    case Thinking => "Pensando..."
    case Speaking => "Hablando contigo"
    case Waiting => "Esperando tu mensaje"
  }

  /** `getStateColor()`. */
  function StateColor(s: CecyState): (color: string)
    ensures |color| == 7 && color[0] == '#'
    ensures forall i :: 1 <= i < 7 ==> color[i] in "0123456789ABCDEF"
  {
    match s
    case Thinking => "#F59E0B"
    case Speaking => "#53AB32"
    case Waiting => "#94A3B8"
  }

  /** The condition `cecyState === "speaking" && currentMessage` of the message display. */
  predicate ShowsMessageBubble(s: CecyState, currentMessage: string) {
    s == Speaking && currentMessage != ""
  }

  /** The component's state: `cecyState` and `currentMessage`. */
  class Avatar {
    var cecyState: CecyState
    var currentMessage: string

    constructor ()
      ensures cecyState == Waiting && currentMessage == ""
    {
      cecyState := Waiting;
      currentMessage := "";
    }

    /** One run of the state-selection effect. */
    method UpdateState(messages: seq<Message>, isTyping: bool, currentSpeakingId: Option<string>,
                       isUserTyping: bool)
      modifies this
      ensures cecyState == SelectState(isTyping, currentSpeakingId, isUserTyping)
      ensures currentMessage == NextCurrentMessage(old(currentMessage), messages, isTyping, currentSpeakingId)
      ensures cecyState != Speaking ==> currentMessage == old(currentMessage)
      // the bubble shows after the effect exactly when somebody is speaking, no reply is
      // pending and the kept text is not empty
      ensures ShowsBubble() <==> !isTyping && Truthy(currentSpeakingId) && currentMessage != ""
    {
      if isTyping {
        cecyState := Thinking;
      } else if Truthy(currentSpeakingId) {
        cecyState := Speaking;
        var speakingMessage := Find(messages, currentSpeakingId.value);
        if speakingMessage.Some? {
          currentMessage := speakingMessage.value.text;
        }
      } else if isUserTyping {
        cecyState := Waiting;
      } else {
        cecyState := Waiting;
      }
    }

    function ShowsBubble(): bool
      reads this
    {
      ShowsMessageBubble(cecyState, currentMessage)
    }
  }

  // ---------------------------------------------------------------------------
  // Lemmas

  /** `isUserTyping` never changes the state. */
  lemma UserTypingIgnored(isTyping: bool, currentSpeakingId: Option<string>)
    ensures SelectState(isTyping, currentSpeakingId, true) == SelectState(isTyping, currentSpeakingId, false)
  {
  }

  /** An empty speaking id counts as nobody speaking. */
  lemma EmptyIdIsNoSpeaker(isTyping: bool, isUserTyping: bool)
    ensures SelectState(isTyping, Some(""), isUserTyping) == SelectState(isTyping, None, isUserTyping)
  {
  }

  /** The label and colour of each state. */
  lemma StateLabelsAndColors()
    ensures StateMessage(Thinking) == "Pensando..." && StateColor(Thinking) == "#F59E0B"
    ensures StateMessage(Speaking) == "Hablando contigo" && StateColor(Speaking) == "#53AB32"
    ensures StateMessage(Waiting) == "Esperando tu mensaje" && StateColor(Waiting) == "#94A3B8"
  {
  }

  /** When some message is spoken and found, the bubble shows exactly its text, provided the
      text is not empty. */
  lemma {:induction false} BubbleShowsSpokenText(current: string, messages: seq<Message>, id: string,
                                                 isUserTyping: bool, k: nat)
    requires id != ""
    requires k < |messages| && messages[k].id == id
    requires forall j :: 0 <= j < k ==> messages[j].id != id
    ensures NextCurrentMessage(current, messages, false, Some(id)) == messages[k].text
    ensures ShowsMessageBubble(SelectState(false, Some(id), isUserTyping), messages[k].text)
            <==> messages[k].text != ""
  {
    FirstMatch(messages, id, k);
  }

  /** The index found is the first position carrying the id. */
  lemma {:induction false} FirstMatch(messages: seq<Message>, id: string, k: nat)
    requires k < |messages| && messages[k].id == id
    requires forall j :: 0 <= j < k ==> messages[j].id != id
    ensures FindIndex(messages, id) == Some(k)
  {
    if k > 0 {
      FirstMatch(messages[1..], id, k - 1);
    }
  }

  /** While a reply is pending the bubble is hidden, whatever currentMessage holds. */
  lemma ThinkingHidesBubble(currentSpeakingId: Option<string>, isUserTyping: bool, currentMessage: string)
    ensures !ShowsMessageBubble(SelectState(true, currentSpeakingId, isUserTyping), currentMessage)
  {
  }
}
