/**
 * The chatbot: keyword-based choice of a canned reply, and the message list
 * that a send and its delayed reply each extend by one message.
 */
module Chat {

  import opened Wrappers
  import opened Text

  /** The five canned replies, in the order the keyword groups select them. */
  const MockResponses: seq<string> := [
    "La consagración total a María es el camino más seguro para llegar a Jesús. Como escribí en mi 'Tratado de la Verdadera Devoción': 'Dios Padre reunió todas las aguas y las llamó mar; reunió todas las gracias y las llamó María.'",
    "El Rosario es la oración más poderosa después de la Santa Misa. A través de él, contemplamos los misterios de la vida de Cristo junto a su Madre Santísima.",
    "La humildad es la base de toda virtud. María, siendo la más humilde de todas las criaturas, fue elevada a ser la Madre de Dios. Imitemos su humildad en nuestra vida diaria.",
    "La consagración total significa entregar todo lo que somos y tenemos a María, para que ella nos conduzca a Jesús. Es un acto de amor y confianza total.",
    "Los 33 días de preparación son fundamentales. Cada día nos acerca más a Jesús a través de María. Persevera en la oración y la meditación."
  ]

  /** The bot's opening message. */
  const Greeting: string := "¡Salve María! Soy San Luis María Grignion de Montfort. Estoy aquí para guiarte en tu camino hacia la consagración total a Jesús por María. ¿En qué puedo ayudarte hoy?"

  /** The keyword groups in the order they are tested; group `i` selects reply `i`. */
  const KeywordGroups: seq<seq<string>> := [
    ["consagración", "consagrar"],
    ["rosario", "rezar"],
    ["humildad", "humilde"],
    ["total", "entregar"],
    ["33", "días", "preparación"]
  ]

  /** Some keyword of `group` occurs in `text`. */
  predicate MatchesGroup(text: string, group: seq<string>) {
    exists i :: 0 <= i < |group| && Contains(text, group[i])
  }

  /** The index of the first group, from `from` on, that matches `text`. */
  function FirstMatchingGroup(text: string, groups: seq<seq<string>>, from: nat): (r: Option<nat>)
    requires from <= |groups|
    ensures r.Some? ==> from <= r.value < |groups| && MatchesGroup(text, groups[r.value])
    ensures r.Some? ==> forall j :: from <= j < r.value ==> !MatchesGroup(text, groups[j])
    ensures r.None? ==> forall j :: from <= j < |groups| ==> !MatchesGroup(text, groups[j])
    decreases |groups| - from
  {
    if from == |groups| then None
    else if MatchesGroup(text, groups[from]) then Some(from)
    else FirstMatchingGroup(text, groups, from + 1)
  }

  /**
   * The index of the reply `generateResponse` picks: the message is lower-cased,
   * the keyword tests run in a fixed order and the first hit wins; with no
   * hit, the reply is the randomly drawn `pick`.
   */
  function ReplyIndex(message: string, pick: nat): (k: nat)
    requires pick < |MockResponses|
    ensures k < |MockResponses|
  {
    var lower := ToLower(message);
    if Contains(lower, "consagración") || Contains(lower, "consagrar") then 0
    else if Contains(lower, "rosario") || Contains(lower, "rezar") then 1
    else if Contains(lower, "humildad") || Contains(lower, "humilde") then 2
    else if Contains(lower, "total") || Contains(lower, "entregar") then 3
    else if Contains(lower, "33") || Contains(lower, "días") || Contains(lower, "preparación") then 4
    else pick
  }

  /** `generateResponse(message)`: the canned reply `ReplyIndex` selects. */
  function GenerateResponse(message: string, pick: nat): (r: string)
    requires pick < |MockResponses|
    ensures r in MockResponses
  {
    MockResponses[ReplyIndex(message, pick)]
  }

  /**
   * The if/else chain is the group table tested in order: the reply is that
   * of the first group with a keyword in the lower-cased message, and the
   * random pick only when no group matches.
   */
  lemma ReplyIsFirstMatchingGroup(message: string, pick: nat)
    requires pick < |MockResponses|
    ensures match FirstMatchingGroup(ToLower(message), KeywordGroups, 0)
      case Some(g) => ReplyIndex(message, pick) == g
      case None => ReplyIndex(message, pick) == pick
  {
    var lower := ToLower(message);
    var g0, g1, g2, g3, g4 := KeywordGroups[0], KeywordGroups[1], KeywordGroups[2], KeywordGroups[3], KeywordGroups[4];
    assert MatchesGroup(lower, g0) <==> Contains(lower, "consagración") || Contains(lower, "consagrar") by {
      if Contains(lower, g0[0]) || Contains(lower, g0[1]) { assert MatchesGroup(lower, g0); }
    }
    assert MatchesGroup(lower, g1) <==> Contains(lower, "rosario") || Contains(lower, "rezar") by {
      if Contains(lower, g1[0]) || Contains(lower, g1[1]) { assert MatchesGroup(lower, g1); }
    }
    assert MatchesGroup(lower, g2) <==> Contains(lower, "humildad") || Contains(lower, "humilde") by {
      if Contains(lower, g2[0]) || Contains(lower, g2[1]) { assert MatchesGroup(lower, g2); }
    }
    assert MatchesGroup(lower, g3) <==> Contains(lower, "total") || Contains(lower, "entregar") by {
      if Contains(lower, g3[0]) || Contains(lower, g3[1]) { assert MatchesGroup(lower, g3); }
    }
    assert MatchesGroup(lower, g4) <==> Contains(lower, "33") || Contains(lower, "días") || Contains(lower, "preparación") by {
      if Contains(lower, g4[0]) || Contains(lower, g4[1]) || Contains(lower, g4[2]) { assert MatchesGroup(lower, g4); }
    }
  }

  /** A message naming consecration gets the consecration reply, whatever else it contains. */
  lemma ConsecrationWins(message: string, pick: nat)
    requires pick < |MockResponses|
    requires Contains(ToLower(message), "consagración") || Contains(ToLower(message), "consagrar")
    ensures GenerateResponse(message, pick) == MockResponses[0]
  {
  }

  /** Matching ignores case: a message and its lower-cased form get the same reply. */
  lemma ReplyIgnoresCase(message: string, pick: nat)
    requires pick < |MockResponses|
    ensures ReplyIndex(ToLower(message), pick) == ReplyIndex(message, pick)
  {
    ToLowerIdempotent(message);
  }

  /** One entry of the message list (its id and timestamp are left out). */
  datatype ChatMessage = ChatMessage(text: string, isUser: bool)

  /** How many messages of `msgs` the user sent. */
  function UserCount(msgs: seq<ChatMessage>): (n: nat)
    ensures n <= |msgs|
  {
    if msgs == [] then 0 else UserCount(msgs[..|msgs| - 1]) + (if msgs[|msgs| - 1].isUser then 1 else 0)
  }

  /** How many messages of `msgs` the bot sent. */
  function BotCount(msgs: seq<ChatMessage>): (n: nat)
    ensures n + UserCount(msgs) == |msgs|
  {
    if msgs == [] then 0 else BotCount(msgs[..|msgs| - 1]) + (if msgs[|msgs| - 1].isUser then 0 else 1)
  }

  /** The chat window's state; `pendingReplies` holds the texts whose reply timer is running. */
  class Chatbot {
    var messages: seq<ChatMessage>
    var inputMessage: string
    var isTyping: bool
    var pendingReplies: seq<string>

    /**
     * The list starts with the greeting and only grows, and every user
     * message is answered by one bot message or by a running reply timer.
     */
    ghost predicate Valid()
      reads this
    {
      && |messages| >= 1 && messages[0] == ChatMessage(Greeting, false)
      && BotCount(messages) + |pendingReplies| == 1 + UserCount(messages)
    }

    /** The list holds exactly the greeting; the input is empty and no reply is awaited. */
    constructor ()
      ensures Valid()
      ensures messages == [ChatMessage(Greeting, false)]
      ensures inputMessage == "" && !isTyping && pendingReplies == []
    {
      messages := [ChatMessage(Greeting, false)];
      inputMessage := "";
      isTyping := false;
      pendingReplies := [];
    }

    /** Typing in the input: `setInputMessage(e.target.value)`. */
    method SetInput(text: string)
      requires Valid()
      modifies this
      ensures Valid() && inputMessage == text
      ensures messages == old(messages) && isTyping == old(isTyping) && pendingReplies == old(pendingReplies)
    {
      inputMessage := text;
    }

    /**
     * `handleSendMessage`: blank input sends nothing; otherwise the text is
     * appended as one user message, the input is cleared, `isTyping` is set
     * and a reply timer for that text starts.
     */
    method HandleSendMessage() returns (sent: bool)
      requires Valid()
      modifies this
      ensures Valid()
      ensures sent <==> !IsBlank(old(inputMessage))
      ensures !sent ==> (messages == old(messages) && inputMessage == old(inputMessage)
        && isTyping == old(isTyping) && pendingReplies == old(pendingReplies))
      ensures sent ==> (messages == old(messages) + [ChatMessage(old(inputMessage), true)]
        && inputMessage == "" && isTyping && pendingReplies == old(pendingReplies) + [old(inputMessage)])
    {
      if IsBlank(inputMessage) {
        return false;
      }
      var userMessage := ChatMessage(inputMessage, true);
      var text := inputMessage;
      messages := messages + [userMessage];
      assert messages[..|messages| - 1] == old(messages);
      inputMessage := "";
      isTyping := true;
      pendingReplies := pendingReplies + [text];
      sent := true;
    }

    /**
     * The reply timer of the oldest pending send fires: the reply to that
     * text is appended as one bot message and `isTyping` is cleared. `pick`
     * is the random draw used when no keyword matches.
     */
    method ReplyTimerFires(pick: nat) returns (reply: string)
      requires Valid() && pendingReplies != [] && pick < |MockResponses|
      modifies this
      ensures Valid()
      ensures reply == GenerateResponse(old(pendingReplies)[0], pick)
      ensures messages == old(messages) + [ChatMessage(reply, false)]
      ensures !isTyping && pendingReplies == old(pendingReplies)[1..]
      ensures inputMessage == old(inputMessage)
    {
      reply := GenerateResponse(pendingReplies[0], pick);
      messages := messages + [ChatMessage(reply, false)];
      assert messages[..|messages| - 1] == old(messages);
      pendingReplies := pendingReplies[1..];
      isTyping := false;
    }

    /** The send button, disabled while the input is blank or a reply is awaited. */
    method PressSendButton() returns (sent: bool)
      requires Valid()
      modifies this
      ensures Valid()
      ensures sent <==> !old(isTyping) && !IsBlank(old(inputMessage))
      ensures !sent ==> (messages == old(messages) && inputMessage == old(inputMessage)
        && isTyping == old(isTyping) && pendingReplies == old(pendingReplies))
      ensures sent ==> (messages == old(messages) + [ChatMessage(old(inputMessage), true)]
        && inputMessage == "" && isTyping && pendingReplies == old(pendingReplies) + [old(inputMessage)])
    {
      sent := false;
      if !IsBlank(inputMessage) && !isTyping {
        sent := HandleSendMessage();
      }
    }

    /** `handleKeyPress`: Enter without Shift sends; any other key, or Shift+Enter, does nothing. */
    method HandleKeyPress(key: string, shiftKey: bool) returns (sent: bool)
      requires Valid()
      modifies this
      ensures Valid()
      ensures sent <==> key == "Enter" && !shiftKey && !IsBlank(old(inputMessage))
      ensures !sent ==> (messages == old(messages) && inputMessage == old(inputMessage)
        && isTyping == old(isTyping) && pendingReplies == old(pendingReplies))
      ensures sent ==> (messages == old(messages) + [ChatMessage(old(inputMessage), true)]
        && inputMessage == "" && isTyping && pendingReplies == old(pendingReplies) + [old(inputMessage)])
    {
      sent := false;
      if key == "Enter" && !shiftKey {
        sent := HandleSendMessage();
      }
    }
  }

  /** One exchange: a message sent and its reply delivered add exactly two messages, the user's then the bot's. */
  method Exchange(text: string, pick: nat) returns (messages: seq<ChatMessage>, reply: string)
    requires !IsBlank(text) && pick < |MockResponses|
    ensures reply == GenerateResponse(text, pick)
    ensures |messages| == 3 && messages[0] == ChatMessage(Greeting, false)
    ensures messages[1] == ChatMessage(text, true) && messages[2] == ChatMessage(reply, false)
  {
    var bot := new Chatbot();
    bot.SetInput(text);
    var sent := bot.HandleSendMessage();
    assert bot.pendingReplies == [text];
    reply := bot.ReplyTimerFires(pick);
    messages := bot.messages;
  }
}
