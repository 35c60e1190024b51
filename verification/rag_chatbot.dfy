/**
  The chat widget's state (src/components/RAGChatbot.tsx): the message list, the input
  box and the loading flag, changed by sending, by the delayed canned reply and by clearing.

  The reply arrives from a timer the send step starts. All timers have the same delay, so
  they fire in the order they were started; each remembers the language of the render that
  started it. The model keeps those timers as a queue of captured language flags and makes
  their firing a step of its own. Message ids come from the clock in the source and are
  parameters here.
 */
module RagChatbot {
  import opened Text

  datatype Role = User | Assistant

  datatype ChatMessage = ChatMessage(id: string, role: Role, content: string)

  const WelcomePt := "Olá! Sou o assistente de IA do Carlos. Posso responder perguntas sobre seus projetos, arquitetura de soluções e experiência profissional. Como posso ajudar?"
  const WelcomeEn := "Hello! I'm Carlos' AI assistant. I can answer questions about his projects, solution architecture, and professional experience. How can I help?"
  const ReplyPt := "Essa é uma ótima pergunta! Estou processando sua mensagem. Em breve, esta será uma resposta real alimentada pela API Gemini com informações dos projetos."
  const ReplyEn := "That's a great question! I'm processing your message. Soon, this will be a real response powered by the Gemini API with project information."

  /** The greeting the list starts with and is reset to: an assistant message with id `1`. */
  function Welcome(isPortuguese: bool): ChatMessage {
    ChatMessage("1", Assistant, if isPortuguese then WelcomePt else WelcomeEn)
  }

  function ReplyText(isPortuguese: bool): string {
    if isPortuguese then ReplyPt else ReplyEn
  }

  /** The submit button is enabled (`disabled={isLoading || !input.trim()}` is false). */
  predicate SubmitEnabled(isLoading: bool, input: string) {
    !isLoading && !IsBlank(input)
  }

  /** Submitting is possible exactly when no reply is awaited and the input holds a non-white-space character. */
  lemma SubmitEnabledIff(isLoading: bool, input: string)
    ensures SubmitEnabled(isLoading, input) <==> !isLoading && exists i :: 0 <= i < |input| && !IsWhitespace(input[i])
  {
    BlankIffAllWhitespace(input);
  }

  class ChatSession {
    var messages: seq<ChatMessage>
    var input: string
    var isLoading: bool
    /** The language of the current render (the `language` prop). */
    var isPortuguese: bool
    /** One entry per reply timer not yet fired, oldest first: the language it captured. */
    var pending: seq<bool>

    /**
      What every step keeps: the list is never empty and starts with an assistant message with
      id `1`, and the widget is loading only while some reply is still due.
     */
    predicate Valid()
      reads this
    {
      && |messages| >= 1
      && messages[0].role == Assistant && messages[0].id == "1"
      && (isLoading ==> pending != [])
    }

    /** The state the three `useState` calls set up. */
    constructor(isPortuguese: bool)
      ensures Valid()
      ensures messages == [Welcome(isPortuguese)]
      ensures input == "" && !isLoading && pending == []
      ensures this.isPortuguese == isPortuguese
    {
      messages := [Welcome(isPortuguese)];
      input := "";
      isLoading := false;
      this.isPortuguese := isPortuguese;
      pending := [];
    }

    predicate CanSubmit()
      reads this
    {
      SubmitEnabled(isLoading, input)
    }

    /** The input field is disabled while a reply is awaited. */
    predicate InputDisabled()
      reads this
    {
      isLoading
    }

    /** Typing into the input field. */
    method SetInput(text: string)
      requires Valid()
      modifies this
      ensures Valid()
      ensures input == text
      ensures messages == old(messages) && isLoading == old(isLoading) && pending == old(pending)
      ensures isPortuguese == old(isPortuguese)
    {
      input := text;
    }

    /** A re-render with another `language` prop; the state was initialised once and is kept. */
    method SetLanguage(isPortuguese: bool)
      requires Valid()
      modifies this
      ensures Valid()
      ensures this.isPortuguese == isPortuguese
      ensures messages == old(messages) && input == old(input)
      ensures isLoading == old(isLoading) && pending == old(pending)
    {
      this.isPortuguese := isPortuguese;
    }

    /**
      `handleSendMessage`: a blank input changes nothing. Otherwise the raw input, untrimmed,
      becomes a user message at the end of the list, the input is cleared, loading starts,
      and a reply timer capturing the current language is started. From then on the input field
      and the submit button are disabled until a reply arrives.
     */
    method SendMessage(id: string)
      requires Valid()
      modifies this
      ensures Valid()
      ensures IsBlank(old(input)) ==>
        messages == old(messages) && input == old(input) && isLoading == old(isLoading) && pending == old(pending)
      ensures !IsBlank(old(input)) ==>
        && messages == old(messages) + [ChatMessage(id, User, old(input))]
        && input == ""
        && isLoading
        && pending == old(pending) + [old(isPortuguese)]
      ensures !IsBlank(old(input)) ==> InputDisabled() && !CanSubmit()
      ensures isPortuguese == old(isPortuguese)
    {
      if IsBlank(input) {
        return;
      }
      messages := messages + [ChatMessage(id, User, input)];
      input := "";
      isLoading := true;
      pending := pending + [isPortuguese];
    }

    /**
      The oldest reply timer fires: one assistant message in the language that timer captured
      is appended, and loading stops, which enables the input field again and the submit button
      as soon as the input holds something other than white space.
     */
    method DeliverReply(id: string)
      requires Valid()
      requires pending != []
      modifies this
      ensures Valid()
      ensures messages == old(messages) + [ChatMessage(id, Assistant, ReplyText(old(pending)[0]))]
      ensures !isLoading
      ensures pending == old(pending)[1..]
      ensures input == old(input) && isPortuguese == old(isPortuguese)
      ensures !InputDisabled() && (CanSubmit() <==> !IsBlank(input))
    {
      messages := messages + [ChatMessage(id, Assistant, ReplyText(pending[0]))];
      isLoading := false;
      pending := pending[1..];
    }

    /**
      `handleClearChat`: the list becomes the welcome message alone, in the current language.
      The input, the loading flag and the timers already started are left as they are.
     */
    method ClearChat()
      requires Valid()
      modifies this
      ensures Valid()
      ensures messages == [Welcome(isPortuguese)]
      ensures input == old(input) && isLoading == old(isLoading) && pending == old(pending)
      ensures isPortuguese == old(isPortuguese)
    {
      messages := [Welcome(isPortuguese)];
    }
  }

  /**
    Two questions, each answered before the next is asked, leave the list in the order
    welcome, question, answer, question, answer, with the questions as typed.
   */
  method TwoExchanges(isPortuguese: bool, q1: string, q2: string) returns (transcript: seq<ChatMessage>)
    requires !IsBlank(q1) && !IsBlank(q2)
    ensures |transcript| == 5
    ensures transcript[0] == Welcome(isPortuguese)
    ensures transcript[1] == ChatMessage("u1", User, q1) && transcript[3] == ChatMessage("u2", User, q2)
    ensures transcript[2].role == Assistant && transcript[4].role == Assistant
    ensures transcript[2].content == ReplyText(isPortuguese) == transcript[4].content
  {
    var chat := new ChatSession(isPortuguese);
    Exchange(chat, q1, "u1", "a1");
    Exchange(chat, q2, "u2", "a2");
    transcript := chat.messages;
  }

  /** One question typed, sent and answered while no reply is outstanding. */
  method Exchange(chat: ChatSession, q: string, userId: string, replyId: string)
    requires chat.Valid() && chat.pending == []
    requires !IsBlank(q)
    modifies chat
    ensures chat.Valid() && chat.pending == [] && !chat.isLoading && chat.input == ""
    ensures chat.messages == old(chat.messages) + [ChatMessage(userId, User, q), ChatMessage(replyId, Assistant, ReplyText(chat.isPortuguese))]
    ensures chat.isPortuguese == old(chat.isPortuguese)
  {
    chat.SetInput(q);
    chat.SendMessage(userId);
    chat.DeliverReply(replyId);
  }

  /** A blank question never reaches the list: the send is ignored and no reply is scheduled. */
  method BlankQuestionIgnored(isPortuguese: bool, blank: string) returns (transcript: seq<ChatMessage>, replies: nat)
    requires AllWhitespace(blank)
    ensures transcript == [Welcome(isPortuguese)]
    ensures replies == 0
  {
    var chat := new ChatSession(isPortuguese);
    chat.SetInput(blank);
    BlankIffAllWhitespace(blank);
    chat.SendMessage("u1");
    transcript := chat.messages;
    replies := |chat.pending|;
  }

  /**
    A reply started before a language switch answers in the language of the question, while a
    clear in between greets in the new language and keeps the reply coming.
   */
  method ReplyKeepsSendLanguage(q: string) returns (transcript: seq<ChatMessage>)
    requires !IsBlank(q)
    ensures |transcript| == 2
    ensures transcript[0] == Welcome(false)
    ensures transcript[1] == ChatMessage("a1", Assistant, ReplyPt)
  {
    var chat := new ChatSession(true);
    chat.SetInput(q);
    chat.SendMessage("u1");
    chat.SetLanguage(false);
    chat.ClearChat();
    chat.DeliverReply("a1");
    transcript := chat.messages;
  }
}
