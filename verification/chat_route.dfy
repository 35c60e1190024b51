/**
  The chat endpoint (app/api/chat/route.ts): `POST` checks the model credential, reads the
  request body, picks the last message as the question, selects the answer language, builds
  the retrieval context from the profile and the project store, asks the generative model
  and maps the outcome to an HTTP response.

  Everything outside the route is an input here: the credential read from the environment
  is `apiKey`, the parsed request body is a `Body` value, and the external model is the
  function `model`, which receives the two prompt parts and answers with text or a failure.
 */
module ChatRoute {
  import opened Seqs
  import opened Text
  import opened Data
  import opened Profile

  // ---------------------------------------------------------------------------
  // Inputs and outputs
  // ---------------------------------------------------------------------------

  /** A `language` value that is not a JSON string (number, boolean, null, array, object). */
  datatype LanguageValue = Str(s: string) | NonString

  /** What a `messages` array holds: `null` at the end makes the property read throw. */
  datatype Element =
    | Nullish
      /** An object, or any other non-nullish value; `content` is `None` when it has no such property. */
    | Entry(content: Option<string>)

  /** The `messages` field: absent (or falsy), present but not an array, or an array. */
  datatype MessagesField = Absent | NotArray | Array(elements: seq<Element>)

  /**
    The outcome of `await req.json()` and the destructuring after it. `Unparseable` is a body
    that is not JSON; `NullBody` is the JSON value `null`, whose destructuring throws. Any other
    JSON value is `Parsed`: a primitive or an array has neither field.
   */
  datatype Body =
    | Unparseable
    | NullBody
    | Parsed(messages: MessagesField, language: Option<LanguageValue>)

  /** What `generateContent` and `response.text()` deliver together: the text, or a thrown error. */
  datatype ModelReply = Text(text: string) | Failure

  datatype Payload = Error(message: string) | Assistant(role: string, content: string)

  datatype Response = Response(status: int, payload: Payload)

  const KeyMissingMessage := "Gemini API Key not configured"
  const InvalidBodyMessage := "Invalid request body"
  const FailureMessage := "Failed to process request"

  /** `!process.env.NEXT_PUBLIC_GEMINI_API_KEY` is false: the variable is set and not empty. */
  predicate KeyConfigured(apiKey: Option<string>) {
    apiKey.Some? && apiKey.value != ""
  }

  /** `language === 'pt'` after the default: an absent language counts as Portuguese. */
  predicate IsPortuguese(language: Option<LanguageValue>) {
    language.None? || language == Some(Str("pt"))
  }

  // ---------------------------------------------------------------------------
  // JSON.stringify of the contact record
  // ---------------------------------------------------------------------------

  function HexDigit(d: nat): char
    requires d < 16
  {
    "0123456789abcdef"[d]
  }

  /** How JSON.stringify writes one character inside a string literal. */
  function EscapeChar(c: char): (r: string)
    ensures c != '"' && c != '\\' && c >= ' ' ==> r == [c]
    ensures c == '"' || c == '\\' || c < ' ' ==> |r| >= 2 && r[0] == '\\'
    ensures |r| > 1 ==> r[0] == '\\'
  {
    if c == '"' then "\\\""
    else if c == '\\' then "\\\\"
    else if c == '\U{0008}' then "\\b"
    else if c == '\t' then "\\t"
    else if c == '\n' then "\\n"
    else if c == '\U{000C}' then "\\f"
    else if c == '\r' then "\\r"
    else if c < ' ' then "\\u00" + [HexDigit(c as nat / 16), HexDigit(c as nat % 16)]
    else [c]
  }

  function Escape(s: string): string {
    if s == [] then "" else EscapeChar(s[0]) + Escape(s[1..])
  }

  /** A string JSON.stringify writes without any escape: no quote, backslash or control character. */
  predicate PlainJsonText(s: string) {
    forall i :: 0 <= i < |s| ==> s[i] != '"' && s[i] != '\\' && s[i] >= ' '
  }

  /** Plain text is written as it is. */
  lemma {:induction false} EscapePlain(s: string)
    requires PlainJsonText(s)
    ensures Escape(s) == s
  {
    if s != [] {
      EscapePlain(s[1..]);
    }
  }

  /** Escaping never shortens the text: each input character is written as at least one character. */
  lemma {:induction false} EscapeNeverShrinks(s: string)
    ensures |Escape(s)| >= |s|
  {
    if s != [] {
      EscapeNeverShrinks(s[1..]);
    }
  }

  function JsonString(s: string): string {
    "\"" + Escape(s) + "\""
  }

  /** `JSON.stringify(contact)`: the four fields in the order the record declares them. */
  function ContactJson(c: ContactInfo): string {
    "{\"phone\":" + JsonString(c.phone) + ",\"email\":" + JsonString(c.email)
    + ",\"linkedin\":" + JsonString(c.linkedin) + ",\"github\":" + JsonString(c.github) + "}"
  }

  // ---------------------------------------------------------------------------
  // The context string
  // ---------------------------------------------------------------------------

  /** The half of a bilingual pair the selected language shows. */
  function Pick(isPt: bool, t: BilingualText): string {
    if isPt then t.pt else t.en
  }

  function LanguageName(isPt: bool): string {
    if isPt then "Portuguese (Português do Brasil)" else "English"
  }

  /** `technologies.map(t => t.name)`. */
  function TechnologyNames(ts: seq<Technology>): (r: seq<string>)
    ensures |r| == |ts|
    ensures forall i :: 0 <= i < |ts| ==> r[i] == ts[i].name
  {
    if ts == [] then [] else [ts[0].name] + TechnologyNames(ts[1..])
  }

  /**
    The template one project contributes, as the pieces it is made of: the literal text between
    the interpolations, each line with the value interpolated into it.
   */
  function BlockPieces(isPt: bool, p: Project): seq<string> {
    [ "\n        ", "ID: " + p.id,
      "\n        ", "Name: " + Pick(isPt, p.title),
      "\n        ", "Description: " + Pick(isPt, p.description),
      "\n        ", "Status: " + StatusName(p.status),
      "\n        ", "Challenge: " + Pick(isPt, p.challenge),
      "\n        ", "Solution/Blueprint: " + Pick(isPt, p.blueprint),
      "\n        ", "Decisions: " + Pick(isPt, p.decisions),
      "\n        ", "Metrics/Results: " + Pick(isPt, p.metrics),
      "\n        ", "Technologies: " + Join(TechnologyNames(p.technologies), ", "),
      "\n      " ]
  }

  function ProjectBlock(isPt: bool, p: Project): string {
    Join(BlockPieces(isPt, p), "")
  }

  /** A block names the project, in the selected language, with its raw status value and its technology names. */
  lemma BlockHoldsFields(isPt: bool, p: Project)
    ensures Contains(ProjectBlock(isPt, p), "ID: " + p.id)
    ensures Contains(ProjectBlock(isPt, p), "Name: " + Pick(isPt, p.title))
    ensures Contains(ProjectBlock(isPt, p), "Status: " + StatusName(p.status))
    ensures Contains(ProjectBlock(isPt, p), "Technologies: " + Join(TechnologyNames(p.technologies), ", "))
  {
    var pieces := BlockPieces(isPt, p);
    JoinContainsPart(pieces, "", 1);
    JoinContainsPart(pieces, "", 3);
    JoinContainsPart(pieces, "", 7);
    JoinContainsPart(pieces, "", 17);
  }

  function ProjectBlocks(isPt: bool, store: seq<Project>): (r: seq<string>)
    ensures |r| == |store|
    ensures forall i :: 0 <= i < |store| ==> r[i] == ProjectBlock(isPt, store[i])
  {
    if store == [] then [] else [ProjectBlock(isPt, store[0])] + ProjectBlocks(isPt, store[1..])
  }

  const BlockSeparator := "\n---\n"

  /** `projects.map(p => ...).join('\n---\n')`. */
  function ProjectsSection(isPt: bool, store: seq<Project>): string {
    Join(ProjectBlocks(isPt, store), BlockSeparator)
  }

  /** The literal text of the context template, between its interpolations. */
  const IntroText :=
    "\n      You are an AI assistant for Carlos Souza's portfolio website."
    + "\n      Your goal is to answer questions about Carlos's professional experience, projects, and technical expertise."
    + "\n      "
    + "\n      "
  const ProfileHeading :=
    "\n      Please answer in this language."
    + "\n"
    + "\n      PROFESSIONAL PROFILE:"
  const ProjectsHeading :=
    "\n"
    + "\n      PROJECTS (Case Studies):"
    + "\n      "
  const InstructionsText :=
    "\n"
    + "\n      INSTRUCTIONS:"
    + "\n      1. Answer based ONLY on the provided context."
    + "\n      2. If the user asks about something not in the context, politely say you don't have that information but can talk about the projects listed."
    + "\n      3. Be professional, concise, and helpful."
    + "\n      4. Act as if you are an extension of Carlos's professional persona."
    + "\n      5. Do not make up facts."
    + "\n    "

  /** The context template as its pieces, with the project blocks in the middle. */
  function ContextPieces(isPt: bool, profile: ProfessionalProfile, store: seq<Project>): seq<string> {
    [ IntroText,
      "CURRENT LANGUAGE: " + LanguageName(isPt),
      ProfileHeading,
      "\n      Name: " + profile.name,
      "\n      Title: " + Pick(isPt, profile.title),
      "\n      Summary: " + Pick(isPt, profile.summary),
      "\n      Location: " + Pick(isPt, profile.location),
      "\n      ",
      "Contact: " + ContactJson(profile.contact),
      ProjectsHeading,
      ProjectsSection(isPt, store),
      InstructionsText ]
  }

  /** The retrieval context the route sends before the question. */
  function BuildContext(isPt: bool, profile: ProfessionalProfile, store: seq<Project>): string {
    Join(ContextPieces(isPt, profile, store), "")
  }

  /** The context names the selected language, carries the contact record as JSON, and holds the project blocks. */
  lemma ContextHoldsSections(isPt: bool, profile: ProfessionalProfile, store: seq<Project>)
    ensures Contains(BuildContext(isPt, profile, store), "CURRENT LANGUAGE: " + LanguageName(isPt))
    ensures Contains(BuildContext(isPt, profile, store), "Contact: " + ContactJson(profile.contact))
    ensures Contains(BuildContext(isPt, profile, store), ProjectsSection(isPt, store))
  {
    var pieces := ContextPieces(isPt, profile, store);
    JoinContainsPart(pieces, "", 1);
    JoinContainsPart(pieces, "", 8);
    JoinContainsPart(pieces, "", 10);
  }

  /** The second prompt part: `User Question: ${userQuery}`, where a missing content reads `undefined`. */
  function Question(content: Option<string>): string {
    "User Question: " + (if content.Some? then content.value else "undefined")
  }

  // ---------------------------------------------------------------------------
  // POST
  // ---------------------------------------------------------------------------

  /** The body gets as far as the model call: an array of messages whose last element is not nullish. */
  predicate Answerable(body: Body) {
    && body.Parsed?
    && body.messages.Array?
    && |body.messages.elements| > 0
    && body.messages.elements[|body.messages.elements| - 1].Entry?
  }

  /** The question an answerable body asks. */
  function QuestionOf(body: Body): string
    requires Answerable(body)
  {
    Question(body.messages.elements[|body.messages.elements| - 1].content)
  }

  /** The context an answerable body asks about, in the language it selects. */
  function ContextOf(body: Body, profile: ProfessionalProfile, store: seq<Project>): string
    requires body.Parsed?
  {
    BuildContext(IsPortuguese(body.language), profile, store)
  }

  /**
    `POST`: the credential check comes first, then the body. A body that cannot be read, an
    empty message array, a nullish last message and a model failure all land in the catch.
    Only the last message is asked about, and the model's text is returned as it is.
   */
  function Post(
    apiKey: Option<string>, body: Body, model: (string, string) -> ModelReply,
    profile: ProfessionalProfile, store: seq<Project>): (r: Response)
    ensures r.status == 200 || r.status == 400 || r.status == 500
    ensures !KeyConfigured(apiKey) <==> r == Response(500, Error(KeyMissingMessage))
    ensures r.status == 400 <==> KeyConfigured(apiKey) && body.Parsed? && !body.messages.Array?
    ensures r.status == 400 ==> r.payload == Error(InvalidBodyMessage)
    ensures r.status == 200 <==>
      KeyConfigured(apiKey) && Answerable(body)
      && model(ContextOf(body, profile, store), QuestionOf(body)).Text?
    ensures r.status == 200 ==>
      r.payload == Assistant("assistant", model(ContextOf(body, profile, store), QuestionOf(body)).text)
    ensures r == Response(500, Error(FailureMessage)) <==>
      KeyConfigured(apiKey) && r.status != 200 && r.status != 400
  {
    if !KeyConfigured(apiKey) then Response(500, Error(KeyMissingMessage))
    else if !body.Parsed? then Response(500, Error(FailureMessage))
    else if !body.messages.Array? then Response(400, Error(InvalidBodyMessage))
    else if !Answerable(body) then Response(500, Error(FailureMessage))
    else
      match model(ContextOf(body, profile, store), QuestionOf(body))
      case Text(text) => Response(200, Assistant("assistant", text))
      case Failure => Response(500, Error(FailureMessage))
  }

  // ---------------------------------------------------------------------------
  // Properties of POST
  // ---------------------------------------------------------------------------

  /** Without a credential, neither the body nor the model is looked at. */
  lemma KeyCheckedFirst(
    apiKey: Option<string>, b1: Body, b2: Body,
    m1: (string, string) -> ModelReply, m2: (string, string) -> ModelReply,
    profile: ProfessionalProfile, store: seq<Project>)
    requires !KeyConfigured(apiKey)
    ensures Post(apiKey, b1, m1, profile, store) == Post(apiKey, b2, m2, profile, store)
    ensures Post(apiKey, b1, m1, profile, store).status == 500
  {
  }

  /** An empty message array is not a bad request: reading the last message fails, and so does the request. */
  lemma EmptyMessagesFail(
    apiKey: Option<string>, language: Option<LanguageValue>, model: (string, string) -> ModelReply,
    profile: ProfessionalProfile, store: seq<Project>)
    requires KeyConfigured(apiKey)
    ensures Post(apiKey, Parsed(Array([]), language), model, profile, store) == Response(500, Error(FailureMessage))
  {
  }

  /** Earlier messages never reach the model: two histories with the same last message get the same answer. */
  lemma OnlyLastMessageMatters(
    apiKey: Option<string>, earlier1: seq<Element>, earlier2: seq<Element>, last: Element,
    language: Option<LanguageValue>, model: (string, string) -> ModelReply,
    profile: ProfessionalProfile, store: seq<Project>)
    ensures Post(apiKey, Parsed(Array(earlier1 + [last]), language), model, profile, store)
         == Post(apiKey, Parsed(Array(earlier2 + [last]), language), model, profile, store)
  {
    var e1, e2 := earlier1 + [last], earlier2 + [last];
    assert e1[|e1| - 1] == last && e2[|e2| - 1] == last;
  }

  /** The default applies only to an absent language, and then it is Portuguese. */
  lemma AbsentLanguageIsPortuguese(
    apiKey: Option<string>, messages: MessagesField, model: (string, string) -> ModelReply,
    profile: ProfessionalProfile, store: seq<Project>)
    ensures Post(apiKey, Parsed(messages, None), model, profile, store)
         == Post(apiKey, Parsed(messages, Some(Str("pt"))), model, profile, store)
  {
  }

  /** Every language value other than the exact string `pt`, not only `en`, selects English. */
  lemma OtherLanguagesAreEnglish(
    apiKey: Option<string>, messages: MessagesField, language: LanguageValue,
    model: (string, string) -> ModelReply, profile: ProfessionalProfile, store: seq<Project>)
    requires language != Str("pt")
    ensures Post(apiKey, Parsed(messages, Some(language)), model, profile, store)
         == Post(apiKey, Parsed(messages, Some(Str("en"))), model, profile, store)
    ensures !IsPortuguese(Some(language))
  {
  }

  /** The context the model sees holds every project's block, with its raw status value and its technology names. */
  lemma ContextHoldsProject(isPt: bool, profile: ProfessionalProfile, store: seq<Project>, k: nat)
    requires k < |store|
    ensures Contains(BuildContext(isPt, profile, store), ProjectBlock(isPt, store[k]))
    ensures Contains(BuildContext(isPt, profile, store), "Status: " + StatusName(store[k].status))
    ensures Contains(BuildContext(isPt, profile, store),
                     "Technologies: " + Join(TechnologyNames(store[k].technologies), ", "))
  {
    var ctx := BuildContext(isPt, profile, store);
    var blocks := ProjectBlocks(isPt, store);
    ContextHoldsSections(isPt, profile, store);
    JoinContainsPart(blocks, BlockSeparator, k);
    ContainsTransitive(ctx, ProjectsSection(isPt, store), blocks[k]);
    var block := ProjectBlock(isPt, store[k]);
    BlockHoldsFields(isPt, store[k]);
    ContainsTransitive(ctx, block, "Status: " + StatusName(store[k].status));
    ContainsTransitive(ctx, block, "Technologies: " + Join(TechnologyNames(store[k].technologies), ", "));
  }

  /** Blocks follow store order, and neighbouring blocks are separated by exactly one `\n---\n`. */
  lemma {:induction false} ProjectsSectionAppend(isPt: bool, a: seq<Project>, b: seq<Project>)
    requires a != [] && b != []
    ensures ProjectsSection(isPt, a + b) == ProjectsSection(isPt, a) + BlockSeparator + ProjectsSection(isPt, b)
  {
    assert ProjectBlocks(isPt, a + b) == ProjectBlocks(isPt, a) + ProjectBlocks(isPt, b);
    JoinAppend(ProjectBlocks(isPt, a), ProjectBlocks(isPt, b), BlockSeparator);
  }

  /** A store of one project contributes exactly that project's block, with no separator. */
  lemma ProjectsSectionSingle(isPt: bool, p: Project)
    ensures ProjectsSection(isPt, [p]) == ProjectBlock(isPt, p)
  {
  }
}
