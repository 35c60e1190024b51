# Portfolio content store, contact links, chat endpoint and widgets — a Dafny model

This project models the logic of a bilingual (Portuguese/English) portfolio site:

- the project store and its query helpers (`src/lib/data.ts`):
  - the shipped list of four case studies;
  - the in-place sort by position;
  - lookup by id and by slug;
  - the status filter;
  - technology de-duplication by name, where the first occurrence wins, and the category filter over its result;
- the professional profile's contact record and `getContactLinks` (`src/lib/profile.ts`);
- the chat endpoint `POST` (`app/api/chat/route.ts`):
  - credential check, body validation and last-message selection;
  - language selection;
  - the retrieval-context template;
  - the mapping of outcomes to HTTP responses;
- the expand/collapse state, section keys and status badge of the project cards (`src/components/Blueprint.tsx`);
- the chat widget's state machine (`src/components/RAGChatbot.tsx`): send, delayed reply, clear, and the submit guards.

## Files

| file | module | what it holds |
|---|---|---|
| `seqs.dfy` | `Seqs` | `Option`, and `find`, `findIndex` and `filter` over sequences, with their laws |
| `text.dfy` | `Text` | the shared white-space set of `\s` and `trim()`, plus `trim`, `replace(/\s/g, '')`, `join` and substring containment |
| `data.dfy` | `Data` | the store, its invariants, the sort (array, in place), the lookups and filters, and technology de-duplication (nested loops) |
| `profile.dfy` | `Profile` | the profile record and contact links |
| `chat_route.dfy` | `ChatRoute` | the context template, `JSON.stringify` of the contact, and `POST` as a decision function |
| `blueprint.dfy` | `Blueprint` | the `expanded` map (a class with a toggle method), section keys, and the status label and colour lookups |
| `rag_chatbot.dfy` | `RagChatbot` | the chat session class and scenarios built from its steps |

How the source's pieces are modelled:

- **Shared array.** `getAllProjects` sorts the module's `projects` array in place, so it is a method over an `array<Project>`.
- **Technology map.** The `Map` filled by `getAllTechnologies` is kept as its key set plus its values in insertion order. The method is proved equal to the specification function `FirstByName`, and the lemmas are stated about that function.
- **Status and category arguments** are strings, as they are at run time. An unknown value can therefore be expressed: it selects nothing in the filters, and it falls back to the maintenance colours in the badge.
- **Chat endpoint inputs.** The endpoint's outside world is passed in as arguments:
  - the credential is an `Option<string>`;
  - the parsed body is a datatype;
  - the generative model is a function from the two prompt parts to text or failure.
- **Chat timers.** The reply timers of the widget are a queue of the language each timer captured, and each timer firing is a step of its own.

## Model

| member | source | states |
|---|---|---|
| Seqs.Find | src/lib/data.ts:272-274 | `find` returns nothing exactly when no element passes; otherwise it returns an element that passes and has no passing element before it |
| Seqs.FilterContents | src/lib/data.ts:286-288 | `filter` keeps exactly the passing elements, each with its original multiplicity |
| Seqs.FilterAppend | src/lib/data.ts:286-288 | filtering a concatenation concatenates the filtered parts, so store order is kept |
| Seqs.FilterKeepsAll | src/lib/data.ts:310-313 | a list whose every element passes is its own filter |
| Seqs.FilterIdempotent | src/lib/data.ts:310-313 | filtering twice with the same test equals filtering once |
| Text.RemoveWhitespace | src/lib/profile.ts:114 | the result of `replace(/\s/g, '')` has no white-space character |
| Text.RemoveWhitespaceKeeps | src/lib/profile.ts:114 | a character occurs in the stripped string iff it occurs in the input and is not white space |
| Text.RemoveWhitespaceAppend | src/lib/profile.ts:114 | stripping works piece by piece: non-white-space characters keep their order |
| Text.RemoveWhitespaceSkips | src/lib/profile.ts:114 | white space between two pieces disappears as if the pieces were adjacent |
| Text.RemoveWhitespaceOfBlank | src/lib/profile.ts:114 | an all-white-space string strips to the empty string |
| Text.RemoveWhitespaceKeepsClean | src/lib/profile.ts:114 | a string without white space is unchanged, `+` and `-` included |
| Text.RemoveWhitespaceIdempotent | src/lib/profile.ts:114 | stripping twice equals stripping once |
| Text.RemoveWhitespaceChar | src/lib/profile.ts:114 | one character is removed iff it is white space |
| Text.Trim | src/components/RAGChatbot.tsx:49 | `s.trim()`: `trimEnd` applied after `trimStart`, each dropping its run of white space |
| Text.TrimStartShape | src/components/RAGChatbot.tsx:49 | the start trim keeps a suffix of the input that does not start with white space, and everything it drops is white space |
| Text.TrimEndShape | src/components/RAGChatbot.tsx:49 | the end trim keeps a prefix of the input that does not end with white space, and everything it drops is white space |
| Text.TrimShape | src/components/RAGChatbot.tsx:49 | `trim()` keeps a contiguous middle of the input, neither starting nor ending with white space, with only white space on either side of it |
| Text.IsBlank | src/components/RAGChatbot.tsx:49 | `!s.trim()`: the trimmed string is empty (characterised by `Text.BlankIffAllWhitespace`) |
| Text.BlankIffAllWhitespace | src/components/RAGChatbot.tsx:49 | `!input.trim()` holds exactly when the input is empty or all white space |
| Text.TrimStartEmpty | src/components/RAGChatbot.tsx:49 | trimming the start leaves nothing iff every character is white space |
| Text.JoinAppend | app/api/chat/route.ts:59 | joining two non-empty runs puts exactly one separator between them |
| Text.JoinContainsPart | app/api/chat/route.ts:49-59 | every part occurs in the joined string |
| Text.Join | app/api/chat/route.ts:58-59 | `join(sep)`: the parts in order with `sep` between neighbours, and the empty string for no parts |
| Data.StatusFromName | src/lib/data.ts:63 | a string reads back as a status exactly when it is one of the four stored values |
| Data.StatusNameRoundTrip | src/lib/data.ts:63 | every status's stored value reads back as that status |
| Data.ShippedIdsAndSlugs | src/lib/data.ts:82-260 | in the shipped store, ids are unique, slugs are unique, and every id equals its slug |
| Data.ShippedPositions | src/lib/data.ts:82-260 | in the shipped store, every project has a position, all positions are positive, and no two are equal |
| Data.ShippedTechnologiesNotRepeated | src/lib/data.ts:82-260 | no shipped project lists a technology name twice |
| Data.DistinctNamesSplit | src/lib/data.ts:82-260 | a technology list has distinct names when both sides of a cut do and no name repeats across the cut |
| Data.GetAllProjects | src/lib/data.ts:265-267 | sorts the given array in place and returns that same array; the result is ordered by `position` (missing reads as 0) and is a permutation; an already ordered array is left unchanged |
| Data.InsertLast | src/lib/data.ts:266 | one insertion step extends the ordered prefix by one element: the first `i + 1` entries are a permutation of the old first `i + 1`, every entry past `i` is untouched, and an already ordered prefix is left as it was |
| Data.PositionKey | src/lib/data.ts:266 | the comparator's key `position \|\| 0`: the position when present, 0 when missing |
| Data.SiftLeft | src/lib/data.ts:266 | the step's loop moves the new entry left past larger keys only: the prefix becomes ordered, the array stays a permutation, entries past `i` are untouched |
| Data.SiftStep | src/lib/data.ts:266 | swapping the travelling entry with a larger left neighbour keeps the loop's ordering invariant, one place further left |
| Data.SiftDone | src/lib/data.ts:266 | once the travelling entry meets a smaller-or-equal neighbour (or the front), the prefix is ordered |
| Data.PrefixPermutation | src/lib/data.ts:266 | a permutation that leaves every entry from `n` on in place permutes the first `n` entries among themselves |
| Data.Swap | src/lib/data.ts:266 | exchanges two entries and nothing else: the new contents are the old ones with the two positions updated, and the multiset is kept |
| Data.ShippedSorted | src/lib/data.ts:82-260 | the shipped store is already in position order |
| Data.SortShipped | src/lib/data.ts:266 | sorting the shipped store returns it in its declared order |
| Data.ProjectById | src/lib/data.ts:272-274 | nothing iff no project has exactly that id; otherwise the first project with that id |
| Data.ProjectBySlug | src/lib/data.ts:279-281 | nothing iff no project has exactly that slug; otherwise the first project with that slug |
| Data.LookupsAgree | src/lib/data.ts:272-281 | in a store where every id equals its slug, looking a key up as an id or as a slug gives the same answer |
| Data.ShippedLookupsAgree | src/lib/data.ts:272-281 | for every key, the shipped store answers the same by id and by slug |
| Data.ProjectsByStatus | src/lib/data.ts:286-288 | a project is in the result iff it is in the store with that status, with its store multiplicity |
| Data.ProjectsByStatusKeepsOrder | src/lib/data.ts:286-288 | the result keeps store order |
| Data.UnknownStatusSelectsNothing | src/lib/data.ts:286-288 | a string that names no status selects nothing |
| Data.StatusFiltersPartition | src/lib/data.ts:286-288 | the four status filters together hold exactly as many projects as the store |
| Data.NamesAppend | src/lib/data.ts:293-305 | the names of a concatenation are the names of its parts |
| Data.FirstByName | src/lib/data.ts:293-305 | the reference de-duplication: walking the entries in order, keep a technology when its name is not yet a key and make its name a key; the walk the method is proved equal to |
| Data.FirstByNameDistinct | src/lib/data.ts:293-305 | the de-duplicated list has pairwise-distinct names, and every kept entry comes from the input with a name not yet seen |
| Data.FirstByNameCovers | src/lib/data.ts:293-305 | every name of the input that was not seen before is kept, and no other name |
| Data.FirstByNameFirstWins | src/lib/data.ts:298-300 | every kept entry is the first entry of the input with that name |
| Data.FirstByNameAppend | src/lib/data.ts:304 | entries come out in order of first appearance: the first part's new names, then the second part's remaining ones |
| Data.RecordNew | src/lib/data.ts:296-302 | the inner `forEach` records exactly the technologies whose names are new, so the recorded values followed by the de-duplication of the remaining entries is unchanged; the key set stays the names of the recorded values |
| Data.AllTechnologyEntriesHas | src/lib/data.ts:296-298 | every technology of every project is among the entries the walk visits |
| Data.GetAllTechnologies | src/lib/data.ts:293-305 | the nested-loop walk returns the first-occurrence de-duplication of all projects' technologies, with distinct names; every technology of every project has its name among the result's names |
| Data.FilterKeepsNamesDistinct | src/lib/data.ts:310-313 | keeping a subset in order keeps names distinct |
| Data.TechnologiesByCategory | src/lib/data.ts:310-313 | the category filter of the de-duplicated list: an entry is kept iff it is in that list with that category, and names stay distinct |
| Profile.GetContactLinks | src/lib/profile.ts:109-116 | linkedin and github are unchanged; e-mail is `mailto:` followed by the stored e-mail; phone is `tel:` followed by the stored phone with white space removed |
| Profile.PhoneLinkClean | src/lib/profile.ts:114 | the phone link has no white space, and after `tel:` it holds exactly the stored phone's non-white-space characters |
| Profile.PhoneLinkIgnoresSpacing | src/lib/profile.ts:114 | phones that differ only by inserted white space give the same link |
| Profile.StripGroupedPhone | src/lib/profile.ts:114 | three space-separated groups strip to the groups run together |
| Profile.ShippedPhoneIsBrazilian | src/lib/profile.ts:82 | the shipped phone starts with `+55` |
| Profile.ShippedPhoneStripped | src/lib/profile.ts:82 | the shipped phone strips to `+552198964-8889` |
| Profile.ShippedContactLinks | src/lib/profile.ts:109-116 | the shipped contact gives exactly the four expected link strings |
| Profile.ShippedPhoneLinkShape | src/lib/profile.ts:114 | the shipped phone link starts `tel:+55`, continues with a digit, and has no white space |
| ChatRoute.ContactJson | app/api/chat/route.ts:46 | `JSON.stringify(contact)`: an object with `phone`, `email`, `linkedin` and `github` in declaration order, each value a JSON string, with no white space |
| ChatRoute.JsonString | app/api/chat/route.ts:46 | a string value in quotes, its characters escaped one by one |
| ChatRoute.Escape | app/api/chat/route.ts:46 | every character of the value written as `EscapeChar` writes it, in order |
| ChatRoute.EscapeChar | app/api/chat/route.ts:46 | `JSON.stringify` writes a character other than a quote, a backslash or a control character as itself, and every other character as an escape starting with a backslash |
| ChatRoute.EscapePlain | app/api/chat/route.ts:46 | text with no quote, backslash or control character is written unescaped |
| ChatRoute.EscapeNeverShrinks | app/api/chat/route.ts:46 | escaped text is never shorter than the input |
| ChatRoute.TechnologyNames | app/api/chat/route.ts:58 | `technologies.map(t => t.name)`: one name per technology, in order |
| ChatRoute.BlockHoldsFields | app/api/chat/route.ts:49-59 | a project's block holds its id, its title in the selected language, its raw status value, and its technology names joined by `, ` |
| ChatRoute.ProjectBlock | app/api/chat/route.ts:49-59 | one project's template: ID, name, description, status, challenge, solution, decisions, metrics and technologies lines, with the template's exact indentation |
| ChatRoute.ProjectBlocks | app/api/chat/route.ts:49-59 | one block per project, in store order |
| ChatRoute.ProjectsSection | app/api/chat/route.ts:49-59 | the project blocks in store order joined by `\n---\n` |
| ChatRoute.BuildContext | app/api/chat/route.ts:34-67 | the `context` template: introduction, current language, profile (name, title, summary, location, contact JSON), project section and instructions, in that order |
| ChatRoute.ContextHoldsSections | app/api/chat/route.ts:34-67 | the context names the selected language, carries the contact as JSON, and holds the project section |
| ChatRoute.ContextHoldsProject | app/api/chat/route.ts:49-59 | the context holds every project's block, status line and technology line |
| ChatRoute.ProjectsSectionAppend | app/api/chat/route.ts:59 | blocks follow store order, separated by exactly one `\n---\n` |
| ChatRoute.ProjectsSectionSingle | app/api/chat/route.ts:59 | a single project contributes its block with no separator |
| ChatRoute.Question | app/api/chat/route.ts:75 | the second prompt part `User Question: ${userQuery}`, where a missing content is written `undefined` |
| ChatRoute.Post | app/api/chat/route.ts:9-90 | the decision table: 500 "Gemini API Key not configured" iff the key is missing or empty; 400 "Invalid request body" iff the key is set, the body parses to a non-null value, and its `messages` is absent, falsy or not an array; 200 iff the key is set, the last message is not nullish and the model answers, and then the body is `{role: 'assistant', content}` with the model's text unchanged; every other case is 500 "Failed to process request" |
| ChatRoute.KeyCheckedFirst | app/api/chat/route.ts:12-17 | without a key the answer is the same 500 whatever the body and the model |
| ChatRoute.EmptyMessagesFail | app/api/chat/route.ts:30-31 | an empty message array gives 500 "Failed to process request", not 400 |
| ChatRoute.OnlyLastMessageMatters | app/api/chat/route.ts:30-31 | histories that end in the same message get the same response |
| ChatRoute.AbsentLanguageIsPortuguese | app/api/chat/route.ts:20 | an absent language behaves exactly like `pt` |
| ChatRoute.OtherLanguagesAreEnglish | app/api/chat/route.ts:38-57 | any language value other than the string `pt` behaves exactly like `en` |
| Blueprint.Toggle | src/components/Blueprint.tsx:35-40 | the toggled key flips, with an absent key read as closed; every other entry is copied unchanged; the key is added |
| Blueprint.ToggleLeavesOthers | src/components/Blueprint.tsx:36-39 | toggling one key never opens or closes another |
| Blueprint.ToggleTwice | src/components/Blueprint.tsx:35-40 | toggling the same key twice shows the same sections as before |
| Blueprint.TogglesCommute | src/components/Blueprint.tsx:35-40 | toggles of two different keys commute |
| Blueprint.ToggleParity | src/components/Blueprint.tsx:35-40 | after n clicks a section is open iff it was open and n is even, or it was closed and n is odd |
| Blueprint.FromClosedOddOpens | src/components/Blueprint.tsx:35-40 | from the initial empty state, a section is open iff it has been clicked an odd number of times |
| Blueprint.BlueprintView.constructor | src/components/Blueprint.tsx:18 | the state starts with no section open |
| Blueprint.BlueprintView.ToggleExpanded | src/components/Blueprint.tsx:35-40 | the new map is `Toggle` of the old one, so the clicked section's visibility flips |
| Blueprint.BlueprintView.SetLanguage | src/components/Blueprint.tsx:15-18 | a language switch keeps the expanded map |
| Blueprint.SectionKey | src/components/Blueprint.tsx:120-195 | a section key is the project id followed by `-` and the section's suffix |
| Blueprint.SuffixEndsDiffer | src/components/Blueprint.tsx:120-195 | the four section suffixes end in four different characters |
| Blueprint.SectionKeyInjective | src/components/Blueprint.tsx:120-195 | equal keys come from the same project id and the same section, whatever the ids are |
| Blueprint.ToggleSectionIsolated | src/components/Blueprint.tsx:120-208 | opening one section of one card leaves every other section of every card as it was |
| Blueprint.StatusLabel | src/components/Blueprint.tsx:25-33 | a label exists iff the string is one of the four status values, and then it is that status's label in the current language |
| Blueprint.StatusLabelLanguages | src/components/Blueprint.tsx:25-33 | `PoC` and `Staging` are the same in both languages; production and maintenance read `Produção`/`Production` and `Manutenção`/`Maintenance` |
| Blueprint.StatusTextsDistinct | src/components/Blueprint.tsx:25-33 | within one language the four labels differ |
| Blueprint.GetStatusColor | src/components/Blueprint.tsx:43-51 | a known status gets its own classes, and any other string gets the maintenance classes |
| Blueprint.StatusClassesDistinct | src/components/Blueprint.tsx:43-51 | the four statuses get four different class strings |
| RagChatbot.Welcome | src/components/RAGChatbot.tsx:19-28 | the greeting: an assistant message with id `1` whose text is the Portuguese or English welcome |
| RagChatbot.ReplyText | src/components/RAGChatbot.tsx:64-73 | the canned reply text in the captured language |
| RagChatbot.SubmitEnabled | src/components/RAGChatbot.tsx:175 | the submit button is enabled: `isLoading \|\| !input.trim()` is false |
| RagChatbot.SubmitEnabledIff | src/components/RAGChatbot.tsx:175 | submit is enabled iff not loading and the input holds a non-white-space character |
| RagChatbot.ChatSession.constructor | src/components/RAGChatbot.tsx:19-30 | the session starts with the welcome message (id `1`, assistant, current language), empty input, not loading |
| RagChatbot.ChatSession.SetInput | src/components/RAGChatbot.tsx:168 | typing changes the input only |
| RagChatbot.ChatSession.SetLanguage | src/components/RAGChatbot.tsx:17-28 | a language switch leaves messages, input and loading flag as they were |
| RagChatbot.ChatSession.SendMessage | src/components/RAGChatbot.tsx:47-62 | a blank input changes nothing; otherwise exactly one user message holding the raw input is appended, the input becomes empty, loading starts, a reply is scheduled in the current language, and the input field and submit button are disabled |
| RagChatbot.ChatSession.DeliverReply | src/components/RAGChatbot.tsx:64-75 | appends one assistant reply in the language captured at send time, and loading stops: the input field is enabled again and submit is enabled exactly when the input is not blank |
| RagChatbot.ChatSession.ClearChat | src/components/RAGChatbot.tsx:78-89 | the list becomes the single welcome message in the current language; input, loading flag and scheduled replies are untouched |
| RagChatbot.Exchange | src/components/RAGChatbot.tsx:46-75 | one question typed, sent and answered with no reply outstanding appends the question, then the reply in the current language, and leaves the widget idle with an empty input |
| RagChatbot.TwoExchanges | src/components/RAGChatbot.tsx:59-73 | send, reply, send, reply yields welcome, question 1, answer, question 2, answer |
| RagChatbot.BlankQuestionIgnored | src/components/RAGChatbot.tsx:49 | sending a white-space-only input leaves only the welcome message and schedules no reply |
| RagChatbot.ReplyKeepsSendLanguage | src/components/RAGChatbot.tsx:64-89 | a reply scheduled before a language switch and a clear still answers in the language of the question, after a greeting in the new language |

## Shipped data

The stored literals are constants rather than operations; the lemmas above about them (`Data.ShippedIdsAndSlugs`, `Profile.GetContactLinks` and their neighbours) state what they hold.

| constant | source | holds |
|---|---|---|
| `Data.ShippedProjects` | src/lib/data.ts:82-260 | the `projects` literal: the four case studies in declaration order, field by field |
| `Profile.ShippedContact` | src/lib/profile.ts:81-86 | the stored contact record: phone, e-mail, LinkedIn and GitHub URLs |
| `Profile.ShippedProfile` | src/lib/profile.ts:44-104 | the `professionalProfile` literal: name, bilingual location, title and summary, key stats, contact and certifications |

## Left out

- Rendering is not modelled: JSX, class names other than the badge colours, icons and layout. The section and field labels of the cards and the widget's titles and placeholders are display text only.
- The generative-model SDK is replaced by the function argument `model`. The request and response objects are replaced by `Body` and `Response`. `console.error` is not modelled.
- The client is built once at import time from the environment; this is not modelled. The route reads the credential afresh, and that read is the `apiKey` argument.
- Time in the chat widget is not modelled:
  - the 500 ms delay;
  - the `Date.now()` message ids, which are parameters here;
  - message timestamps;
  - scrolling.
  Timers are assumed to fire in the order they were started, because they all share one delay.
- `ChatRoute.Element`: a `content` value that is not a string (number, object, …) is not modelled, because its string conversion is JavaScript-specific. Neither is the conversion of such a value into the question.
- `ChatRoute.Body`: JSON strings, numbers, booleans and arrays are folded into a body with neither field, which is how destructuring them behaves.
- `Blueprint.StatusLabel`, `Blueprint.GetStatusColor` and `Blueprint.Toggle`: strings that name an inherited object property, such as `constructor` or `toString`, are not modelled. The source would read that property instead of `undefined`: the label and colour lookups would return it, and a first toggle of such a key would store `false` (closed) because the inherited value is truthy. Every key the cards actually toggle contains `-` (`Blueprint.SectionKey`), and no `Object.prototype` property name does, so the cards never reach this case.
- `ChatRoute.EscapeChar`: only the escapes `JSON.stringify` produces for scalar values are modelled. Lone surrogates cannot occur in a Dafny string.
- `Data.GetAllProjects`: stability of the sort is not stated as a theorem. The identity on already ordered input, which is what the shipped store needs, is stated.
- `Data.GetAllProjects` mutates the shared array the chat route and the cards read. The model passes the store explicitly. On the shipped data the sort changes nothing (`Data.SortShipped`), so both orders agree.
- The content checks on prose are not modelled: diacritics, minimum lengths, capitalisation and a year no later than the current one. They are facts about literal text or depend on the clock.
- `year` is kept in each project but nothing is stated about it.
- `Data.PositionKey` and `Data.GetAllProjects`: `position` and `year` are JavaScript numbers but are modelled as integers. Fractional, infinite and `NaN` positions are not covered, and `position || 0` is modelled only for integers (where it maps a missing position, and 0, to 0).
- The `certifications` and `keyStats` of the profile are carried as data only.
