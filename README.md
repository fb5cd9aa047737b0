# speak134 core, modelled in Dafny

speak134 ("MisSpoke") is a browser app for language practice. This project models its core:

- **The browser-side store** (`SessionStore`). It holds the IndexedDB object stores for sessions, the user profile, users and curriculum progress, the `by-date` index of sessions, and the logged-in user kept in localStorage.
- **Password hashing** (`Security`). The salt and the derived key are written as `salt:hash` in lower-case hex, and a password is checked against such a record.
- **The end of a voice session** (`VoiceMemory`). It builds the transcript, stores the session record, and updates the profile by the day-streak rule.
- **The two AI clients** (`OpenRouter`, `Gemini`, with `JsonSpan` for the `/\{[\s\S]*\}/` match they share). The OpenRouter client walks a fixed list of five models until one answers with content.
- **The four API routes** `prompt`, `translate-ui`, `chat` and `translate`.
- **The interface-translation hook** (`Translation`).
- **The curriculum table** (`Curricula`).
- **The parts of the learning page and the languages page that compute something.** On the learning page (`LearnPage`): the curriculum lookup, the progress percentage, the chat list and its input. On the languages page (`LanguagesPage`): the difficulty filter, the ISO code and the level colour.

The model keeps the source's structure:

- **Pure code becomes functions and lemmas.** This covers the routes, the clients, hashing, the tables and the page computations.
- **Each stateful part becomes a class whose methods state the whole new state.** These are the store, the voice-memory hook, the translation hook and the learning page's chat.
- **The OpenRouter model loops are `for` loops.** They are proved equal to a recursive reference definition, `OpenRouter.Fallback`, and the properties of the fallback are proved about that definition.

Everything outside the program's own code becomes a parameter of the model:

- the network;
- the Gemini SDK;
- `JSON.parse`;
- the PBKDF2 key derivation;
- the random salt;
- the clock and its calendar conversion;
- uuid generation;
- the voice agent.

A call that can throw answers `None`.

## Model

| member | source | states |
|---|---|---|
| Common.Field | src/lib/gemini/client.ts:34-35 | reading a property of a parsed object finds it exactly when some entry has that key, and then yields that entry's value |
| Common.TrimStart | src/app/learn/page.tsx:185 | the result is a suffix of the input, all removed characters are JavaScript white space, and the result does not start with one |
| Common.TrimEnd | src/app/learn/page.tsx:185 | the result is a prefix of the input, all removed characters are white space, and the result does not end with one |
| Common.Trim | src/app/learn/page.tsx:185 | `trim()` yields a contiguous slice of the input that neither starts nor ends with white space, and everything cut off before and after it is white space |
| Common.TrimSlice | src/app/learn/page.tsx:185 | cutting leading white space and then trailing white space leaves a slice of the input with white space on both sides of it |
| Common.RemoveAll | src/app/api/translate-ui/route.ts:47 | a global replace of a literal never lengthens the text |
| Common.RemoveEither | src/app/api/prompt/route.ts:55 | the replace of `/```json\n\|\n```/g` never lengthens the text |
| Common.AbsentFromTail | src/app/api/prompt/route.ts:55 | a pattern absent from a text is absent from its tail |
| Common.RemoveAllAbsent | src/app/api/translate-ui/route.ts:47 | the replace removes occurrences and nothing else: text in which the pattern never occurs comes back unchanged |
| Common.RemoveEitherAbsent | src/app/api/prompt/route.ts:55 | text in which neither fence occurs comes back unchanged |
| Common.IndexOf | src/lib/gemini/client.ts:34 | the position found holds the character, and no earlier one does |
| Common.Split | src/lib/utils/security.ts:54 | `split(':')` yields at least one field, no field holds the separator, and a text without a separator is its own single field |
| Common.SplitCons | src/lib/utils/security.ts:54 | splitting `a:t` gives `a` followed by the fields of `t` when `a` has no separator |
| Common.SplitJoin | src/hooks/useVoiceMemory.ts:31-33 | splitting a join of separator-free parts gives back the parts |
| Common.JoinAppend | src/hooks/useVoiceMemory.ts:31-33 | joining two non-empty lists is the two joins around one separator |
| Common.ToUpper | src/app/languages/page.tsx:168 | `toUpperCase()` keeps the length and maps each character |
| Common.ToLower | src/app/learn/page.tsx:31 | `toLowerCase()` keeps the length and maps each character |
| Security.DigitChar | src/lib/utils/security.ts:42 | a digit below 16 renders as a lower-case hex character |
| Security.ByteToHex | src/lib/utils/security.ts:42 | `toString(16).padStart(2,'0')` gives exactly two hex digits, high nibble first |
| Security.HexEncode | src/lib/utils/security.ts:41-48 | the hex text is twice as long as the bytes and uses only lower-case hex digits |
| Security.Chunks | src/lib/utils/security.ts:59 | `match(/.{1,2}/g)` cuts the text into pieces of one or two characters |
| Security.HexPrefix | src/lib/utils/security.ts:59 | `parseInt(_, 16)` reads the longest prefix of hex digits: all of the input, or up to the first character that is not one |
| Security.DecodePieces | src/lib/utils/security.ts:59 | one byte per piece, by `parseInt` and the wrap-around of `Uint8Array` |
| Security.HashPassword | src/lib/utils/security.ts:6-51 | the record is 32 hex digits of the 16-byte salt, a ':', and 64 hex digits of the derived 32-byte key |
| Security.ParseByteHex | src/lib/utils/security.ts:59 | two hex digits from `ByteToHex` parse back to their byte |
| Security.DecodeByteHex | src/lib/utils/security.ts:59 | a byte survives encoding, parsing and the `Uint8Array` conversion |
| Security.ChunksOfEncoding | src/lib/utils/security.ts:42-59 | cutting an encoding into pairs gives one piece per byte |
| Security.DecodePiecesOfBytes | src/lib/utils/security.ts:59 | decoding those pieces gives back the bytes |
| Security.HexRoundTrip | src/lib/utils/security.ts:46-59 | decoding the hex of any bytes gives back the bytes |
| Security.HashThenVerify | src/lib/utils/security.ts:53-91 | a password verifies against the record its own hashing produced |
| Security.NoSeparatorFails | src/lib/utils/security.ts:54-56 | a record without ':' is refused |
| Security.EmptyFieldFails | src/lib/utils/security.ts:56 | a record whose salt or hash field is empty is refused |
| Security.ExtraFieldsIgnored | src/lib/utils/security.ts:54 | fields after the second ':' do not change the verdict |
| Security.LongFields | src/lib/utils/security.ts:54 | the first two fields of `salt:hash:extra` are the salt and the hash |
| Security.ShortFields | src/lib/utils/security.ts:54 | `salt:hash` splits into exactly those two fields |
| Security.SameFirstFields | src/lib/utils/security.ts:54-90 | records with the same first two fields get the same verdict |
| SessionStore.Unindex | src/lib/memory/sessionStore.ts:116 | removing a session from the `by-date` index removes exactly its entries |
| SessionStore.Reindex | src/lib/memory/sessionStore.ts:116 | inserting an entry into the index adds exactly that entry |
| SessionStore.StrLessIrreflexive | src/lib/memory/sessionStore.ts:126 | the key order on strings is irreflexive |
| SessionStore.StrLessTransitive | src/lib/memory/sessionStore.ts:126 | the key order on strings is transitive |
| SessionStore.StrLessTotal | src/lib/memory/sessionStore.ts:126 | any two different strings are ordered |
| SessionStore.EntryOrder | src/lib/memory/sessionStore.ts:126 | the index order (start time, then id) is a strict total order |
| SessionStore.SortedCons | src/lib/memory/sessionStore.ts:126 | a head below every entry of a sorted tail gives a sorted index |
| SessionStore.UnindexSorted | src/lib/memory/sessionStore.ts:116 | removal keeps the index sorted |
| SessionStore.ReindexSorted | src/lib/memory/sessionStore.ts:116 | insertion of a new entry keeps the index sorted |
| SessionStore.PutIndexes | src/lib/memory/sessionStore.ts:114-117 | after a `put`, the index holds exactly one entry per stored session, at its start time |
| SessionStore.Listed | src/lib/memory/sessionStore.ts:126 | reading the index yields the stored sessions in index order |
| SessionStore.ListedInOrder | src/lib/memory/sessionStore.ts:124-127 | `getAllFromIndex` lists every stored session once, in ascending (startTime, id) order |
| SessionStore.LastOfLanguage | src/lib/memory/sessionStore.ts:166 | `reverse().find(...)` is none exactly when no session has the language, and otherwise the last one that has it |
| SessionStore.Store.constructor | src/lib/memory/sessionStore.ts:83-112 | a fresh database: every store empty, the index empty, nobody logged in |
| SessionStore.Store.SaveSession | src/lib/memory/sessionStore.ts:114-117 | the session replaces any record with its id, the index follows, and the other stores are unchanged |
| SessionStore.Store.GetSession | src/lib/memory/sessionStore.ts:119-122 | the stored session for the id, or none exactly when absent |
| SessionStore.Store.GetAllSessions | src/lib/memory/sessionStore.ts:124-127 | every stored session, each once, in ascending (startTime, id) order |
| SessionStore.Store.GetLatestSession | src/lib/memory/sessionStore.ts:163-167 | none exactly when no session has the language; otherwise a stored session of that language that no other session of the language follows in the index |
| SessionStore.Store.UpdateUserProfile | src/lib/memory/sessionStore.ts:129-142 | the stored default profile, or the default record at the clock, merged with the update, is put under its id; nothing else changes |
| SessionStore.Store.GetUserProfile | src/lib/memory/sessionStore.ts:144-147 | the profile under 'default', or none exactly when absent |
| SessionStore.Store.SaveCurriculumProgress | src/lib/memory/sessionStore.ts:149-156 | the record (lang, items, clock) replaces the one for the language; nothing else changes |
| SessionStore.Store.GetCurriculumProgress | src/lib/memory/sessionStore.ts:158-161 | the progress record for the language, or none exactly when absent |
| SessionStore.Store.RegisterUser | src/lib/memory/sessionStore.ts:172-176 | the user is put with the password replaced by its hash (or absent) and the creation time by the clock |
| SessionStore.Store.GetUser | src/lib/memory/sessionStore.ts:178-181 | the user under the email, or none exactly when absent |
| SessionStore.Store.UpdateUser | src/lib/memory/sessionStore.ts:183-189 | an unknown email changes nothing; a known one has the merged record put under its email key |
| SessionStore.Store.SetLoggedInUser | src/lib/memory/sessionStore.ts:191-193 | the logged-in user becomes the email; the database is unchanged |
| SessionStore.Store.GetLoggedInUser | src/lib/memory/sessionStore.ts:195-197 | the logged-in user as stored |
| SessionStore.Store.Logout | src/lib/memory/sessionStore.ts:199-201 | nobody is logged in afterwards; the database is unchanged |
| SessionStore.LoginLogout | src/lib/memory/sessionStore.ts:191-201 | after logging in the user is reported; after logging out nobody is |
| SessionStore.MergeProfileFields | src/lib/memory/sessionStore.ts:141 | each profile property is the update's when present and the current one otherwise |
| SessionStore.MergeProfileIdempotent | src/lib/memory/sessionStore.ts:141 | an empty update changes nothing, and applying an update twice is applying it once |
| SessionStore.FirstProfileUpdate | src/lib/memory/sessionStore.ts:131-141 | when no 'default' profile is stored, the stored profile is the update merged onto the defaults: each property the update's when given, else 'default', 'Beginner', zero counts, the clock, empty patterns |
| SessionStore.MergeUserFields | src/lib/memory/sessionStore.ts:187 | each user property is the update's when present and the current one otherwise |
| SessionStore.RegisteredRecord | src/lib/memory/sessionStore.ts:174-175 | the stored password is a hash that verifies for the given one; without a password none is stored; the other fields are kept |
| VoiceMemory.Lines | src/hooks/useVoiceMemory.ts:31-32 | one `TYPE: content` line per message, in order |
| VoiceMemory.TranscriptAppend | src/hooks/useVoiceMemory.ts:31-33 | the transcript of two parts is the two transcripts joined by one line break |
| VoiceMemory.TranscriptLines | src/hooks/useVoiceMemory.ts:31-33 | when no message holds a line break, splitting the transcript at line breaks gives back the lines |
| VoiceMemory.LineWithoutBreak | src/hooks/useVoiceMemory.ts:32 | a message without a line break renders as a line without one |
| VoiceMemory.StoredMessages | src/hooks/useVoiceMemory.ts:45-50 | one stored message per chat message, in order, with role, content, time and correction kept |
| VoiceMemory.ListOr | src/hooks/useVoiceMemory.ts:52-54 | `analysis?.[key] \|\| []` is the property when truthy and an empty list otherwise |
| VoiceMemory.SessionRecordFields | src/hooks/useVoiceMemory.ts:39-55 | the record starts at the first message, ends at the clock, keeps every message, and without an analysis has no summary and empty lists |
| VoiceMemory.NextStreak | src/hooks/useVoiceMemory.ts:59-74 | the streak is kept on the same day, grows by one on the next day of the same month, and is 1 otherwise |
| VoiceMemory.SameDayNotConsecutive | src/hooks/useVoiceMemory.ts:61-69 | the same-day test and the next-day test never both hold |
| VoiceMemory.NewMonthResets | src/hooks/useVoiceMemory.ts:61-64 | a change of month or year resets the streak to 1 |
| VoiceMemory.ProfileAfterSession | src/hooks/useVoiceMemory.ts:58-75 | the stored profile gains one session, the practice date becomes the clock, the streak follows the rule, and the other fields are kept |
| VoiceMemory.VoiceMemory.constructor | src/hooks/useVoiceMemory.ts:15 | the hook starts not saving |
| VoiceMemory.VoiceMemory.EndSession | src/hooks/useVoiceMemory.ts:17-84 | an empty conversation changes nothing; otherwise the session record is stored under the session id, the profile is updated by the streak rule, saving is over, and the id is returned |
| JsonSpan.LastIndexOf | src/lib/gemini/client.ts:34 | the position found holds the character, and no later one does |
| JsonSpan.MatchIsLeftmostLongest | src/lib/gemini/client.ts:34 | the match of `/\{[\s\S]*\}/` is none exactly when no span from '{' to '}' exists; otherwise it is the leftmost span, and among those the longest |
| JsonSpan.FirstLastSpan | src/lib/gemini/client.ts:34 | the span runs from the first '{' to the last '}' |
| JsonSpan.NoBracesNoSummary | src/lib/gemini/client.ts:34-35 | text without a '{' before a '}' yields null, whatever the parser |
| Gemini.SdkFailureIsNull | src/lib/gemini/client.ts:29-39 | a throwing SDK call gives null |
| Gemini.NoSpanIsNull | src/lib/gemini/client.ts:34-35 | an answer without a brace span gives null |
| Gemini.SpanIsParsed | src/lib/gemini/client.ts:30-35 | otherwise the summary is the parse of the span from the first '{' to the last '}' |
| Gemini.FailedAnswer | src/lib/gemini/client.ts:36-38 | no answer reads as null |
| Gemini.SpanlessAnswer | src/lib/gemini/client.ts:35 | an answer without a span reads as null |
| Gemini.SpannedAnswer | src/lib/gemini/client.ts:34-35 | an answer with a span reads as the parse of the span |
| OpenRouter.GenerateContentSafe | src/lib/openrouter/client.ts:51-112 | the loop returns the reference fallback's result over the five models for a one-message prompt, and requests exactly the reference's models |
| OpenRouter.GenerateWithMessagesSafe | src/lib/openrouter/client.ts:117-162 | the same for a given list of messages |
| OpenRouter.SameSelection | src/lib/openrouter/client.ts:51-162 | a prompt and the single user message holding it get the same result |
| OpenRouter.GenerateSessionSummary | src/lib/openrouter/client.ts:167-199 | the summary is the JSON span of the generated text, parsed |
| OpenRouter.SummaryOf | src/lib/openrouter/client.ts:188-198 | no text or an empty text gives null, a text without a span gives null, and a text with a span gives the parse of the span |
| OpenRouter.SucceededStep | src/lib/openrouter/client.ts:98-103 | a model answering with content ends the walk with its content |
| OpenRouter.FailedStep | src/lib/openrouter/client.ts:78-95 | a failing model (non-ok, a throw, or no content) passes on to the next |
| OpenRouter.FirstSuccessWins | src/lib/openrouter/client.ts:57-108 | the result is the first answering model's content, after requesting exactly the models up to it |
| OpenRouter.AllFailIsNull | src/lib/openrouter/client.ts:57-111 | the result is null exactly when every model fails, and then every model was requested |
| OpenRouter.ChosenIsLastRequested | src/lib/openrouter/client.ts:57-108 | the requests are a prefix of the list, and a chosen content is the answer of the last model requested |
| OpenRouter.NoModelRetried | src/lib/openrouter/client.ts:21-27 | at most five requests, never the same model twice |
| OpenRouter.NoKeyNoRequest | src/lib/openrouter/client.ts:52-55 | without a key the result is null and nothing is requested |
| OpenRouter.GeneratedNonEmpty | src/lib/openrouter/client.ts:100-102 | a result is never the empty text |
| OpenRouter.FallbackNonEmpty | src/lib/openrouter/client.ts:100-102 | the reference fallback never yields the empty text |
| PromptRoute.NoLanguageNoCall | src/app/api/prompt/route.ts:18-20 | a missing or empty language is a 400, whatever the model would say |
| PromptRoute.UnreadableBody | src/app/api/prompt/route.ts:68-79 | an unreadable body gets the static payload with every default |
| PromptRoute.FallbackDefaults | src/app/api/prompt/route.ts:75-78 | the error payload with nothing known reads "You are a friendly language tutor. Teach conversation." and "Hello! Let's learn a new language." |
| PromptRoute.NativeLanguageDefault | src/app/api/prompt/route.ts:13 | an absent or empty native language is English |
| PromptRoute.SameNativeLanguage | src/app/api/prompt/route.ts:13-48 | requests whose native languages mean the same get the same answer |
| PromptRoute.ParsedAnswer | src/app/api/prompt/route.ts:50-59 | an answer that parses after cleaning is returned as parsed |
| PromptRoute.UnparsedAnswer | src/app/api/prompt/route.ts:60-66 | an answer that does not parse gives the payload built from the properties as given |
| PromptRoute.FailedCall | src/app/api/prompt/route.ts:68-79 | a failed model call gives the payload with defaults for a falsy personality or topic |
| PromptRoute.RemoveEitherSkips | src/app/api/prompt/route.ts:55 | text without a backquote passes through the fence removal unchanged |
| PromptRoute.CleanUnwrapsFence | src/app/api/prompt/route.ts:55 | an answer in a json code fence is unwrapped and trimmed |
| TranslateUiRoute.NoTranslationNeeded | src/app/api/translate-ui/route.ts:27-29 | English, no language or an unreadable body get the English table, whatever the model would say |
| TranslateUiRoute.PostTranslates | src/app/api/translate-ui/route.ts:31-51 | another language is answered from the model's answer to the prompt |
| TranslateUiRoute.ParsedTranslations | src/app/api/translate-ui/route.ts:42-51 | a parseable answer is returned as parsed |
| TranslateUiRoute.CallFailureIsEnglish | src/app/api/translate-ui/route.ts:52-56 | a failed call falls back to the English table |
| TranslateUiRoute.UnparsedIsEnglish | src/app/api/translate-ui/route.ts:49-56 | an answer that does not parse falls back to the English table |
| TranslateUiRoute.EnglishTable | src/app/api/translate-ui/route.ts:6-21 | the English table has fourteen distinct keys, each with a non-empty string |
| TranslateUiRoute.RemoveAllSkips | src/app/api/translate-ui/route.ts:47 | text without a backquote passes through the fence removal unchanged |
| TranslateUiRoute.CleanUnwrapsFence | src/app/api/translate-ui/route.ts:47 | an answer in a code fence is unwrapped and trimmed |
| TranslateUiRoute.CleanHasNoFence | src/app/api/translate-ui/route.ts:47 | whatever the model answers, the cleaned text holds no three backquotes in a row |
| TranslateUiRoute.NoFenceAfterRemoval | src/app/api/translate-ui/route.ts:47 | removing ``` left to right leaves no ``` behind, even where removals bring backquotes together |
| TranslateUiRoute.ShortRunBreaks | src/app/api/translate-ui/route.ts:47 | a run of fewer than three leading backquotes is followed, in the result, by a character that is not a backquote |
| TranslateUiRoute.HeadKept | src/app/api/translate-ui/route.ts:47 | a first character that is not a backquote survives the removal |
| TranslateUiRoute.SliceNoFence | src/app/api/translate-ui/route.ts:47 | trimming a text without ``` cannot create one |
| ChatRoute.ToMessages | src/app/api/chat/route.ts:36-39 | one message per chat item, in order, with its content, from the user exactly when its type is 'user', and never a system message |
| ChatRoute.MessagesRequired | src/app/api/chat/route.ts:8-10 | without a messages array the answer is a 400, whatever the models would say |
| ChatRoute.DialogueShape | src/app/api/chat/route.ts:34-40 | the system prompt comes first and only first, and each chat message follows with its content and role |
| ChatRoute.PostReplies | src/app/api/chat/route.ts:34-49 | a request with messages is answered from the client's result for the dialogue |
| ChatRoute.ReplyIsFirstSuccess | src/app/api/chat/route.ts:43-53 | the reply is a 200 with the client's text exactly when a model answered, and a 500 otherwise |
| ChatRoute.RepliedText | src/app/api/chat/route.ts:45-49 | the client's result alone decides the status |
| ChatRoute.AllFailIsServerError | src/app/api/chat/route.ts:45-53 | no key, or every model failing, gives a 500 |
| TranslateRoute.TextRequired | src/app/api/translate/route.ts:8-10 | a missing or empty text is a 400, checked first |
| TranslateRoute.TargetRequired | src/app/api/translate/route.ts:12-14 | with a text, a missing, empty or 'Detect' language is a 400 |
| TranslateRoute.UnreadableFails | src/app/api/translate/route.ts:32-35 | an unreadable body is a 500 |
| TranslateRoute.PostTranslates | src/app/api/translate/route.ts:16-31 | an accepted request is answered from the client's result for its prompt |
| TranslateRoute.TranslationIsFirstSuccess | src/app/api/translate/route.ts:25-35 | the reply is a 200 with the client's text exactly when a model answered, and a 500 otherwise |
| Translation.T | src/hooks/useTranslation.ts:50-52 | `t` gives the non-empty translation, else a non-empty fallback, else the key |
| Translation.TShowsSomething | src/hooks/useTranslation.ts:50-52 | a non-empty key never shows as empty, and before translations arrive the fallback or the key shows |
| Translation.TranslationHook.constructor | src/hooks/useTranslation.ts:6-7 | no translations, loading |
| Translation.TranslationHook.FetchTranslations | src/hooks/useTranslation.ts:10-35 | English makes no request; any other native language is requested, and only an ok response replaces the translations; loading ends either way |
| Translation.TranslationHook.OnStorage | src/hooks/useTranslation.ts:40-44 | any other storage event changes nothing; a change of 'nativeLanguage' refetches with the effect of `fetchTranslations`: no request for English, otherwise the language is requested and only an ok response replaces the translations, and loading ends |
| Translation.EnglishNeverFetches | src/hooks/useTranslation.ts:12-18 | an English user makes no request and sees only fallbacks and keys |
| Curricula.StatusesOf | src/lib/curriculum.ts:1-5 | the statuses of the items, in order |
| Curricula.DefaultPresent | src/lib/curriculum.ts:91-105 | the table has a 'default' entry |
| Curricula.AllFollow | src/lib/curriculum.ts:14-106 | every curriculum's units have the shared roadmap's ids and statuses, in order |
| Curricula.EightUnits | src/lib/curriculum.ts:14-106 | every curriculum has eight units |
| Curricula.RoadmapLength | src/lib/curriculum.ts:95-104 | the shared roadmap has eight ids and eight statuses |
| Curricula.SpanishFollows | src/lib/curriculum.ts:15-29 | the Spanish units follow the roadmap |
| Curricula.FrenchFollows | src/lib/curriculum.ts:30-44 | the French units follow the roadmap |
| Curricula.GermanFollows | src/lib/curriculum.ts:45-59 | the German units follow the roadmap |
| Curricula.ItalianFollows | src/lib/curriculum.ts:60-74 | the Italian units follow the roadmap |
| Curricula.JapaneseFollows | src/lib/curriculum.ts:75-89 | the Japanese units follow the roadmap |
| Curricula.DefaultFollows | src/lib/curriculum.ts:91-105 | the default units follow the roadmap |
| Curricula.IdsUnique | src/lib/curriculum.ts:95-104 | no two units of a curriculum share an id |
| Curricula.StatusCounts | src/lib/curriculum.ts:95-104 | two units are completed, one is in progress and five are locked |
| Curricula.RoadmapCounts | src/lib/curriculum.ts:95-104 | the counts hold for the shared roadmap itself |
| Curricula.StatusOrder | src/lib/curriculum.ts:95-104 | a unit is completed exactly before the third, in progress exactly at the third, and locked exactly after it |
| LearnPage.SelectedLanguage | src/app/learn/page.tsx:28 | the `lang` parameter when non-empty, otherwise 'spanish' |
| LearnPage.SelectedPersonality | src/app/learn/page.tsx:29 | the `personality` parameter when non-empty, otherwise 'cheerful' |
| LearnPage.InheritedCrashes | src/app/learn/page.tsx:31 | a language that lower-cases to a member of `Object.prototype` reaches that member, and the progress computation throws |
| LearnPage.ConstructorCrashes | src/app/learn/page.tsx:31 | `?lang=constructor` is such a language |
| LearnPage.LowerCaseKept | src/app/learn/page.tsx:31 | lower-casing leaves text without capitals unchanged |
| LearnPage.KeyFor | src/app/learn/page.tsx:31 | the curriculum key is the lower-cased language's own entry, or 'default' |
| LearnPage.LookupAgrees | src/app/learn/page.tsx:31 | the corrected lookup agrees with the page's wherever the page's finds an own entry, and always gives a curriculum that follows the roadmap |
| LearnPage.ProgressPercentage | src/app/learn/page.tsx:205-206 | the percentage exists exactly for a non-empty roadmap, lies in 0..100, and is the nearest integer to 100·completed/total, halves up |
| LearnPage.CountBound | src/app/learn/page.tsx:205 | the completed count is at most the number of units |
| LearnPage.RoundBounds | src/app/learn/page.tsx:206 | the rounded percentage of a share between 0 and 1 lies in 0..100 |
| LearnPage.MulMono | src/app/learn/page.tsx:206 | multiplication by a natural number is monotone |
| LearnPage.RoadmapProgress | src/app/learn/page.tsx:205-206 | units that follow the roadmap show 25% |
| LearnPage.ProgressIsQuarter | src/app/learn/page.tsx:31 | every language shows 25% progress under the corrected lookup |
| LearnPage.Greeting | src/app/learn/page.tsx:33-40 | the first entry is the curriculum's opening line, from the AI, with id '1' |
| LearnPage.Outgoing | src/app/learn/page.tsx:185-192 | no message exactly when the input trims to nothing; otherwise a user message with the input as typed |
| LearnPage.BlankIffSpaces | src/app/learn/page.tsx:185 | input trims to nothing exactly when every character is white space |
| LearnPage.Incoming | src/app/learn/page.tsx:109-116 | no message exactly when the event has no text; otherwise its text, typed 'user' exactly when its source is 'user' |
| LearnPage.LearnChat.constructor | src/app/learn/page.tsx:33-40 | the list holds the greeting alone, and the input is empty |
| LearnPage.LearnChat.SetInput | src/app/learn/page.tsx:55 | the input becomes the value; the list is unchanged |
| LearnPage.LearnChat.ResetForLanguage | src/app/learn/page.tsx:42-53 | the list becomes the new curriculum's greeting alone; the input is unchanged |
| LearnPage.LearnChat.HandleSendMessage | src/app/learn/page.tsx:184-203 | blank input changes nothing; otherwise the user message is appended, the input is cleared, and the text as typed is sent when the agent accepts text |
| LearnPage.LearnChat.OnMessage | src/app/learn/page.tsx:107-117 | an event with text appends one message typed by its source; one without text changes nothing |
| LearnPage.Exchange | src/app/learn/page.tsx:33-203 | on a fresh page a typed message and a reply leave the greeting, the user's text and the AI's reply, in that order |
| LanguagesPage.IdsOf | src/app/languages/page.tsx:23-156 | the ids of the languages, in order |
| LanguagesPage.DifficultiesOf | src/app/languages/page.tsx:23-156 | the difficulties of the languages, in order |
| LanguagesPage.TableShape | src/app/languages/page.tsx:23-156 | the table lists its twelve languages with their difficulties, in order |
| LanguagesPage.KeepsMeaning | src/app/languages/page.tsx:184-190 | 'All' keeps every language; any other filter keeps exactly the languages of its difficulty |
| LanguagesPage.Filter | src/app/languages/page.tsx:184-190 | the filtered list has no more entries than the table, and holds exactly the languages the filter keeps |
| LanguagesPage.FilterAppend | src/app/languages/page.tsx:184-190 | filtering two lists one after the other is filtering their concatenation |
| LanguagesPage.FilterAll | src/app/languages/page.tsx:185 | 'All' keeps the list as it is |
| LanguagesPage.FilterCount | src/app/languages/page.tsx:186-188 | a difficulty filter keeps as many languages as have that difficulty |
| LanguagesPage.FiltersPartition | src/app/languages/page.tsx:186-188 | the three difficulty filters together keep every language exactly once |
| LanguagesPage.TableFilterCounts | src/app/languages/page.tsx:23-190 | the shipped table shows 2 beginner, 4 intermediate, 6 advanced and 12 languages in all |
| LanguagesPage.DifficultyCounts | src/app/languages/page.tsx:23-156 | a list with the table's difficulties has 2, 4 and 6 of each |
| LanguagesPage.TableDifficultyCounts | src/app/languages/page.tsx:23-156 | the counts hold for the table's difficulty list |
| LanguagesPage.IsoCode | src/app/languages/page.tsx:162-169 | a mapped id gives its code; any other gives its first two characters in upper case |
| LanguagesPage.TableIdsMapped | src/app/languages/page.tsx:162-167 | every language of the table has an ISO code in the map |
| LanguagesPage.LevelColor | src/app/languages/page.tsx:171-175 | green for 'Beginner Friendly', yellow for 'Intermediate', red for anything else |

## Left out

- The IndexedDB connection (`getDB`) is not modelled. This covers the caching of the database promise and the upgrade by version. The store's methods act on one `Store` object, and a failing database call is not modelled.
- Concurrency and `async` interleaving are not modelled. Every operation runs to completion in turn.
- JSON request bodies are modelled only where they hold strings. A non-string `language`, `text` and the like are not modelled. A body that is null or not JSON is modelled once, as "unreadable".
- The session fields `confidenceScores`, `avgConfidence` and `patterns`, and the per-message `confidence`, are not modelled. `endSession` never writes them. The profile's `avgConfidenceScore` and `learnedPatterns` are carried along but never computed, since nothing in the core computes them.
- SessionStore.MergeProfileFields: a property present in an update but set to `undefined` is treated as absent. The spread of `{ ...current, ...updates }` would in fact copy the `undefined`.
- SessionStore.MergeUserFields: the same holds for users: `{ ...user, ...updates }` would copy a `password: undefined`, while `UserUpdate` can set an optional property but never remove it.
- The legacy `model.generateContent` export of the OpenRouter client (`src/lib/openrouter/client.ts:202-211`) is not modelled. Nothing in the core calls it.
- The module-level Gemini model, its API key and the model names are not modelled. They are configuration, and the SDK call is a parameter.
- Translation.TranslationHook.FetchTranslations: an ok response is modelled as a map from strings to strings. The route may answer with any parsed JSON (`src/app/api/translate-ui/route.ts:49-51`), and `setTranslations` stores it unchecked. The model does not capture a `null` answer, after which every `t` call throws, an array, or non-string values, which `t` returns as they are.
- Translation.T: `translations[key]` is not modelled for keys inherited from `Object.prototype`. The same holds for LanguagesPage.IsoCode's `map[id]`. The translations are modelled as a map of their own entries.
- Strings are sequences of Unicode scalar values, not UTF-16 code units. The two views differ only for characters outside the Basic Multilingual Plane.
- `toUpperCase` and `toLowerCase` are ASCII-only. Other letters keep their case.
- TranslateUiRoute.PostTranslates: the prompt embeds `JSON.stringify(uiKeys, null, 2)`, which is written out as text. It is not computed.
- LearnPage.ProgressPercentage: computed on exact rationals with halves rounded up. `Math.round` on the floating-point quotient gives the same result for the page's values but is not modelled in general.
- The fetch of `/api/prompt` from the learning page, the ElevenLabs session, speech, muting, translation buttons and all rendering are not modelled. So are the rest of both pages.
- LearnPage.LearnChat.HandleSendMessage: whether the agent accepts text is the parameter `canSend`.
- Message ids, timestamps (`Date.now()`, `new Date()`), session ids (`uuidv4`) and the random salt are parameters.
- VoiceMemory.VoiceMemory.EndSession: the three clock reads of `endSession` are collapsed into one `now`. A thrown summary or store call, which the hook catches, is not modelled.
- LanguagesPage.Keeps: the final `return true` of the filter callback is unreachable for the four filter values and is not modelled as a separate case.
- Logging (`console.*`) is not modelled.

## Findings

| source | as written | input that shows it | evidently intended | confidence | as-written member | corrected member |
|---|---|---|---|---|---|---|
| src/app/learn/page.tsx:31 | `curriculums[lang.toLowerCase()] \|\| curriculums.default` also finds the members `curriculums` inherits from `Object.prototype`; `items` is then undefined and the progress computation at line 205 throws | `/learn?lang=constructor` | any language without its own curriculum falls back to `default` | not executed | LearnPage.ConstructorCrashes | LearnPage.ProgressIsQuarter |
