# MetaTune: prompt composition, generation replies and the playlist

MetaTune is a single-page music generator. The page turns a free-text mood description, or a set of structured fields (genre, mood, instruments, lyrics, other details), into one prompt. It POSTs the prompt to the back end's `/api/generate-music` endpoint. It then reads the reply and keeps the generated tracks in a playlist with a cursor and "previous"/"next" buttons. The back end's `generate_music` handler validates the request. It then forwards the prompt either to the Suno API or to a local MusicGen generator, and shapes the reply.

This project models the decision and string logic of both sides as pure Dafny functions over immutable datatypes.

- `wrappers.dfy` (`Wrappers`): `Option` and `Result`.
- `text.dfy` (`Text`): the JavaScript and Python string operations the program relies on. These are truthiness filtering (`filter(Boolean)`), `join`, Python `split(',')` and `strip()` with Python's whitespace set, and the decimal rendering of a number inside a template literal.
- `http.dfy` (`Http`): a reply is a status code plus a body. The body is either a JSON object of string values or not JSON at all. The module also defines the Fetch standard's `ok` range (200 to 299) and FastAPI's `{"detail": …}` error body.
- `composer.dfy` (`Composer`): the detail-mode clause builder, the two instrument-slot editors, and the free-text submit path.
- `client.dfy` (`Client`): the page's reading of a generation reply (failed, deferred, immediate, unreadable, invalid), the track defaults, and the playlist aggregate. The aggregate holds the tracks and the cursor together. Appending a track also moves the cursor to it, and the navigation wraps around.
- `backend.dfy` (`Backend`): the `generate_music` handler as a function of the request, the `SUNO_API_KEY` environment value, and the outcomes of the two outside calls.
- `endtoend.dfy` (`EndToEnd`): properties of the two sides together. The page always asks for the `"suno"` generator. The Suno branch's 202 body has neither `task_id` nor `url`, so the page reads every Suno reply as a failure or as an invalid response. A generation attempt from the page therefore never adds a track.

Three facts about the code shape the model:
- An ok reply whose body is not JSON makes `response.json()` throw at frontend/src/components/MetaTuneUI.jsx:75. The `catch` reports this as an error, and the model calls the outcome `Unreadable`.
- A deferred reply makes the page call `pollForResult` (frontend/src/components/MetaTuneUI.jsx:80), which MetaTuneUI.jsx neither defines nor imports. The model stops at the `Poll` effect.
- The back-end `generate_music` handler is part of the repository, and it is modelled here alongside the page.

## Model

| member | source | states |
|---|---|---|
| Text.KeepTruthy | frontend/src/components/MetaTuneUI.jsx:43 | the kept entries are all non-empty, every kept entry comes from the input, and every non-empty input entry is kept |
| Text.KeepTruthyAppend | frontend/src/components/MetaTuneUI.jsx:43 | filtering commutes with concatenation, so the survivors keep their original order |
| Text.KeepTruthyEmpty | frontend/src/components/MetaTuneUI.jsx:43 | nothing survives the filter exactly when every entry is the empty string |
| Text.Join | frontend/src/components/MetaTuneUI.jsx:43-52 | `join` of no parts is the empty string and of one part is that part; otherwise the result begins with the first part (with Text.JoinAppend this determines `join` completely) |
| Text.JoinAppend | frontend/src/components/MetaTuneUI.jsx:52 | joining two non-empty lists puts exactly one separator between the two joined halves |
| Text.Split | backend/main.py:153 | `split(',')` yields at least one piece, and no piece contains the separator |
| Text.JoinSplit | backend/main.py:153 | joining the pieces of a split with the separator gives back the original string |
| Text.SplitJoin | backend/main.py:153 | splitting a separator-joined list of separator-free parts gives back the parts |
| Text.FirstPieceIsPrefix | backend/main.py:153 | `split(',')[0]` is the longest comma-free prefix of the string |
| Text.StripStart | backend/main.py:153 | the removed prefix is all Python whitespace, and the rest does not start with whitespace |
| Text.StripEnd | backend/main.py:153 | the removed suffix is all Python whitespace, and the rest does not end with whitespace |
| Text.Strip | backend/main.py:153 | `strip()` returns a substring with only whitespace cut from both ends and no whitespace at either end |
| Text.StrippedAtUnique | backend/main.py:153 | that characterisation admits exactly one result, so it pins down `strip()` |
| Text.StrippedEmptyIff | backend/main.py:153 | stripping yields the empty string exactly when the input is all whitespace |
| Text.DecimalString | frontend/src/components/MetaTuneUI.jsx:85 | a number renders as a non-empty string of decimal digits with no leading zero |
| Text.DecimalRoundTrip | frontend/src/components/MetaTuneUI.jsx:85 | reading the rendered digits back gives the number |
| Http.ErrorReply | backend/main.py:115-116 | a raised `HTTPException` answers with its status and a body that holds exactly one field, `detail`, carrying its message |
| Composer.SetInstrument | frontend/src/components/MetaTuneUI.jsx:27-31 | editing slot i keeps the list length, sets slot i to the new value, and leaves every other slot unchanged |
| Composer.AddInstrument | frontend/src/components/MetaTuneUI.jsx:34-36 | adding a slot appends exactly one empty slot and leaves the earlier slots unchanged |
| Composer.SetInstrumentNamed | frontend/src/components/MetaTuneUI.jsx:27-31 | after editing slot i, the named instruments are those before i, then the new value if it is non-empty, then those after i |
| Composer.AddInstrumentKeepsPrompt | frontend/src/components/MetaTuneUI.jsx:34-36 | adding an empty slot never changes the composed prompt or the refusal |
| Composer.ComposeFromFields | frontend/src/components/MetaTuneUI.jsx:39-54 | the detail submit either yields a non-empty prompt or stops with the "fill in at least one field" alert |
| Composer.InstrumentsClauseSpec | frontend/src/components/MetaTuneUI.jsx:43 | the Instruments clause is absent exactly when every slot is empty; otherwise it lists the non-empty slots in order, joined by ", " |
| Composer.ClausesSpec | frontend/src/components/MetaTuneUI.jsx:40-46 | the surviving clauses are exactly the clauses of the non-empty fields, in the order Genre, Mood, Instruments, Lyrics, Other details |
| Composer.ComposedPrompt | frontend/src/components/MetaTuneUI.jsx:40-52 | the submitted prompt is those clauses joined by ". " |
| Composer.ComposeSucceedsIff | frontend/src/components/MetaTuneUI.jsx:40-51 | a prompt is submitted exactly when some field (a whitespace-only one included) is non-empty |
| Composer.InitialFieldsRefused | frontend/src/components/MetaTuneUI.jsx:14-18 | the page's starting fields are refused with the alert |
| Composer.ComposeFromText | frontend/src/components/MetaTuneUI.jsx:102-111 | empty free text stops with the "enter a prompt" alert; a rejected transformation call ends the handler with no alert and no submission; otherwise the transformed prompt is submitted, or the fallback text when there is none |
| Client.Classify | frontend/src/components/MetaTuneUI.jsx:70-94 | the reply is read in order: non-ok fails (with `detail` or the fixed message); 202 with a task id is deferred even when a url is present; an ok reply with a url is a track; anything else is invalid |
| Client.Valid | frontend/src/components/MetaTuneUI.jsx:119-128 | the playlist invariant: whenever there are tracks, the cursor indexes one of them |
| Client.SessionKeepsValid | frontend/src/components/MetaTuneUI.jsx:64-128 | any run of button presses and arriving replies from a valid playlist ends valid, with the earlier tracks kept in place as a prefix |
| Client.Current | frontend/src/components/MetaTuneUI.jsx:114-118 | on a valid playlist, a track is shown exactly when the list is non-empty, and it is the entry at the cursor |
| Client.NewTrack | frontend/src/components/MetaTuneUI.jsx:83-87 | the track keeps the reply's url; a missing title becomes "Generated Song #" and the new position; a missing source becomes "from MetaTune" |
| Client.Append | frontend/src/components/MetaTuneUI.jsx:88-90 | exactly one track is appended, earlier entries are unchanged, the cursor is the new last index, and the new track is the one shown |
| Client.Next | frontend/src/components/MetaTuneUI.jsx:125-128 | the tracks are unchanged; on an empty list nothing changes; on a valid list the cursor becomes (cursor + 1) mod length; validity is kept |
| Client.Prev | frontend/src/components/MetaTuneUI.jsx:120-123 | the tracks are unchanged; on an empty list nothing changes; on a valid list the cursor becomes (cursor - 1) mod length; validity is kept |
| Client.NextPrevInverse | frontend/src/components/MetaTuneUI.jsx:120-128 | on a valid playlist "previous" undoes "next" and "next" undoes "previous" |
| Client.NextTimesCursor | frontend/src/components/MetaTuneUI.jsx:125-128 | k presses of "next" move the cursor k positions round the circle |
| Client.FullCircle | frontend/src/components/MetaTuneUI.jsx:125-128 | pressing "next" once per track returns to the track first shown |
| Client.Receive | frontend/src/components/MetaTuneUI.jsx:70-99 | only an immediate reply plays, and it appends the track built from the reply's url, title and source; a deferred reply polls its task id; a failed reply alerts with its message, an invalid one with the invalid-response text, an unreadable one with the parse error, each after the error prefix and with the playlist unchanged; validity is kept |
| Client.ImmediateReplyPlays | frontend/src/components/MetaTuneUI.jsx:75-91 | an ok JSON reply with a non-empty `url` (and not a 202 with a non-empty `task_id`) appends and shows the track with that url, its title or "Generated Song #" and the new position, and its source or "from MetaTune" |
| Client.NavigationShows | frontend/src/components/MetaTuneUI.jsx:114-128 | after "next" or "previous" the track shown is the following or preceding entry, wrapping round at either end |
| Client.DetailIsShown | frontend/src/components/MetaTuneUI.jsx:70-73 | a failed reply's `detail` appears in the alert the user sees |
| Client.DefaultTitleIsPosition | frontend/src/components/MetaTuneUI.jsx:85 | an untitled track's default title ends in digits that denote its 1-based position in the new playlist |
| Backend.Title | backend/main.py:176 | the derived title contains no comma and has no whitespace at either end |
| Backend.TitleSpec | backend/main.py:153 | the title is the stripped text before the prompt's first comma (the whole prompt when there is none), so it is comma-free, has no whitespace at either end, and occurs in the prompt |
| Backend.TitleWithoutComma | backend/main.py:153 | a prompt without a comma is titled by the whole prompt, stripped |
| Backend.SunoAcceptedBody | backend/main.py:150-157 | the Suno 202 body holds exactly title, source and message, with the prompt's title and the "from Suno" label, so it has no url and no task id |
| Backend.SunoBranch | backend/main.py:123-160 | after the key check, the Suno branch answers 503 exactly on a failed call, 202 exactly when a truthy task id came back, and 500 otherwise |
| Backend.MusicGenBranch | backend/main.py:162-177 | the MusicGen branch answers 200 exactly on a non-empty result with url, source and title, using the prompt's title; every other outcome is 500 with the MusicGen prefix |
| Backend.HandleGenerate | backend/main.py:112-180 | an empty prompt gets 400 whatever the generator; an unknown generator gets 400; the Suno branch gives 500 without a key, 503 on a failed call, and 202 exactly when a task id came back; MusicGen gives 200 exactly on a complete result, with the prompt's title and the generator's url and source, and otherwise 500 with the MusicGen prefix |
| Backend.GeneratorDefaultsToSuno | backend/main.py:53-55 | omitting the generator behaves as asking for "suno" |
| Backend.BranchesIndependent | backend/main.py:118-177 | the Suno branch ignores the MusicGen outcome, and the MusicGen branch ignores the key and the Suno outcome |
| Backend.SunoFailures | backend/main.py:119-160 | a failed call gives 503 with the error text; a missing or empty task id gives 500; a reply whose data is not an object gives a 500 without a JSON body |
| Backend.MusicGenNoneDetail | backend/main.py:163-174 | a generator that returns nothing yields 500 with its "generation failed" detail rewritten by the outer `except` into the "MusicGen 예외 발생: 500: …" form |
| EndToEnd.SunoReplyNeverPlays | backend/main.py:150-157 | the page reads every Suno-branch reply as failed or invalid, and every 202 reply as invalid |
| EndToEnd.PageNeverGrowsPlaylist | frontend/src/components/MetaTuneUI.jsx:64-94 | with the generator the page always sends, an attempt leaves the playlist unchanged and shows an alert |
| EndToEnd.HandlerErrorsShowDetail | frontend/src/components/MetaTuneUI.jsx:70-73 | every handler error reply is read as a failure carrying the handler's detail, or the fixed message when the body is not JSON |
| EndToEnd.ComposedPromptAccepted | backend/main.py:115-116 | a prompt the page composes, from fields or from free text, is never refused with 400 |
| EndToEnd.MusicGenReplyPlays | backend/main.py:164-177 | a successful MusicGen reply with a non-empty url is read as a track with the prompt-derived title (when non-empty) and the generator's source |

## Left out

- Rendering, dark mode, the mode toggle and the Tailwind classes are presentation only.
- `fetch`, `alert`, `document.querySelector` and `console.log` are I/O. A reply is an input (`Http.Reply`), and the alert, poll or play that follows is an output (`Client.Effect`). The browser's JSON parse-error message is an input too (`parseError`).
- The deferred path ends at the `Poll` effect. MetaTuneUI.jsx neither defines nor imports `pollForResult`, so what the call does is not modelled.
- Client.Receive: `Poll` stands for the call to `pollForResult` at frontend/src/components/MetaTuneUI.jsx:80, whatever that call does. Were the name undefined, the call would throw a `ReferenceError` that the `catch` at frontend/src/components/MetaTuneUI.jsx:95-96 turns into an alert; the model does not promise that alert.
- React state mechanics are not modelled. This covers the stale `musicList` closure, batching, the `useEffect` that copies `musicList[currentIndex]` into `musicData`, the `loading` flag, and the status strings. Playlist and cursor form one aggregate, and the track shown is `Client.Current`.
- A rejected `fetch` in `generateMusic` is not modelled. This covers network errors and blocked cross-origin replies. There the page would alert with the browser's message and leave the playlist unchanged.
- Composer.ComposeFromText: a rejected transformation call is modelled only as `Abandon` (no alert, no submission). Its rejection escapes `handlePromptConvert` (frontend/src/components/MetaTuneUI.jsx:108) as an unhandled promise rejection, and what the browser then logs is not modelled.
- A 500 produced by an unhandled exception (`Backend.SunoCall.Malformed`) is handed to the page as a reply without a JSON body. In a browser this reply would likely lack CORS headers and surface as a rejected `fetch` instead.
- Concurrent generation attempts are not modelled: the only guard against them is that the page hides its controls while a request is in flight.
- frontend/src/utils/convertPrompt.js is a fetch wrapper. Its outcome enters `Composer.ComposeFromText` as the `call` input: rejected (a network error, or a reply that is not JSON at line 9), or answered with its `transformed_prompt` field.
- The back end's `transform_prompt`, `suno_callback`, CORS and static mounts are left out. They are HTTP calls to a language model, base64 decoding and file writes.
- backend/music_generators/suno.py and musicgen.py are network and file wrappers. Only their outcome enters the handler, as `Backend.SunoCall` and `Backend.MusicGenCall`.
- The Suno request's payload (duration, model, language, callback URL) is not modelled; only the call's outcome is.
- A Suno body that is not JSON counts as `RequestFailed`, since the `requests` library (version 2.27 and later) raises a `RequestException` subclass for it. Older versions raise a plain `ValueError`, which escapes the handler as an unhandled 500, the model's `Malformed`.
- JSON values are modelled as strings only. Numbers, `null` and nested values in a body are not modelled. This includes a `null` error body, on which the page's `errData.detail` would throw.
- Request validation by pydantic is not modelled: a missing `prompt` or a non-string field gets a 422 before the handler runs.
- Backend.MusicGenNoneDetail: the "500: …" text assumes the web framework renders an `HTTPException` as "<status>: <detail>". Other versions of the framework may render it differently.
- Composer.SetInstrument: requires an index inside the list. The page only passes indices of the slots it renders. An out-of-range JavaScript assignment would grow the array with holes.
- Characters are Unicode scalar values. Unpaired UTF-16 surrogates in JavaScript strings are not modelled.
