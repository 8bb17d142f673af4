# quiz-generator, modelled in Dafny

quiz-generator turns a lecture PDF into a quiz. The FastAPI backend:

- checks the upload;
- splits the extracted text into paragraph chunks;
- asks a language model for multiple-choice and true/false questions chunk by chunk;
- merges the answers.

A second copy of the route builds one prompt from all chunks and returns that prompt. Account routes handle registration, log-in and `/me`. The React client keeps a session (`AuthProvider`) and has one screen each for the dashboard, flashcards, editing, upload, log-in and registration, plus a navigation bar.

The Dafny project models each of these core pieces in the form the source uses:

- **Pure logic becomes functions with lemmas about them:**
  - text splitting and stripping: modules `Text` and `Chunker`;
  - the request checks: `UploadRules`;
  - how the upload screen's counts reach those checks: `UploadWire`;
  - the per-chunk arithmetic and merge: `BackendQuiz`;
  - the prompt route: `PromptRoute`;
  - the account rules: `Accounts`.
- **Loops become methods with invariants, proved equal to those functions:**
  - the chunking loop: `Chunker.SplitTextIntoChunks`;
  - the merge loop: `BackendQuiz.MergeChunks`.
- **Components whose state is updated become classes:**
  - `Session.AuthProvider`, with `localStorage` and the axios default headers as the shared object `Session.Ambient`;
  - one view class per screen;
  - the users table, `Accounts.UsersTable`.
  Each class method is specified against a pure step function or a state predicate, and the lemmas beside it state what the source promises about those.

Network, model, PDF and database results are inputs:

- every request is one atomic step with an outcome (`ClientData.Response`, `Session.MeOutcome`);
- the language model is a function from the notes and the two counts to a reply (`BackendQuiz.ModelReply`);
- the PDF text is a value (`UploadRules.PdfText`);
- bcrypt, the salt, the clock and JWT signing are parameters of the account functions.

The chunker is modelled once, citing backend/routes/quiz_routes.py:34-49. routes/quiz_routes.py:9-24 is the same function, character for character, and `PromptRoute` uses the same model. The validation chain is shared in the same way. The query bounds and the checks at backend/routes/quiz_routes.py:116-117 and 120-138 are the same as those at routes/quiz_routes.py:71-72 and 74-92. The backend signature also has the authentication dependency on line 118, which the other copy lacks.

The backend handler is modelled as written. Each chunk is passed to `build_prompt` as a string, so the notes sent for a chunk are its characters joined with `"\n\n"` (`Prompts.MergedAsWritten`). The Findings section below gives the evidently intended notes.

## Model

| member | source | states |
|---|---|---|
| Text.Split | backend/routes/quiz_routes.py:35 | `str.split("\n")` yields at least one paragraph and no paragraph contains the separator |
| Text.Join | backend/routes/quiz_routes.py:56 | `sep.join` of no parts is `""` and of one part is that part |
| Text.JoinEnds | backend/routes/quiz_routes.py:56 | a join of two or more parts opens with the first part and the separator, and closes with the last part |
| Text.JoinSplit | backend/routes/quiz_routes.py:35 | joining the paragraphs back with `"\n"` gives exactly the original text |
| Text.TrimStart | backend/routes/quiz_routes.py:43 | dropping leading whitespace leaves a suffix that starts with a non-space, and everything dropped was whitespace |
| Text.TrimEnd | backend/routes/quiz_routes.py:43 | dropping trailing whitespace leaves a prefix that ends with a non-space, and everything dropped was whitespace |
| Text.Strip | backend/routes/quiz_routes.py:43 | `strip()` leaves no leading or trailing whitespace, never lengthens, and leaves an already stripped string unchanged |
| Text.StripSlice | backend/routes/quiz_routes.py:43 | `strip()` keeps one contiguous slice of the string and drops only whitespace before and after it |
| Chunker.StripAll | backend/routes/quiz_routes.py:43 | each emitted chunk is the stripped piece at the same position |
| Chunker.StripAllSnoc | backend/routes/quiz_routes.py:43 | appending one piece appends its stripped form to the chunk list |
| Chunker.SplitTextIntoChunks | backend/routes/quiz_routes.py:34-49 | the loop returns the specified chunk list, which always has at least one chunk, each one stripped |
| Chunker.ChunksShape | backend/routes/quiz_routes.py:46-49 | the chunk list is never empty and every chunk is stripped |
| Chunker.PackCurrent | backend/routes/quiz_routes.py:39-44 | after at least one paragraph the open chunk ends in `"\n"`, so it is never empty |
| Chunker.PiecesNonEmpty | backend/routes/quiz_routes.py:46-47 | the final `if current_chunk` always fires, so there is at least one chunk |
| Chunker.PackConcat | backend/routes/quiz_routes.py:39-44 | flushed pieces followed by the open chunk concatenate to every paragraph with its `"\n"`, in order |
| Chunker.TerminatedJoin | backend/routes/quiz_routes.py:35-41 | the paragraphs each followed by `"\n"` concatenate to the text plus one `"\n"` |
| Chunker.PiecesConcat | backend/routes/quiz_routes.py:39-47 | the unstripped pieces concatenate in order to `text + "\n"` |
| Chunker.PackBound | backend/routes/quiz_routes.py:40-44 | while packing, every piece holding two or more paragraphs is at most the limit long |
| Chunker.PiecesBound | backend/routes/quiz_routes.py:40-47 | only a piece made of a single paragraph can exceed `max_chunk_size` |
| Chunker.PackFirst | backend/routes/quiz_routes.py:39-44 | the first paragraph either opens the chunk or, if at least the limit, makes the first flush the empty string |
| Chunker.LeadingEmptyFlush | backend/routes/quiz_routes.py:40-43 | the first piece is `""` exactly when the first paragraph is at or over the limit |
| Chunker.PackSmall | backend/routes/quiz_routes.py:40-41 | paragraphs whose total fits within the limit all stay in one open chunk and nothing is flushed |
| Chunker.ShortTextOneChunk | backend/routes/quiz_routes.py:34-49 | a text shorter than the limit becomes the single chunk `strip(text + "\n")` |
| UploadRules.Validate | backend/routes/quiz_routes.py:116-138 | a request passes exactly when both counts are in 0..20, the type is `application/pdf`, the size is at most 10 MiB and the total is in 1..20; query bounds go first (422); every other failure is a 400 |
| UploadRules.ValidationOrder | backend/routes/quiz_routes.py:120-138 | content type, then size, then total 0, then total over 20: each message is reported only when the earlier checks passed |
| UploadRules.SizeBoundary | backend/routes/quiz_routes.py:125 | 10485760 bytes pass, 10485761 bytes are "PDF is too large" |
| Prompts.MergedText | routes/quiz_routes.py:31 | no chunks give empty notes, and a single chunk is passed as it is |
| Prompts.BuildPrompt | routes/quiz_routes.py:27-37 | both counts reach the prompt unchanged, and a single chunk is the notes as it is |
| Prompts.MergedInOrder | routes/quiz_routes.py:31 | the `"\n\n"`-join of two lists of chunks is the join of the first, `"\n\n"`, and the join of the second |
| Prompts.Characters | backend/routes/quiz_routes.py:161 | iterating a Python string yields its characters as one-character strings |
| Prompts.MergedAsWritten | backend/routes/quiz_routes.py:56 | as written, a chunk of at most one character is unchanged; otherwise its first character is followed by `"\n\n"` and then the as-written notes of the rest |
| Prompts.AsWrittenSpreadsCharacters | backend/routes/quiz_routes.py:56 | as written, the chunk `"ab"` reaches the prompt as `"a\n\nb"` |
| Prompts.AsWrittenLength | backend/routes/quiz_routes.py:56 | as written, a chunk of n characters becomes 3n-2 characters, so every chunk of two or more characters is altered |
| Prompts.ChunkNotes | backend/routes/quiz_routes.py:161 | the corrected per-chunk notes are exactly the chunk |
| BackendQuiz.FailureFor | backend/routes/quiz_routes.py:174-184 | a chunk failure is a 500 whose detail starts with "Failed to call GPT-4: "; for invalid JSON the detail is exactly "Failed to call GPT-4: 500: Model output was not valid JSON.", and for a raised exception it is the prefix plus the exception's message |
| BackendQuiz.McqPerChunk | backend/routes/quiz_routes.py:154 | at least one MCQ per chunk even when `num_mcq` is 0; otherwise the floor of `num_mcq / total_chunks` |
| BackendQuiz.TfPerChunk | backend/routes/quiz_routes.py:155 | `tf_per_chunk` is the floor share, so `tf_per_chunk * total_chunks <= num_tf` |
| BackendQuiz.Replies | backend/routes/quiz_routes.py:160-163 | the model is asked once per chunk, in chunk order, with the same two per-chunk counts; the notes for a chunk are those line 161 builds, its characters joined with `"\n\n"` |
| BackendQuiz.MergeChunks | backend/routes/quiz_routes.py:150-186 | the loop returns the in-order merge of the per-chunk replies, stopping at the first failure |
| BackendQuiz.CombineStep | backend/routes/quiz_routes.py:179-181 | one more decoded reply extends the lists merged so far |
| BackendQuiz.CombineStopsAt | backend/routes/quiz_routes.py:183-184 | a failing reply after successful ones decides the request's error |
| BackendQuiz.GenerateQuestions | backend/routes/quiz_routes.py:113-188 | the handler returns the specified outcome: a check's error, the unreadable-PDF 400, or the merge over the chunks |
| BackendQuiz.CombineErrSticky | backend/routes/quiz_routes.py:183-184 | once a chunk has failed, later chunks change nothing, so no partial result escapes |
| BackendQuiz.CombineOkIff | backend/routes/quiz_routes.py:160-184 | the merge succeeds exactly when every chunk's reply decoded to an object |
| BackendQuiz.CombineFirstFailure | backend/routes/quiz_routes.py:160-184 | the first failing chunk decides the error, whatever follows it |
| BackendQuiz.CombineAppend | backend/routes/quiz_routes.py:180-181 | the lists merged from two runs of chunks are the first run's lists followed by the second's |
| BackendQuiz.CombineOne | backend/routes/quiz_routes.py:180-181 | one decoded reply contributes its two lists; a missing key contributes nothing |
| BackendQuiz.CombineErrIsCallFailure | backend/routes/quiz_routes.py:183-184 | every merge error is the 500 of some failing chunk |
| BackendQuiz.AnyFailureIsFatal | backend/routes/quiz_routes.py:162-184 | any failing chunk makes the request a 500 "Failed to call GPT-4: ..." with no lists |
| BackendQuiz.AcceptedRequest | backend/routes/quiz_routes.py:120-155 | an accepted request has counts in range and at least one chunk, and its outcome is the merge over the chunks of the default-size split |
| PromptRoute.GenerateQuestions | routes/quiz_routes.py:68-109 | a prompt comes back exactly when the checks pass and the PDF is readable; a failed check is returned as is; an unreadable PDF is 400 "Failed to read PDF: ..." |
| PromptRoute.PromptOutcome | routes/quiz_routes.py:104-109 | the prompt is built once from the `"\n\n"`-join of all chunks, with both counts unchanged |
| PromptRoute.ShortTextPrompt | routes/quiz_routes.py:104-109 | a text under the chunk limit reaches the prompt whole, only stripped |
| ClientData.ErrorMessage | frontend/src/pages/UploadQuiz.jsx:45 | the shown error is the server's `detail` when it is truthy, and the fallback otherwise |
| Session.StoredToken | frontend/src/contexts/AuthContext.jsx:7 | the stored token reads as null when the entry is missing or empty |
| Session.AuthProvider.constructor | frontend/src/contexts/AuthContext.jsx:7-9 | on mount the token is the stored one, there is no user, loading is true, and the effect has not run |
| Session.AuthProvider.Login | frontend/src/contexts/AuthContext.jsx:26-29 | `login(t)` writes t to the store and the token, and nothing else |
| Session.AuthProvider.Logout | frontend/src/contexts/AuthContext.jsx:31-35 | `logout()` removes the stored entry and clears token and user, and nothing else |
| Session.AuthProvider.Commit | frontend/src/contexts/AuthContext.jsx:13-24 | the effect runs only for a new token: with one it sets the Bearer header before `/me` (and reports the header sent), then sets the user or logs out; without one it removes the header; loading then ends |
| Session.InitialState | frontend/src/contexts/AuthContext.jsx:7-9 | the initial session has a token iff a non-empty one is stored, no user, is loading, and is consistent |
| Session.ActionsKeepConsistent | frontend/src/contexts/AuthContext.jsx:13-35 | login, logout and the effect keep token and store in step, never keep a user without a token, and keep the header matching the token the effect last ran for |
| Session.LoginThenRead | frontend/src/contexts/AuthContext.jsx:26-29 | after `login(t)` the store and the token hold t, while user, loading and header are untouched |
| Session.LogoutFromAnyState | frontend/src/contexts/AuthContext.jsx:31-35 | from any state, logout leaves no token, no user and no stored entry; doing it twice equals doing it once |
| Session.CommitWithoutChange | frontend/src/contexts/AuthContext.jsx:24 | when the token has not changed since the effect last ran, a render changes nothing |
| Session.FailedMeSignsOut | frontend/src/contexts/AuthContext.jsx:18 | a failed `/me` ends signed out with an empty store and loading false; the next commit removes the header and then the session is settled |
| Session.SucceededMeSignsIn | frontend/src/contexts/AuthContext.jsx:14-19 | a successful `/me` sets the user to its body, keeps the token and the Bearer header, ends loading, and later renders change nothing |
| Session.NoTokenEffect | frontend/src/contexts/AuthContext.jsx:20-22 | with no (or an empty) token the effect removes the header and ends loading without touching token, user or store |
| Session.LoginScenario | frontend/src/contexts/AuthContext.jsx:7-29 | from an empty store, logging in with "abc" and a successful `/me` gives stored token "abc", header "Bearer abc" and the returned user |
| QuizDetail.AllQuestions | frontend/src/pages/QuizDetail.jsx:34-36 | the cards are the MCQs followed by the true/false questions, with a missing list counting as empty, and none without a quiz |
| QuizDetail.NavigationStaysInRange | frontend/src/pages/QuizDetail.jsx:38-46 | from a valid index, any run of Next, Back and card clicks keeps the index in 0..len-1 |
| QuizDetail.MoveUnflips | frontend/src/pages/QuizDetail.jsx:38-46 | after Next or Back the card is unflipped |
| QuizDetail.NextSaturates | frontend/src/pages/QuizDetail.jsx:40 | pressing Next often enough reaches the last card and stays there |
| QuizDetail.BackSaturates | frontend/src/pages/QuizDetail.jsx:45 | pressing Back often enough reaches the first card and stays there |
| QuizDetail.NextWithoutCards | frontend/src/pages/QuizDetail.jsx:40 | with no cards, Next sets the index to -1 |
| QuizDetail.EndsAreDisabled | frontend/src/pages/QuizDetail.jsx:100-116 | Back is disabled at 0 and Next at len-1, and pressing them there would change nothing |
| QuizDetail.IsMcq | frontend/src/pages/QuizDetail.jsx:48-49 | a card counts as an MCQ only when there is a card at the index |
| QuizDetail.McqExactlyForFirstPart | frontend/src/pages/QuizDetail.jsx:48-49 | the current card counts as an MCQ exactly when the index falls within the MCQ part of the list |
| QuizDetail.QuizDetailView.constructor | frontend/src/pages/QuizDetail.jsx:10-13 | no quiz, no error, index 0, unflipped |
| QuizDetail.QuizDetailView.FetchQuiz | frontend/src/pages/QuizDetail.jsx:18-32 | the request is made only with a truthy token; success sets the quiz; failure sets "Failed to load quiz." and keeps the quiz |
| QuizDetail.QuizDetailView.HandleNext | frontend/src/pages/QuizDetail.jsx:38-41 | index becomes `min(i+1, len-1)` and the card is unflipped |
| QuizDetail.QuizDetailView.HandleBack | frontend/src/pages/QuizDetail.jsx:43-46 | index becomes `max(i-1, 0)` and the card is unflipped |
| QuizDetail.QuizDetailView.ToggleFlip | frontend/src/pages/QuizDetail.jsx:68 | a card click toggles `flipped` and keeps the index |
| Dashboard.RemoveById | frontend/src/pages/Dashboard.jsx:46 | after a delete, a quiz remains exactly when it was there and has a different id |
| Dashboard.RemoveDistributes | frontend/src/pages/Dashboard.jsx:46 | deleting from a concatenation deletes from each part, so the kept quizzes keep their relative order |
| Dashboard.RemoveSingle | frontend/src/pages/Dashboard.jsx:46 | a single quiz is kept unchanged exactly when its id differs |
| Dashboard.RemoveAbsent | frontend/src/pages/Dashboard.jsx:46 | deleting an id no quiz has leaves the list exactly as it was |
| Dashboard.RemoveIdempotent | frontend/src/pages/Dashboard.jsx:46 | deleting the same id twice equals deleting it once |
| Dashboard.RemoveCommutes | frontend/src/pages/Dashboard.jsx:46 | two deletions give the same list in either order |
| Dashboard.Screen | frontend/src/pages/Dashboard.jsx:73-117 | loading wins, then a non-empty error, then the empty message, then the list |
| Dashboard.Greeting | frontend/src/pages/Dashboard.jsx:63 | the greeting uses the username when it is truthy, and "User" otherwise |
| Dashboard.DashboardView.constructor | frontend/src/pages/Dashboard.jsx:9-11 | no quizzes, loading, no error |
| Dashboard.DashboardView.FetchQuizzes | frontend/src/pages/Dashboard.jsx:16-32 | without a token nothing is requested and loading stays; otherwise success sets the list, failure sets "Failed to load quizzes.", and loading ends |
| Dashboard.DashboardView.HandleDelete | frontend/src/pages/Dashboard.jsx:36-51 | cancelling changes nothing and sends nothing; success drops the id; failure keeps the list and alerts "Failed to delete quiz." |
| EditQuiz.Apply | frontend/src/pages/EditQuiz.jsx:85-162 | an edit changes only the one field of the one question (or option) it names; question counts are kept; the true/false answer is "True" or "False" |
| EditQuiz.EditKeepsShape | frontend/src/pages/EditQuiz.jsx:91-164 | an edit keeps the number of questions and of each question's options, so an input that existed before it still exists |
| EditQuiz.EditsKeepShape | frontend/src/pages/EditQuiz.jsx:91-164 | any run of edits made through the loaded form's inputs goes through and keeps the form's shape |
| EditQuiz.EditsOfDifferentTargetsCommute | frontend/src/pages/EditQuiz.jsx:85-162 | two edits that write to different entries (the title, or different questions of either list) both stay possible and give the same form in either order |
| EditQuiz.LastTitleWins | frontend/src/pages/EditQuiz.jsx:85 | a later title edit overwrites an earlier one |
| EditQuiz.Loaded | frontend/src/pages/EditQuiz.jsx:28-31 | loading takes the title and both lists from the quiz, with a missing list becoming empty |
| EditQuiz.LoadEditSave | frontend/src/pages/EditQuiz.jsx:28-172 | edits of a loaded quiz keep its question counts all the way to the form Save sends |
| EditQuiz.EditQuizView.constructor | frontend/src/pages/EditQuiz.jsx:13-17 | empty title and lists, loading, no error |
| EditQuiz.EditQuizView.FetchQuiz | frontend/src/pages/EditQuiz.jsx:21-41 | the fetch runs regardless of the token; success loads the form, failure sets "Failed to load quiz."; loading ends either way |
| EditQuiz.EditQuizView.Change | frontend/src/pages/EditQuiz.jsx:85-162 | an input's change applies its edit to the form and leaves loading and error alone |
| EditQuiz.EditQuizView.HandleSave | frontend/src/pages/EditQuiz.jsx:43-62 | Save sends exactly title and both lists; success goes home; failure alerts "Failed to update quiz." without navigating or changing state |
| UploadQuiz.UploadQuizView.constructor | frontend/src/pages/UploadQuiz.jsx:11-16 | no file, empty title, 5 and 5, not loading, no error |
| UploadQuiz.UploadQuizView.BeginSubmit | frontend/src/pages/UploadQuiz.jsx:20-35 | the error is cleared first; without a file the error is "Please upload a PDF file." and nothing is sent; otherwise the form is file, title, num_mcq, num_tf and loading starts |
| UploadQuiz.UploadQuizView.FinishSubmit | frontend/src/pages/UploadQuiz.jsx:36-48 | success goes home; failure shows the detail or "Failed to generate quiz."; loading ends either way |
| UploadQuiz.UploadQuizView.HandleSubmit | frontend/src/pages/UploadQuiz.jsx:20-49 | a whole submit: without a file only "Please upload a PDF file." is shown; with one the form is sent and loading ends; then either no error and home, or the detail or the fallback |
| UploadWire.QueryIntended | frontend/src/pages/UploadQuiz.jsx:29-42 | the intended request carries the counts the user entered where the handler reads them |
| UploadWire.AsWrittenEveryUploadRefused | backend/routes/quiz_routes.py:116-133 | as written, every upload from the screen with a PDF under the size limit is refused with "You must request at least one question.", even with the screen's own default counts, which the checks would accept |
| UploadWire.IntendedCountsChecked | backend/routes/quiz_routes.py:116-138 | with the intended request the handler checks the user's counts, and the screen's defaults of 5 and 5 pass |
| Login.LoginView.constructor | frontend/src/pages/Login.jsx:10-12 | empty fields, no error |
| Login.LoginView.HandleSubmit | frontend/src/pages/Login.jsx:16-27 | the body is exactly email and password; success logs the session in with the access token and goes home; failure shows the detail or "Login failed." with no login and no navigation |
| Register.RegisterView.constructor | frontend/src/pages/Register.jsx:8-11 | empty fields, no error |
| Register.RegisterView.HandleSubmit | frontend/src/pages/Register.jsx:15-25 | the body is exactly username, email and password; success goes to `/login`; failure shows the detail or "Registration failed." |
| Navbar.DisplayName | frontend/src/components/Navbar.jsx:24-27 | nobody is named without a user; otherwise the username if truthy, else the email |
| Navbar.HandleLogout | frontend/src/components/Navbar.jsx:9-12 | logout is applied to the session and the page goes to `/login` |
| Navbar.LogoutClearsName | frontend/src/components/Navbar.jsx:10 | after logout there is no user to name and no stored token |
| Accounts.MatchingRows | backend/routes/user_routes.py:33 | the lookup returns exactly the rows with that email |
| Accounts.Payload | backend/routes/user_routes.py:77-82 | the claims are the row's id, username and email, expiring 24 hours after now |
| Accounts.LoginUser | backend/routes/user_routes.py:60-86 | login succeeds exactly when a row has the email and its hash accepts the password, and then returns the first row's signed claims; every failure is 400 "Invalid email or password." |
| Accounts.GetMe | backend/routes/user_routes.py:89-95 | `/me` returns exactly the claims' user id, username and email |
| Accounts.Register | backend/routes/user_routes.py:29-52 | a taken email gives 400 "Email already registered." with the table unchanged; otherwise one row with the hash is appended and "User registered successfully." is returned |
| Accounts.MatchingAppend | backend/routes/user_routes.py:33 | looking up an email in two parts of the table gives the matches of the first part, then the second |
| Accounts.RegisterKeepsEmailsUnique | backend/routes/user_routes.py:32-50 | registration keeps every email on at most one row |
| Accounts.RegisterAddsOneRow | backend/routes/user_routes.py:40-50 | a successful registration adds exactly one row, at the end; it is the only row with that email and it holds the hash of the password |
| Accounts.RegisterThenLogin | backend/routes/user_routes.py:29-86 | after registering, logging in with the same password yields the new row's claims, provided bcrypt's check accepts a password against its own hash |
| Accounts.LoginFailuresIdentical | backend/routes/user_routes.py:65-74 | an unknown email and a wrong password give the identical response |
| Accounts.LoginThenMe | backend/routes/user_routes.py:77-95 | `/me` given the claims of a login returns that row's identity |
| Accounts.UsersTable.RegisterUser | backend/routes/user_routes.py:29-52 | the table and the reply after `register_user` are those the registration rule specifies |

## Left out

- The prompt wording, `textwrap.dedent` and the final `strip()` of the prompt are left out. `Prompts.Prompt` holds only the variable parts: the notes and the two counts.
- The language-model call, `json.loads` and the double decode are an oracle function from the per-chunk notes and counts to a reply. Its temperature and top_p are floats and are left out.
- PyMuPDF is left out. The extracted text, or the reason the file cannot be read, is an input.
- The authentication dependency `get_current_user` (backend/services/auth.py) is not part of this model. Neither are the 401 it raises and the JWT decoding. `/me` starts from decoded claims.
- bcrypt hashing and checking, the random salt, the clock, JWT signing and the Supabase client are parameters, or a sequence of rows. The id the database assigns is `UsersTable.nextId`.
- Async behaviour is left out: request concurrency, in-flight requests living on after unmount, `asyncio.to_thread`. Every request is one atomic step.
- Session.ActionsKeepConsistent: its clause "a user implies a token" depends on `/me` being atomic. In the source, a logout while `/me` is in flight followed by `.then(res => setUser(res.data))` (frontend/src/contexts/AuthContext.jsx:17) leaves a user with a null token. The model does not capture that interleaving.
- The client's error `detail` is a string or nothing. A FastAPI 422 carries a list there, and that is not modelled.
- React rendering is left out: JSX, CSS classes, `toLocaleDateString` and the batching of state updates. Cards are shown only through `QuizDetail.AllQuestions` and `QuizDetail.IsMcq` (the card exists and has options). The dashboard's View, Edit and Create buttons, the Back to Dashboard buttons and the navbar title only navigate to fixed routes, and are not modelled.
- `window.confirm`, `alert` and `console.error` are left out. They are inputs, or returned alert texts.
- `parseInt` on the number inputs is left out: the counts are integers, and NaN is not modelled.
- The FormData encoding of the numbers and the multipart transport are left out.
- EditQuiz's handlers copy the array shallowly and assign into the shared question objects. The model replaces the whole question (value semantics). The state that results is the same, but the aliasing of the previous state is not represented.
- The MCQ test `current.options` looks at the item's shape. The model instead tags each card by the list it came from.
- frontend/src/App.jsx, backend/main.py and main.py are not part of this model. They only wire routes and routers.
- The AuthProvider's `API_URL` dependency is left out, because it is a constant for the life of the page.
- `CHUNK_SIZE` (backend/routes/quiz_routes.py:21) is declared and never used, so it is not modelled. The chunker always runs with its default of 3500.

## Findings

| source | as written | input that shows it | evidently intended | confidence | as-written member | corrected member |
|---|---|---|---|---|---|---|
| backend/routes/quiz_routes.py:161 | each chunk is passed as a single string to `build_prompt`, whose `"\n\n".join(text_chunks)` (line 56) then iterates the string's characters and puts a blank line between every two of them | the chunk `"ab"` becomes the notes `"a\n\nb"`; a chunk of n characters becomes 3n-2 characters | the chunk's text is used as the notes unchanged, as `build_prompt([chunk], ...)` would give; the handler model keeps the as-written notes | high, not executed | Prompts.AsWrittenSpreadsCharacters | Prompts.ChunkNotes |
| frontend/src/pages/UploadQuiz.jsx:32-33 | the screen sends `num_mcq` and `num_tf` as multipart form fields, but backend/routes/quiz_routes.py:116-117 reads them as query parameters that default to 0, so line 130 refuses the request | a PDF under 10 MiB with the screen's defaults of 5 and 5 gets 400 "You must request at least one question." | the counts the user entered reach the handler's checks, either as query parameters or as form fields on the server | medium, not executed | UploadWire.AsWrittenEveryUploadRefused | UploadWire.IntendedCountsChecked |
