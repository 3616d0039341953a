# SPIROLINK site logic in Dafny

A model of the parts of the SPIROLINK marketing site that make decisions:

- **the chat relay** (`POST /chat` in `chatbot-backend/server.js`): the fixed order of checks, then the choice of system prompt, then the one completion call, then how errors map to 401, 429 or 500. The server's final error middleware is part of it. `ChatRelay.HandleChat` is a pure function. Its inputs are the parsed request body, the environment's API key and how the completion call settles. It returns the completion calls made (zero or one) and the HTTP response.
- **the chat widget** (`src/components/Chatbot.tsx`): four state cells (`messages`, `input`, `isLoading`, `error`) and `sendMessage`. The class `ChatWidget.Chatbot` holds the cells. Its methods are proved equal to the spec functions `Submitted`, `Settled` and `Send`, and the transcript properties are lemmas about those functions. `sendMessage` is split at its `await`: `Submit` is the synchronous part and `Settle` runs after the request settles.
- **the contact form** (`src/pages/Contact.tsx`): field edits, the required-field check, the e-mail regular expression, and the status machine idle / loading / success / error, including the five-second reset to 'idle'.
- **the sign-up and sign-in forms** (`src/components/SignUp.tsx`, `src/components/SignIn.tsx`): the ordered validation chain, then the loading/error protocol around the auth call.

The module `Js` holds the JavaScript semantics these files rely on:
- truthiness and the `a || fallback` idiom;
- `String.prototype.trim` and the regular-expression class `\s` (both use ECMAScript's WhiteSpace and LineTerminator set);
- `String.prototype.length`, which counts UTF-16 code units, so a character outside the Basic Multilingual Plane counts as 2.

Everything outside the handlers is a parameter or a datatype of outcomes:
- the completion API (`UpstreamResult`);
- `fetch` and `response.json()` (`FetchResult`, `PostResult`);
- the Firebase `signUp`/`signIn` calls (`Settlement`);
- the environment variable (`Env`);
- the translation function `t` (`Translations`).

The handler sends the raw, untrimmed `message` upstream (`chatbot-backend/server.js:58`); `ChatRelay.OneCallWithFixedShape` states it.

Quirks of the source that the model keeps:
- An empty-string `context` is falsy, so it selects the default prompt.
- The contact form's required-field check does not trim, so a one-space name passes.
- A truthy `message` that is not a string makes `message.trim()` throw a TypeError inside the handler's `try`. The `catch` block turns it into 500 "Chatbot error: message.trim is not a function" (V8's wording). `ChatRelay.NonStringMessageIsTypeError` states it.
- The sign-up length check counts UTF-16 code units. Three emoji make a long-enough password.
- A reset-to-'idle' timer scheduled by an earlier successful contact submit is never cancelled. It can fire while a later POST is outstanding (`ContactForm.StaleResetDuringPost`).

## Model

| member | source | states |
|---|---|---|
| `Js.Trim` | chatbot-backend/server.js:34 | `trim()` gives the empty string exactly when the input is all ECMAScript whitespace. Otherwise the result neither starts nor ends with whitespace. |
| `Js.TrimStripsEnds` | chatbot-backend/server.js:34 | `trim()` returns the infix of the input left after removing a leading run and a trailing run of ECMAScript whitespace, and nothing else. |
| `Js.Utf16Length` | src/components/SignUp.tsx:28 | `length` is at least the number of code points and at most twice that. It equals the code-point count exactly when every character is in the Basic Multilingual Plane. |
| `Js.Utf16LengthAppend` | src/components/SignUp.tsx:28 | `length` of a concatenation is the sum of the two lengths. Together with the one-character case of `Js.Utf16Length` (1 unit inside the Basic Multilingual Plane, 2 outside), this fixes `length` on every string. |
| `Js.Or` | src/components/Chatbot.tsx:58-67 | JavaScript's logical-or fallback on a string, null or undefined gives the value when it is a non-empty string, and the fallback otherwise. The forms use the same idiom for their error texts. |
| `ChatRelay.SystemPrompt` | chatbot-backend/server.js:44-46 | The system prompt is `context` when it is truthy, and the fixed default text otherwise. |
| `ChatRelay.MapError` | chatbot-backend/server.js:73-89 | A caught error gives 401 exactly when its status is 401, and 429 exactly when its status is 429, each with its fixed advice. Anything else gives 500 "Chatbot error: " + message. |
| `ChatRelay.HandleChat` | chatbot-backend/server.js:29-96 | At most one completion call. The status is one of 200/400/401/429/500. 400 happens exactly when the body parsed and the message is blank, and then there is no call. An unparsable body gives 500 "Internal server error". A call is made exactly when the message is a non-blank string and the key is configured. 200 happens exactly when that call completed, and the reply is passed through. The body is a reply body exactly on 200, and an error body on every other status. |
| `ChatRelay.BlankMessageRejectedFirst` | chatbot-backend/server.js:34-36 | An empty or whitespace-only message gets 400 "Message cannot be empty" with no call, whatever the key configuration. |
| `ChatRelay.NonStringMessageIsTypeError` | chatbot-backend/server.js:34 | A truthy `message` that is not a string makes `message.trim()` throw a TypeError. The `catch` block answers 500 "Chatbot error: message.trim is not a function" and no call is made, whatever the context, the key configuration and the completion API. |
| `ChatRelay.MissingKeyRejected` | chatbot-backend/server.js:38-41 | A valid message with no key gets 500 "API key not configured" and no call. |
| `ChatRelay.OneCallWithFixedShape` | chatbot-backend/server.js:49-63 | A valid request makes exactly one call: model gpt-4o-mini, the messages [system prompt, raw user message] in that order, max_tokens 500, temperature 0.7. |
| `ChatRelay.EmptyContextSelectsDefault` | chatbot-backend/server.js:44 | An empty-string context gives the default system prompt. |
| `ChatRelay.NoCallNoDependence` | chatbot-backend/server.js:34-41 | When no call is made, the response does not depend on what the completion API would have returned. |
| `ChatRelay.ReplyPassedThrough` | chatbot-backend/server.js:65-71 | On completion the response is 200 `{success: true, reply: content, model: "gpt-4o-mini"}` with the content unchanged. |
| `ChatRelay.UpstreamErrorsClassified` | chatbot-backend/server.js:76-88 | A failed call with status 401 gives 401, with status 429 gives 429, and anything else gives 500 embedding the upstream message. |
| `ChatWidget.Submitted` | src/components/Chatbot.tsx:26-54 | A blank input sends nothing and changes nothing. Otherwise the raw input is appended as a user entry, the input becomes "", loading is set, the error is cleared, and the body posted is `{message: input, context: widget context}`. |
| `ChatWidget.FailureMessage` | src/components/Chatbot.tsx:56-73 | Only a failure sets the error. For a non-OK response it is `errorData.error`, or "Failed to get response" when that is falsy. For an exception it is the exception's message. |
| `ChatWidget.BotEntry` | src/components/Chatbot.tsx:64-82 | The appended entry is always bot-role. On success it holds the reply, or the fixed fallback when the reply is falsy. On failure it holds "❌ Error: <msg>. Make sure the backend is running on port 5000." |
| `ChatWidget.Settled` | src/components/Chatbot.tsx:63-85 | Settling appends exactly one bot entry to the unchanged transcript and clears loading on every path. It sets the error only on failure. |
| `ChatWidget.InitialIsQuiescent` | src/components/Chatbot.tsx:6-15 | The initial transcript is the single bot greeting, loading is off and the error is null. |
| `ChatWidget.SubmitThenSettle` | src/components/Chatbot.tsx:32-85 | From a quiescent widget, a non-blank submit leaves one user entry awaiting its reply, and settling restores alternation with loading off. |
| `ChatWidget.AppendAlternating` | src/components/Chatbot.tsx:38 | Appending an entry whose role differs from the last one keeps the transcript alternating after the greeting. |
| `ChatWidget.SendAppendsPair` | src/components/Chatbot.tsx:26-85 | A whole `sendMessage` of non-blank input from a quiescent widget appends exactly the user entry, then the bot entry, and leaves the widget quiescent. |
| `ChatWidget.TurnStep` | src/components/Chatbot.tsx:26-85 | One typed-and-submitted turn from a quiescent widget leaves it quiescent. A blank turn leaves the transcript as it was, and any other turn appends the user entry and then the bot entry. |
| `ChatWidget.SentCount` | src/components/Chatbot.tsx:29 | Counts the turns that post anything. The count is 0 exactly when every text is blank, and equals the number of turns exactly when none is. |
| `ChatWidget.ConverseKeepsTranscript` | src/components/Chatbot.tsx:38-82 | Over any sequence of typed-and-submitted turns, earlier entries are never changed, and each non-blank turn adds exactly two entries. The widget stays quiescent. |
| `ChatWidget.ConversationFromGreeting` | src/components/Chatbot.tsx:6-85 | After N non-blank submits from the start, the transcript has 1 + 2N entries: the greeting, then alternating user and bot entries. Loading is off. |
| `ChatWidget.Deliver` | src/components/Chatbot.tsx:56-67 | The widget treats exactly the 2xx statuses as success. It reads `data.reply` from a reply body and `errorData.error` from an error body. A response from the relay never ends in `Threw` (network failure or a body that is not JSON): a non-OK one is `Refused`, which stands for the throw at Chatbot.tsx:58 and its catch. |
| `ChatWidget.DeliverRelayResponse` | src/components/Chatbot.tsx:56-67 | A relay response reaches the widget intact: a 200 arrives as its reply, and every other status arrives as its error text. |
| `ChatWidget.WidgetRequestAccepted` | src/components/Chatbot.tsx:45-54 | What the widget posts is never rejected with 400 by the relay. The relay calls upstream exactly when its key is configured, with the widget's context as system prompt and the raw input as user message. |
| `ChatWidget.WidgetShowsMissingKey` | src/components/Chatbot.tsx:56-82 | Posted to a relay with no key configured, a non-blank input ends in the bot entry "❌ Error: API key not configured. Make sure the backend is running on port 5000." |
| `ChatWidget.WidgetShowsReply` | src/components/Chatbot.tsx:61-70 | Posted to a relay with a key, when the completion succeeds, a non-blank input ends in a bot entry holding the completion's content, or "Sorry, I couldn't generate a response." when that content is empty or null. |
| `ChatWidget.Chatbot.constructor` | src/components/Chatbot.tsx:6-15 | The cells start in the initial state. |
| `ChatWidget.Chatbot.SetInput` | src/components/Chatbot.tsx:166 | Typing changes only the input cell. |
| `ChatWidget.Chatbot.Submit` | src/components/Chatbot.tsx:26-54 | The synchronous part of `sendMessage` leaves exactly the state and request that `Submitted` gives. |
| `ChatWidget.Chatbot.Settle` | src/components/Chatbot.tsx:56-85 | The part of `sendMessage` after the request settles leaves exactly the state that `Settled` gives. |
| `ChatWidget.Chatbot.SendMessage` | src/components/Chatbot.tsx:26-86 | The whole `sendMessage` is a submit followed, only when something was sent, by a settle. |
| `ContactForm.With` | src/pages/Contact.tsx:23-28 | The named field takes the new value and every other field keeps its old one. |
| `ContactForm.RegexImpliesWellFormed` | src/pages/Contact.tsx:44-45 | A split matching the pattern has no whitespace, exactly one '@', a non-empty local part and an inner '.' in the domain. |
| `ContactForm.WellFormedImpliesRegex` | src/pages/Contact.tsx:44-45 | Such an address matches the pattern. |
| `ContactForm.EmailRegexIff` | src/pages/Contact.tsx:44-45 | `/^[^\s@]+@[^\s@]+\.[^\s@]+$/` accepts exactly the addresses with no whitespace, exactly one '@', a non-empty local part, and a domain with a '.' that is neither its first nor its last character. |
| `ContactForm.SubmitStarted` | src/pages/Contact.tsx:30-52 | The form is never changed here. A POST goes out exactly when name, email and message are non-empty and the e-mail is well formed, and then the status is 'loading' with no error message. Missing fields report the required-fields message, checked before the e-mail message. |
| `ContactForm.SubmitSettled` | src/pages/Contact.tsx:65-88 | Success gives status 'success', resets the form to exactly its initial value and schedules one reset. Failure gives status 'error' with the submit message and keeps the form. |
| `ContactForm.StaleResetDuringPost` | src/pages/Contact.tsx:80 | A pending reset from an earlier success can turn 'loading' into 'idle' while a POST is outstanding. The POST's outcome then still sets the final status. |
| `ContactForm.WhitespaceNamePasses` | src/pages/Contact.tsx:36 | A name of one space passes the untrimmed required-field check, and the form is posted. |
| `ContactForm.NoDomainDotRejected` | src/pages/Contact.tsx:44-51 | "a@b" fails the e-mail check: status 'error' with the e-mail message, and nothing is posted. |
| `ContactForm.SuccessfulSubmitResetsForm` | src/pages/Contact.tsx:71-88 | A valid form is posted as it stands. On success the form becomes exactly its initial value, and on failure it keeps what was typed. |
| `ContactForm.Contact.constructor` | src/pages/Contact.tsx:12-21 | The form is all-empty with service type "general", the status is 'idle' and the error message is empty. |
| `ContactForm.Contact.HandleChange` | src/pages/Contact.tsx:23-28 | Only the named field of the form changes. |
| `ContactForm.Contact.StartSubmit` | src/pages/Contact.tsx:30-52 | Leaves exactly the state and POST body that `SubmitStarted` gives. |
| `ContactForm.Contact.FinishSubmit` | src/pages/Contact.tsx:53-88 | Leaves exactly the state that `SubmitSettled` gives. |
| `ContactForm.Contact.ResetTimerFires` | src/pages/Contact.tsx:80 | A pending reset sets the status to 'idle' and changes nothing else. |
| `SignUpForm.SignUpProblem` | src/components/SignUp.tsx:17-31 | The checks pass exactly when both fields are non-empty, the passwords match, and the password is at least 6 UTF-16 units long. Empty fields are reported first, then a mismatch, then the length. |
| `SignUpForm.ShortMismatchReportsMismatch` | src/components/SignUp.tsx:23-31 | A short password that also mismatches its confirmation reports "Passwords do not match". |
| `SignUpForm.LengthCountsCodeUnits` | src/components/SignUp.tsx:28 | Three astral-plane characters pass the length check, and no accepted password has fewer than 3 characters. |
| `SignUpForm.SignUpStarted` | src/components/SignUp.tsx:13-33 | `signUp` is called, with the current email and password, exactly when the checks pass. Then loading is on and the error is "". Otherwise loading is untouched and the error is the failed check's message. |
| `SignUpForm.SignUpSettled` | src/components/SignUp.tsx:35-42 | Loading is off on both paths. Success navigates to "/". Failure sets the error to the message, or "Failed to create account" when that is falsy. |
| `SignUpForm.LoadingOnlyAroundCall` | src/components/SignUp.tsx:18-42 | From a form that is not loading, loading is on exactly when a call is outstanding, and it is off once the call settles. |
| `SignUpForm.SignUp.constructor` | src/components/SignUp.tsx:6-10 | All fields and the error start empty, and loading starts off. |
| `SignUpForm.SignUp.SetEmail` | src/components/SignUp.tsx:90 | Only the email cell changes. |
| `SignUpForm.SignUp.SetPassword` | src/components/SignUp.tsx:106 | Only the password cell changes. |
| `SignUpForm.SignUp.SetConfirmPassword` | src/components/SignUp.tsx:122 | Only the confirmation cell changes. |
| `SignUpForm.SignUp.StartSignUp` | src/components/SignUp.tsx:13-33 | Leaves exactly the state and call that `SignUpStarted` gives. |
| `SignUpForm.SignUp.FinishSignUp` | src/components/SignUp.tsx:35-42 | Leaves exactly the state and navigation that `SignUpSettled` gives. |
| `SignInForm.SignInStarted` | src/components/SignIn.tsx:12-21 | `signIn` is called exactly when both fields are non-empty, and then loading is on and the error is "". Otherwise the error is "Please fill in all fields" and loading is untouched. |
| `SignInForm.SignInSettled` | src/components/SignIn.tsx:23-30 | Loading is off on both paths. Success navigates to "/". Failure sets the error to the message, or "Failed to sign in" when that is falsy. |
| `SignInForm.LoadingOnlyAroundCall` | src/components/SignIn.tsx:16-30 | From a form that is not loading, loading is on exactly when a call is outstanding, and it is off after it settles, on success and on failure. |
| `SignInForm.SignIn.constructor` | src/components/SignIn.tsx:6-9 | Both fields and the error start empty, and loading starts off. |
| `SignInForm.SignIn.SetEmail` | src/components/SignIn.tsx:78 | Only the email cell changes. |
| `SignInForm.SignIn.SetPassword` | src/components/SignIn.tsx:94 | Only the password cell changes. |
| `SignInForm.SignIn.StartSignIn` | src/components/SignIn.tsx:12-21 | Leaves exactly the state and call that `SignInStarted` gives. |
| `SignInForm.SignIn.FinishSignIn` | src/components/SignIn.tsx:23-30 | Leaves exactly the state and navigation that `SignInSettled` gives. |

## Left out

- Express routing, CORS, `dotenv`, `app.listen` and the OpenAI client object: library plumbing. The completion call is the `UpstreamResult` parameter, and the API key is read from the `Env` parameter on every request.
- `GET /health`: a constant response outside the chat handler.
- Server-side logging (`console.error`) and client-side `console.error`: output only.
- The temperature 0.7 is carried as the exact decimal 7 × 10⁻¹ and never computed with.
- A successful completion with an empty `choices` list, where reading `choices[0]` would throw: `Completed` always carries `choices[0].message.content`, a string or null.
- Transcript entry ids (`Date.now()`): clock-dependent and not guaranteed distinct. Entries keep only role and content. The greeting's id 1 is not modelled.
- Scrolling, open/close toggles and rendering of the chat widget: UI only.
- Submits while a request is outstanding: the widget's input and button are disabled while loading. The turn sequence in `ChatWidget.Converse` has each turn settle before the next one starts, so the double-submit race is not modelled.
- The contact form's `fetch` and `response.json()`: collapsed into `PostResult`. Whatever message a failed POST carries is discarded, as the source discards it.
- The translation function `t`: the i18n provider is not part of this model. It is a map parameter, and a key the map lacks reads as falsy.
- The Firebase `signUp`/`signIn` calls and `src/lib/auth.ts`: collapsed into `Settlement`. The profile document creation behind `signUp` is not modelled.
- Navigation is returned as the target route and not performed.
- Dashboard, Home, WifiNetwork, Header and NetworkBackground: static content and UI, outside the modelled logic.
