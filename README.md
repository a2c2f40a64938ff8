# SmartShield: sign-in client and risk pipeline, modelled in Dafny

SmartShield is a body-camera system with two parts. The web client signs users up and in against a Spring Boot backend. A Python pipeline runs an object detector over a video and raises an alert on the first dangerous frame. This project models the logic of both parts and proves properties about it:

- **Credential store** (`Storage`). `tokenStorage` keeps the one bearer credential in the browser's localStorage under `"accessToken"`. It does nothing while the page renders without a window. The store is a datatype with pure operations, and the class `TokenStorage` changes it in place.
- **Request gateway** (`Api`). `apiRequest` builds the URL, the headers and the `credentials: "include"` flag. It then turns the server's answer into a return value or a thrown `Error`. The network is a parameter of each call: a 2xx body, a non-2xx answer (with its JSON body if that parses), or a rejected `fetch`. `signup`, `login` and `refreshToken` persist a credential only when the response reports success and carries one. `logout`, `getCurrentUser`, `getVideos` and `getAnalysis` sit on the same gateway.
- **Auth context** (`Session`). `AuthProvider` holds `user` and `loading`. `refreshUser` and `logout` are methods of a class, proved against the specification functions `Refreshed` and `LoggedOut`. Lemmas over arbitrary sequences of refreshes, logouts and credential writes show two things: a user is held only while a credential is stored, and loading never restarts.
- **Pages** (`Forms`, `LoginPage`, `SignupPage`, `ProfileEditPage`). Each page is a class with its React state as fields. A submit handler returns the ordered log of what it does (the request sent, the `refreshUser` that follows, the navigation). Its contract fixes that log, the error text shown and the new session for every outcome. This includes the password rule and the order in which its messages are reported.
- **Risk assessment** (`Risk`). `assess_risk` scores the boxes of one frame. The score counts class weight, confidence points, a continuity bonus taken from a per-class history deque of length 5, and a size bonus. The score becomes LOW/MEDIUM/HIGH, and the main class is the first gun or knife. The method keeps both of the source's loops and is proved against `Scan`, `Score`, `MainClass` and `Judge`.
- **Pipeline** (`Pipeline`). This covers the S3 key format of `make_s3_key` and the presign-and-PUT retry loop of `upload_to_s3_with_retry`. It also covers the frame window of `save_clip` and the frame loop of `main`, whose `clip_triggered` latch raises at most one alert, at the first HIGH frame.

The detector's floating-point outputs are abstracted. A box carries `int(conf * 40)` as a whole number of points and `area_ratio > 0.03` as a flag. Seconds are whole frame counts (`tenSeconds` is `10 * fps`, `minFrames` is `int(3 * fps)`). The primary class of an alert is `main_cls` itself: `(main_cls or "unknown").lower()` is the identity on the values `assess_risk` returns (`"gun"`, `"knife"`, `"unknown"`).

The model follows the code in three places where a reader might expect otherwise:

- A non-2xx response makes `apiRequest` throw. The error is not returned as a `success: false` body.
- A rejected `fetch` is rethrown as is. Only an unparsable error body yields "Network error".
- `api.logout` removes the credential only when its request returns. The context's `finally` removes it in every case.

## Model

| member | source | states |
|---|---|---|
| `Storage.Token` | AI_objectDetection/SmartShield/lib/api.ts:36-41 | with no window the result is null; otherwise it is the value stored under "accessToken", and null exactly when that key is absent |
| `Storage.Put` | AI_objectDetection/SmartShield/lib/api.ts:42-46 | with a window the credential read back is the one written; without a window nothing changes; every other localStorage key is untouched |
| `Storage.Delete` | AI_objectDetection/SmartShield/lib/api.ts:47-51 | afterwards no credential can be read; nothing changes without a window; every other key is untouched |
| `Storage.DeleteIdempotent` | AI_objectDetection/SmartShield/lib/api.ts:47-51 | removing twice is the same as removing once |
| `Storage.LastPutWins` | AI_objectDetection/SmartShield/lib/api.ts:42-51 | a second write replaces the first, and a removal undoes any write: the store holds one credential at most |
| `Storage.TokenStorage.constructor` | AI_objectDetection/SmartShield/lib/api.ts:35 | the object starts out as the store it is given |
| `Storage.TokenStorage.Get` | AI_objectDetection/SmartShield/lib/api.ts:36-41 | `get()` returns the credential of the current store |
| `Storage.TokenStorage.Set` | AI_objectDetection/SmartShield/lib/api.ts:42-46 | `set(token)` changes the store exactly as `Put` |
| `Storage.TokenStorage.Remove` | AI_objectDetection/SmartShield/lib/api.ts:47-51 | `remove()` changes the store exactly as `Delete` |
| `Api.BaseUrl` | AI_objectDetection/SmartShield/lib/api.ts:1 | the base URL is the environment's value when it is set and non-empty, else "http://localhost:8080/api"; never empty |
| `Api.Headers` | AI_objectDetection/SmartShield/lib/api.ts:58-65 | the keys are Content-Type, the caller's keys and Authorization exactly when a truthy credential is stored; Content-Type is JSON unless the caller overrides it; Authorization is "Bearer " + credential, and otherwise the caller's own value; the caller's other headers are kept |
| `Api.FailureMessage` | AI_objectDetection/SmartShield/lib/api.ts:73-76 | the thrown message is never empty: "Network error" for an unparsable body, the body's message when truthy, otherwise "API request failed" |
| `Api.Prepare` | AI_objectDetection/SmartShield/lib/api.ts:56-71 | the request goes to base URL + endpoint with the caller's method and body and credentials "include"; it carries Authorization exactly when a non-empty credential is stored (unless the caller set it), with value "Bearer " + credential |
| `Api.Settle` | AI_objectDetection/SmartShield/lib/api.ts:73-78 | `apiRequest` returns exactly for a 2xx answer, and returns its body; a non-2xx answer throws an Error whose message is `FailureMessage` of its body and never empty; a rejected fetch rethrows what it threw |
| `Api.ApiRequest` | AI_objectDetection/SmartShield/lib/api.ts:55-79 | the request goes to base URL + endpoint with credentials "include" and carries Authorization exactly when a non-empty credential is stored; a 2xx answer returns its body, a non-2xx one throws an Error with `FailureMessage`, a rejected fetch rethrows; the store is not written |
| `Api.Persist` | AI_objectDetection/SmartShield/lib/api.ts:88-90 | the store after signup, login or refreshToken: unchanged unless the call returned a successful response carrying a non-empty credential, and then (with a window) that credential is stored |
| `Api.PersistGate` | AI_objectDetection/SmartShield/lib/api.ts:88-90 | the stored credential changes only after a returned response with `success` that carries that very credential; other keys never change; with a window such a response is always stored |
| `Api.Authenticate` | AI_objectDetection/SmartShield/lib/api.ts:82-93 | sends the request built from the old store, settles as `apiRequest` does, and leaves the store as `Persist` says |
| `Api.Signup` | AI_objectDetection/SmartShield/lib/api.ts:82-93 | POST "/auth/signup" with the signup body; the outcome and the credential write follow `Settle` and `Persist` |
| `Api.Login` | AI_objectDetection/SmartShield/lib/api.ts:96-107 | POST "/auth/login" with the login body; the outcome and the credential write follow `Settle` and `Persist` |
| `Api.RefreshToken` | AI_objectDetection/SmartShield/lib/api.ts:120-130 | POST "/auth/refresh" with no body; the outcome and the credential write follow `Settle` and `Persist` |
| `Api.Logout` | AI_objectDetection/SmartShield/lib/api.ts:110-117 | POST "/auth/logout"; the credential is removed when the request returns and kept when it throws |
| `Api.AfterLogout` | AI_objectDetection/SmartShield/lib/api.ts:110-117 | after `logout` returns no credential can be read; after it throws the store is unchanged; other keys are untouched either way |
| `Api.GetCurrentUser` | AI_objectDetection/SmartShield/lib/api.ts:133-135 | a GET of "/auth/me" with no body from the current store; the outcome is `Settle` of the answer |
| `Api.GetVideos` | AI_objectDetection/SmartShield/lib/api.ts:138-140 | a GET of "/users/videos" from the current store; the outcome is `Settle` of the answer |
| `Api.GetAnalysis` | AI_objectDetection/SmartShield/lib/api.ts:143-145 | a GET of "/users/analysis" from the current store; the outcome is `Settle` of the answer |
| `Session.Initial` | AI_objectDetection/SmartShield/contexts/auth-context.tsx:23-24 | a provider starts with no user and loading set |
| `Session.LookupFor` | AI_objectDetection/SmartShield/contexts/auth-context.tsx:27-36 | `refreshUser` makes no lookup exactly when no truthy credential is stored; a lookup it makes presents "Bearer " + the stored credential |
| `Session.Refreshed` | AI_objectDetection/SmartShield/contexts/auth-context.tsx:26-50 | loading ends; a user is set exactly when a non-empty credential is stored and the lookup returns success with data, and then it is that data and the store is kept; with no non-empty credential the store is left as it was; otherwise a failed or thrown lookup removes the credential; afterwards a user is held exactly when a non-empty credential is stored |
| `Session.LoggedOut` | AI_objectDetection/SmartShield/contexts/auth-context.tsx:52-61 | no user and no credential remain, whatever the server answered; loading is unchanged |
| `Session.LogoutIsUnconditional` | AI_objectDetection/SmartShield/contexts/auth-context.tsx:52-61 | the provider's logout ends in the same state for every server answer, namely one plain removal |
| `Session.StepKeepsConsistent` | AI_objectDetection/SmartShield/contexts/auth-context.tsx:26-61 | a refresh, a logout or a credential write keeps "a user only with a stored credential" |
| `Session.RunKeepsConsistent` | AI_objectDetection/SmartShield/contexts/auth-context.tsx:22-61 | every sequence of refreshes, logouts and credential writes keeps that invariant |
| `Session.LoadingNeverResumes` | AI_objectDetection/SmartShield/contexts/auth-context.tsx:24-50 | once loading has ended, no sequence of events sets it again |
| `Session.SettlesAfterRefresh` | AI_objectDetection/SmartShield/contexts/auth-context.tsx:26-61 | after any history, a refresh ends loading and a logout leaves no user and no credential |
| `Session.AnonymousRefreshIdempotent` | AI_objectDetection/SmartShield/contexts/auth-context.tsx:27-33 | without a credential a refresh ignores the network, leaves no user, and repeating it changes nothing |
| `Session.LoginThenRefresh` | AI_objectDetection/SmartShield/lib/api.ts:96-107 | after a login that issued credential t, the next `/auth/me` lookup presents "Bearer t", and a successful answer for u signs u in |
| `Session.AuthProvider.constructor` | AI_objectDetection/SmartShield/contexts/auth-context.tsx:22-24 | the new provider is in the initial state over the given store |
| `Session.AuthProvider.RefreshUser` | AI_objectDetection/SmartShield/contexts/auth-context.tsx:26-50 | the provider and store end as `Refreshed` says, and the lookup made is `LookupFor` of the old store |
| `Session.AuthProvider.Logout` | AI_objectDetection/SmartShield/contexts/auth-context.tsx:52-61 | the provider and store end as `LoggedOut` says |
| `Session.Mount` | AI_objectDetection/SmartShield/contexts/auth-context.tsx:63-65 | mounting creates a provider over the store and runs one refresh from the initial state |
| `Session.UseAuth` | AI_objectDetection/SmartShield/contexts/auth-context.tsx:70-76 | throws "useAuth must be used within an AuthProvider" exactly when no provider is in scope, otherwise returns it |
| `Forms.CaughtMessage` | AI_objectDetection/SmartShield/app/login/page.tsx:37 | a caught Error shows its own message, any other thrown value the page's fallback |
| `Forms.RejectionMessage` | AI_objectDetection/SmartShield/app/login/page.tsx:34 | a rejected response shows its message when non-empty, else the page's fallback; never empty |
| `Forms.PasswordProblem` | AI_objectDetection/SmartShield/app/signup/page.tsx:39-48 | no problem exactly when both passwords match and have at least 6 characters; a mismatch is reported before a short password |
| `LoginPage.LoginPage.constructor` | AI_objectDetection/SmartShield/app/login/page.tsx:17-20 | the page starts with empty fields, no error, not loading |
| `LoginPage.LoginPage.HandleSubmit` | AI_objectDetection/SmartShield/app/login/page.tsx:22-41 | the login request is sent with loading set and the error cleared; on success the user is refreshed and then the page navigates to "/"; a rejection or a throw shows its message; loading ends in every case |
| `SignupPage.WithField` | AI_objectDetection/SmartShield/app/signup/page.tsx:28-33 | the named field takes the value and every other field keeps its own |
| `SignupPage.SignupRequestBody` | AI_objectDetection/SmartShield/app/signup/page.tsx:53-59 | the body carries every field of the form except the confirmation |
| `SignupPage.SignupPage.constructor` | AI_objectDetection/SmartShield/app/signup/page.tsx:17-26 | the page starts with an empty form, no error, not loading |
| `SignupPage.SignupPage.HandleChange` | AI_objectDetection/SmartShield/app/signup/page.tsx:28-33 | an input change updates only its own field |
| `SignupPage.SignupPage.HandleSubmit` | AI_objectDetection/SmartShield/app/signup/page.tsx:35-72 | a password problem shows its message and sends nothing, leaving loading and the session untouched; otherwise it behaves as the login submit, against "/auth/signup" with the form's body |
| `ProfileEditPage.WithField` | AI_objectDetection/SmartShield/app/profile/edit/page.tsx:40-45 | the named field takes the value and every other field keeps its own |
| `ProfileEditPage.ProfileProblem` | AI_objectDetection/SmartShield/app/profile/edit/page.tsx:52-62 | with both password fields empty there is no problem; otherwise a mismatch is reported first, and a non-empty matching password shorter than 6 is too short |
| `ProfileEditPage.ProfileEditPage.constructor` | AI_objectDetection/SmartShield/app/profile/edit/page.tsx:17-26 | the page starts with an empty form, no messages, not submitting |
| `ProfileEditPage.ProfileEditPage.OnSession` | AI_objectDetection/SmartShield/app/profile/edit/page.tsx:28-38 | an anonymous visitor is sent to "/login" once loading is over; a signed-in user's name is prefilled; nothing happens while loading |
| `ProfileEditPage.ProfileEditPage.HandleChange` | AI_objectDetection/SmartShield/app/profile/edit/page.tsx:40-45 | an input change updates only its own field |
| `ProfileEditPage.ProfileEditPage.HandleSubmit` | AI_objectDetection/SmartShield/app/profile/edit/page.tsx:47-80 | a password problem clears the success message and shows its own; the form, `submitting` and the log are unchanged; otherwise the success message is shown, the move to "/profile" is scheduled and submitting ends cleared |
| `Risk.Pushed` | pyPipe.py:173 | appending to a deque of length 5 grows it by one until it is full, then keeps it at 5; the new record is at the right end |
| `Risk.PushedKeepsNewest` | pyPipe.py:173 | the deque keeps the newest records in arrival order, dropping the oldest when full |
| `Risk.Scan` | pyPipe.py:125-135 | the first loop annotates every box, one object per box |
| `Risk.ScanAnnotates` | pyPipe.py:125-135 | each object keeps its box's class, confidence and size and has a continuity count between 1 and 5; histories never exceed 5 records |
| `Risk.Points` | pyPipe.py:139-148 | one detection adds between 0 and 100, at least 40 for a gun and 25 for a knife |
| `Risk.Score` | pyPipe.py:137-148 | the frame's score is between 0 and 100 per detection |
| `Risk.MainClass` | pyPipe.py:138-143 | a main class, when set, is a gun or a knife |
| `Risk.FirstWeapon` | pyPipe.py:139-143 | the index of the first gun or knife: none before it, a weapon at it |
| `Risk.MainClassIsFirstWeapon` | pyPipe.py:138-143 | the main class is the class of the first weapon in detection order, and absent exactly when there is none |
| `Risk.LevelOf` | pyPipe.py:150-154 | HIGH exactly when the score is at least 70, MEDIUM from 40 to 69, LOW below 40 |
| `Risk.LevelMonotone` | pyPipe.py:150-154 | a higher score never gives a lower level |
| `Risk.Judge` | pyPipe.py:150-154 | an empty frame is (LOW, "unknown"); the reported class is "unknown", "gun" or "knife" |
| `Risk.ScoreCoversEach` | pyPipe.py:137-148 | the score is at least what any single detection adds |
| `Risk.ScorePrefixMonotone` | pyPipe.py:139-148 | a further detection never lowers the running score |
| `Risk.GunIsNeverLow` | pyPipe.py:140-154 | a frame with a gun is never LOW |
| `Risk.TrackMemory.constructor` | pyPipe.py:173 | the history starts empty |
| `Risk.TrackMemory.Append` | pyPipe.py:133-134 | the class's deque receives the record and the others are untouched; the returned count is its new length, between 1 and 5 |
| `Risk.Tally` | pyPipe.py:137-148 | the second loop computes exactly `Score` and `MainClass` of the annotated boxes |
| `Risk.Assess` | pyPipe.py:122-154 | the histories and verdict of one frame: an empty frame gives (LOW, "unknown") and leaves the histories alone; the class is "unknown", "gun" or "knife"; histories stay at most 5 long |
| `Risk.AssessRisk` | pyPipe.py:122-154 | the histories and the returned (level, class) are those of `Scan` and `Judge` |
| `Pipeline.MakeS3Key` | pyPipe.py:42-44 | the key starts with "{date}/{camera}/clips/" and ends with ".mp4" |
| `Pipeline.KeySegments` | pyPipe.py:42-44 | when no part contains '/', the key splits into exactly date, camera, "clips" and the file name |
| `Pipeline.UploadWithRetry` | pyPipe.py:54-66 | it stops after at most `max_retry` + 1 rounds; every round before the last was a 401/403; it succeeds exactly when the last PUT answered 200/201, with that round's file URL; otherwise it fails with that round's error; a final 401/403 fails only after the retries are used up |
| `Pipeline.ClipWindow` | pyPipe.py:97-100 | the start is clamped at 0 and the end at the frame count; an empty window is widened to the minimum length, cut at the frame count; a start inside the video gives a non-empty window |
| `Pipeline.CopyFrames` | pyPipe.py:105-113 | the frames written are the consecutive frames from the start, as many as the window and the readable frames allow |
| `Pipeline.SaveClip` | pyPipe.py:97-113 | the clip holds consecutive frames of the window, all inside the video |
| `Pipeline.Replay` | pyPipe.py:175-182 | one verdict per frame, each from `assess_risk` with the shared history |
| `Pipeline.FirstHigh` | pyPipe.py:184 | the index of the first HIGH verdict: none before it, HIGH at it |
| `Pipeline.Latch` | pyPipe.py:184-187 | one frame of the latch: once armed it never changes; unarmed, it arms exactly on a HIGH verdict, with one alert at that frame, its class, and the clip start ten seconds earlier but not before 0 |
| `Pipeline.Alerts` | pyPipe.py:184-187 | the latch raises at most one alert |
| `Pipeline.AlertAtFirstHigh` | pyPipe.py:172-187 | exactly one alert when some frame is HIGH, at the first such frame, with the clip starting ten seconds earlier but not before 0; no alert otherwise |
| `Pipeline.Monitor` | pyPipe.py:171-190 | the frame loop raises at most one alert, and it is the alert `Alerts` gives for the replayed verdicts |

## Left out

- Browser, network and process I/O: `fetch`, `localStorage`, `cv2` capture and writing, the YOLO model, `requests`, file opening, `time.sleep`, `print` and window display. Each becomes a parameter (the network answer, `hasWindow`, the boxes per frame, the readable frame count, the server's answer per upload round) or is dropped.
- The JSON payload itself. The model sends a datatype, not the `JSON.stringify` text.
- A success body that does not parse as JSON (`response.json()` rejecting on a 2xx answer). It is folded into `Rejected`.
- A `null` error body. A JSON body is modelled as an object with an optional message.
- Concurrency. React state updates are applied at once, and interleaved `refreshUser`/`logout` calls are not modelled.
- Rendering and timers. JSX, the loading/redirect screens and `setTimeout` are left out (the delayed push is recorded as `NavigateLater`).
- Navigation by `router.push` is a log entry.
- `ProfileEditPage.ProfileEditPage.HandleSubmit`: its `catch` cannot fire, because nothing in the `try` throws and the page does not call the backend yet.
- `ProfileEditPage.ProfileEditPage.OnSession`: the model's `User.name` is always a string, so `user.name || ""` is just `user.name`.
- `Forms.PasswordProblem`: lengths count characters. JavaScript counts UTF-16 code units.
- `Risk.Points`: the detector's floating-point confidence, box coordinates and frame size are abstracted. Confidence is the whole number `int(conf * 40)`, and size is the flag `area_ratio > 0.03`.
- `Pipeline.Monitor`: does not model the alert's side effects or their failures. `save_clip`, the upload, `notify_event_complete` and a failing `os.makedirs` would each abort `main`. The 'q' key that stops the loop is not modelled either. The loop runs over all given frames.
- `Pipeline.UploadWithRetry`: the presign request and the local file are not read. A presign failure and a raising PUT are outcomes of the round.
- `Pipeline.SaveClip`: opening the capture, the 50% resize and the final file-size check are left out. Seconds are converted to frames by the caller.
- `notify_event_complete`, `now_event_id`, `request_presigned_url` and `pipe.py` are not part of this model. They are calls into the backend, the clock and the network.
- The Java backend (controllers and DTOs) is not part of this model. Its response shapes are the `AuthResponse` and `ApiResponse` datatypes.
- The `if not ok_upload` check in `main` cannot fire, because the upload either returns `True` or raises.
