# AI Anchor front end: topic state and generation outcomes

AI Anchor's front end is a single Streamlit page (`frontend.py`). The user
types one topic, picks a content source ("both", "news" or "reddit") and
presses "Generate Video". The page then posts the request to the backend and
shows either the produced video or one error message. This project models
the two pieces of logic on that page:

- **Topic session state** (module `Session`, class `TopicSession`). This is
  the session's topic list and the `input_key` counter that names the
  topic text box. It also covers the gating of the "Add", remove and
  "Generate Video" buttons and what each press changes. The class
  invariant says the list holds at most one topic, and every held topic is
  non-empty and already stripped. A press on a disabled or absent button
  is a call that changes nothing and returns `false`.
- **Generation outcome** (module `Generation`). `Attempt` maps whatever
  `requests.post` produced to the one outcome the page displays. That
  input is either a response (status code, JSON-decoded body or the
  decoder's failure, raw text) or a raised exception. The code's
  `try`/`except` structure is kept explicit: `OnOk` and `HandleApiError`
  return a `Result` that may carry a Python exception, and `Attempt`
  applies the two outer handlers. `RouteOf` is an independent, flat
  classification of the reply into six routes. `OutcomeShowsRoute` proves
  that the displayed outcome always reveals its route.

Supporting modules: `PyText` models Python's `str.strip()` and `str()` of
an integer. `Json` models the decoded body as a Python value, with
`dict.get`, truthiness, `str()`/`repr()` and the type name quoted in an
`AttributeError`.

What the code does on these points:

- Success needs status exactly 200. A 201 goes to the API error handler.
- A list-shaped `detail` is shown as Python's `str` of the list.
- The raw body is shown in full.
- A read timeout is an ordinary unexpected error, handled by the generic `except Exception`.
- The page calls only the video endpoint. It has no phase machine and no reset.

## Model

The functions that mirror the code (`Generation.Attempt` for
frontend.py:71-100, `Generation.OnOk` for 80-94, `Generation.HandleApiError`
for 103-108, and the button gates `TopicSession.AddDisabled` for line 44,
`TopicSession.RemoveOffered` for 53-56 and `TopicSession.GenerateDisabled`
for 69) carry no contract of their own. What they do is stated by the lemmas
about `Attempt` (`OutcomeShowsRoute` through `NonObjectIsUnexpected`) and by
the contracts of `Add`, `Remove` and `Generate`.

| member | source | states |
|---|---|---|
| `PyText.Strip` | frontend.py:44-46 | `strip()` returns a slice of the input with only whitespace cut off before and after it. The result has no whitespace at either end. It is empty exactly when the input is all whitespace. |
| `PyText.StripIsMiddle` | frontend.py:44-46 | What `strip()` keeps is one contiguous slice of the input, and everything before and after it is whitespace. |
| `PyText.StripFixpoint` | frontend.py:44-46 | A string equals its own strip exactly when it is empty or has no whitespace at either end. |
| `PyText.StripIdempotent` | frontend.py:46 | Stripping a stripped topic again changes nothing, so every stored topic equals its own strip. |
| `PyText.Decimal` | frontend.py:41 | `str(n)` is one or more decimal digits, a single digit exactly when n < 10, with no leading zero. |
| `PyText.DecimalRoundTrip` | frontend.py:41 | Reading back the digits of `str(n)` gives n. |
| `PyText.DecimalInjective` | frontend.py:41 | Different counters render as different digit strings. |
| `Json.Get` | frontend.py:82 | `dict.get(key)` is None exactly when no entry has that key. Otherwise it returns a value stored under that key. |
| `Json.GetOr` | frontend.py:105 | `dict.get(key, default)` gives the default when the key is absent, and a stored value when it is present. |
| `Json.PyStr` | frontend.py:106 | An f-string inserts a string `detail` verbatim. It shows null as "None", a bool as "True"/"False" and an integer as its decimal digits. A list or dict `detail` appears as its bracketed repr. |
| `Generation.SourceOptionsComplete` | frontend.py:25-30 | The source box offers every source type and preselects "both" (index 0). Distinct source types send distinct `source_type` strings. |
| `Generation.OutcomeShowsRoute` | frontend.py:71-108 | Every attempt yields exactly one outcome. That outcome (the video, or the first character of the message) tells which of the six routes the reply took. |
| `Generation.SuccessExactly` | frontend.py:80-92 | The video is shown for URL u if and only if the status is 200, the body is a JSON object and its `video_url` is u and truthy. |
| `Generation.MissingVideoUrl` | frontend.py:80-94 | Status 200 with `video_url` missing or falsy shows "No video URL returned by the server." |
| `Generation.RejectedReportsDetail` | frontend.py:103-106 | Any other status with a JSON object body shows `API Error (<status>): <detail>`, with "Unknown error" when `detail` is absent. |
| `Generation.UnreadableShowsText` | frontend.py:107-108 | Any other status whose body does not decode shows `Unexpected API Response: <raw text>`. |
| `Generation.ConnectionErrorIsUnreachable` | frontend.py:97-98 | A connection error shows the fixed "Backend server is unreachable" message, whatever its text. |
| `Generation.OtherFaultIsUnexpected` | frontend.py:99-100 | Any exception from the call that is not a connection error shows `Unexpected Error: <str(e)>`. |
| `Generation.UndecodableOkIsUnexpected` | frontend.py:80-81 | On status 200 a body that does not decode escapes to the generic handler. It shows `Unexpected Error:` with the decoder's message. |
| `Generation.NonObjectIsUnexpected` | frontend.py:82 | A JSON body that is not an object has no `.get`, on any status. The AttributeError escapes `handle_api_error` and shows `Unexpected Error: '<type>' object has no attribute 'get'`. |
| `Session.InputWidgetKeyInjective` | frontend.py:39-42 | Distinct counter values give distinct `topic_input_<n>` widget keys. |
| `Session.TopicSession.constructor` | frontend.py:16-19 | A new session starts with no topics and counter 0. |
| `Session.TopicSession.Add` | frontend.py:44-47 | The press takes effect if and only if fewer than one topic is held and the stripped input is non-empty. It then appends exactly the stripped input, adds 1 to the counter, and leaves a text-box key never used before. Otherwise nothing changes. The invariant (at most one topic, each non-empty and stripped) is kept. |
| `Session.TopicSession.Remove` | frontend.py:53-57 | The press takes effect if and only if the index is below both the list length and 3. It then deletes that entry and keeps the others in order. The counter is never touched. |
| `Session.TopicSession.Generate` | frontend.py:69-79 | Nothing is sent while the list is empty. Otherwise the request goes to `/generate-news-video` with timeout 300 and the chosen `source_type`, carries the held topics (exactly one, non-empty), and the page shows `Attempt` of the reply. |

## Left out

- All Streamlit rendering is left out: page setup, titles, markdown, columns, sidebar, spinner, the success banner, `st.video` and the download link. The model keeps only the outcome those widgets display.
- `st.rerun()` and the re-render loop are left out. Each button press is one method call.
- The `format_func` display labels of the source box are left out. They are presentation only.
- `requests.post` itself, `BACKEND_URL` and the socket timeout are left out. The network is the `backend` parameter of `Generate`. Exception texts from the network are inputs.
- Streamlit widget calls inside the `try` block are assumed not to raise. That includes `st.video` on a truthy `video_url` that is not a string. The model shows a success carrying whatever value `video_url` held.
- JSON numbers are integers only. Floating-point values are not modelled.
- A JSON object is modelled as a Python dict whose keys are already unique. How the decoder merges duplicate keys is not modelled: on a repeated key `Json.Get` returns the first entry, whereas Python's decoder keeps the last.
- Json.PyStr: for lists and dicts the contract states only the enclosing brackets. The full `repr` is given by `Json.Repr`. That `repr` escapes only backslashes, the quote and `\n`, `\r`, `\t`, not Python's other escapes of non-printable characters.
