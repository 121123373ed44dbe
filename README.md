# Physics chatbot transcript model

The physics chatbot stores one chat transcript per browser session. A fresh
session starts with two fixed entries. The first is a user instruction that
limits the assistant to physics. The second is the model's acknowledgement.
Each time the user submits a prompt, the program does four things:

- it appends the prompt as a user entry;
- it projects the whole transcript into the remote model's history format;
- it sends the same prompt to the remote model as the message to answer;
- it appends the reply, or pops the last entry if anything in lines 78-93 of app.py raised.

Before each prompt is handled, the chat window redraws the stored transcript.
It hides only model entries whose text is the acknowledgement.

The Dafny project has three files.

- `transcript.dfy` (module `Transcript`) holds the pure logic: the `Turn` entry,
  the seed context, the projection `Project`, the display filter `Visible`, and
  the lemmas about them.
- `session.dfy` (module `ChatSession`) holds the session state. The class
  `SessionState` has a `messages` field. Its methods seed it, submit a prompt,
  and run the whole script once. The read-only method `Display` models the
  rendering loop.
- `wrappers.dfy` declares `Option`.

The remote model is a function parameter `remote: Request -> Outcome`. It
receives the projected history and the message, and it returns either
`Reply(text)` or `Failure(error)`.

## Model

| member | source | states |
|---|---|---|
| Transcript.SeedContext | app.py:16-25 | The seed context is exactly two single-part entries: the user instruction "Kamu adalah ahli fisika. Tuliskan rumus tentang fisika. jawaban singkat. Tolak pertanyaan non-fisika." and then the model acknowledgement "Baik! Berikan rumus yang ingin anda ketahui." |
| Transcript.Project | app.py:78-81 | The history has one entry per transcript entry, in order. Parts are copied unchanged. An entry has role "user" in the history iff it has role "user" in the transcript. Every other role becomes "model". |
| Transcript.ProjectAppend | app.py:78-81 | The projection is a per-entry map, so it distributes over concatenation. |
| Transcript.ProjectIdentity | app.py:78-81 | On a transcript whose entries all have role "user" or "model" and one part, the projection returns the transcript unchanged. |
| Transcript.HistoryEndsWithPrompt | app.py:69-81 | The prompt is appended before the history is built. So the history is the projection of the earlier entries followed by the prompt's own user entry, and its last element is that entry. |
| Transcript.Visible | app.py:58-64 | The keep/hide test is the predicate `Shown`. The shown entries are no more than the stored ones. Each one is stored and passes the keep/hide test: a user entry, or a model entry whose text differs from the acknowledgement. |
| Transcript.VisibleComplete | app.py:58-64 | Every stored entry that passes the keep/hide test is shown. This includes every user entry. |
| Transcript.VisibleAppend | app.py:58-64 | The filter decides entry by entry, so it distributes over concatenation. |
| Transcript.SeedVisible | app.py:58-62 | Of the seed context, the window shows the seed instruction and hides the acknowledgement. |
| Transcript.SeededVisible | app.py:54-62 | For a transcript that starts with the seed context, the window shows the seed instruction first and then exactly the shown part of the rest. |
| Transcript.VisibleAfterExchange | app.py:59-62 | After a user entry and a model entry are appended, the window shows what it showed before, then the prompt, then the reply. The reply is hidden when its text equals the acknowledgement. |
| Transcript.Pop | app.py:98 | Removing the last entry gives the list that, with that entry appended, is the original. |
| ChatSession.Display | app.py:58-64 | The loop draws one bubble per shown entry, in order. User entries get the "user" avatar, model entries get the "assistant" avatar, and each bubble shows the entry's first part. |
| ChatSession.SessionState.constructor | app.py:54 | A fresh session holds no transcript. |
| ChatSession.SessionState.InitMessages | app.py:54-55 | A missing transcript is seeded with exactly the instruction and then the acknowledgement. An existing transcript is left as it is: it is never reseeded or truncated. |
| ChatSession.SessionState.Submit | app.py:67-98 | The prompt test is the predicate `Truthy`, which models Python truthiness. An absent or empty prompt sends nothing and changes nothing. A whitespace-only prompt is not rejected. Otherwise exactly one request goes out: the projected transcript including the new user entry, plus the same prompt as the message. On a reply the transcript grows by exactly the user entry and then the model entry, and earlier entries are unchanged. On a failure the transcript equals its value before the call. The entries stay well formed. |
| ChatSession.SessionState.Run | app.py:54-98 | One script run seeds the transcript only if it is missing, draws that transcript, and then performs the submit step on it. |

## Left out

- Page set-up, title, markdown text, spinner and error messages (app.py:30-32, 75, 96) are rendering only and are not modelled.
- ChatSession.SessionState.Submit: does not model a failure in the echo bubble, the chat containers or the spinner (app.py:70-75). These run after the append at app.py:69 but outside the `try`, so such a failure leaves the user entry stored with no reply. The model assumes that rendering never raises.
- The immediate echo of the prompt (app.py:70-71) and of the reply (app.py:90) is not modelled. Those bubbles only appear again through the display loop on the next run.
- Reading the API key from the secret store (app.py:9) and building the Gemini client (app.py:39-51) are left out. This covers the model name, temperature 0.4, the 500-token output cap, and stopping the page when client set-up fails. All of it is configuration and foreign-library I/O.
- The network call (`start_chat` and `send_message` at app.py:84-87, and `response.text` at app.py:90 and 93) is the `remote` parameter. Any exception raised in lines 78-93 is a single `Failure` outcome. The model does not distinguish where the exception was raised.
- The stored list is the seed constant's own list object (app.py:55), so appends also change that constant. The model keeps the transcript as a value sequence.
- The widget that collects the prompt (app.py:67) becomes the `prompt` parameter. `None` means nothing was submitted.
- No `$$...$$` math-formatting helper exists in app.py, so none is modelled.

## Behaviour of the code that a reader might not expect

Each item below describes what the code does. The model follows the code.

- The seed context is meant as hidden set-up, but the code shows the seed instruction on screen. It hides only the acknowledgement (`SeedVisible`). It also hides any later reply whose text equals the acknowledgement (`VisibleAfterExchange`).
- Only a falsy prompt is skipped. A whitespace-only prompt is sent to the model. An empty prompt is skipped silently, with no error message (`Submit`).
- The pop at app.py:98 does not check what it removes. That entry is always the prompt just appended, so the model proves that the pop restores the earlier transcript.
