# PII-safe chat: conversation history model

This project models, in Dafny, the conversation state machine of the PII-safe chat
application (`app.py`). A single process-wide history of turns starts as a fixed
two-turn preamble. The "New chat" button resets the history to that preamble. Each
submitted message goes through the same steps in the same order:

1. The message is anonymised.
2. The anonymised text is appended as a `user` turn.
3. The whole history is sent to the chat-completion service.
4. The reply is appended as an `assistant` turn.
5. The visible transcript is returned. It pairs consecutive turns from index 2 on and drops a last turn that has no partner.

Files:

- `wrappers.dfy` defines `Option` and `Result`. They stand for a call that raised an exception.
- `history.dfy` (module `History`) defines turns, the preamble and the well-formedness invariant. It also defines the transcript projection and its lemmas.
- `app.dfy` (module `App`) defines `PredictStep`. It is a pure description of one submission, with lemmas about it. The module also holds the class `ChatSession`. It keeps the history as a field that its methods replace. `ClearHistory` and `Predict` are proved against the preamble and `PredictStep`.

The anonymiser (`analyze_and_anonymize`) and the completion service are external. They
are modelled as deterministic functions that the session is created with. Each one
returns `None` when the call raises. A raised anonymiser becomes
`Failure(DetectionError)`. A raised completion call, or a failure to read its first
choice, becomes `Failure(TransportError)`. The source has no handlers, so the exception
simply propagates to the caller. The model's error results stand for that propagation.

The transcript projection follows the code, `range(2, len(message_history) - 1, 2)`. It
pairs turns by position and not by role. When the completion call raises, the user turn
stays in the history with no reply. The next completed submission then displays the two
user messages as one pair, and its reply stays hidden (`MisalignedAfterTransportFailure`).
This matches the function's own description, "pairs of consecutive messages"
(app.py:127-132, app.py:170-171).

## Model

| member | source | states |
|---|---|---|
| History.Preamble | app.py:113-116 | The preamble is exactly a `user` turn "You are an assistant." followed by an `assistant` turn "OK". It is a well-formed history, and it displays as an empty transcript. |
| History.PairsFrom | app.py:172-175 | Pairing from index i yields (\|h\| - i) / 2 pairs. Pair k holds the contents of turns i + 2k and i + 2k + 1, both of which exist. |
| History.Transcript | app.py:170-175 | For a history of length L >= 2, the transcript has (L - 2) / 2 pairs, and pair k is (h[2+2k].content, h[3+2k].content). A shorter history gives none. The preamble is never shown. |
| History.TranscriptAppendPair | app.py:165-175 | Appending two turns to a history of even length >= 2 grows the transcript by exactly one pair. That pair holds their two contents, and the earlier pairs are unchanged. |
| History.TranscriptOmitsTrailing | app.py:172-175 | A trailing turn with no partner, after a history of even length, is not displayed. The transcript is unchanged. |
| History.TranscriptIgnoresPreamble | app.py:170-175 | Two histories that agree from index 2 on display the same transcript, whatever their first two turns hold. |
| History.WellFormedPairsAreExchanges | app.py:150-175 | In a well-formed history, every displayed pair is a `user` turn followed by an `assistant` turn. |
| History.WellFormedAppendExchange | app.py:150-168 | Appending a `user` turn and then an `assistant` turn keeps a history well-formed: it starts with the preamble, roles alternate, and its length is even and at least 2. |
| History.PairingExample | app.py:172-175 | Preamble, user A, assistant B, user C displays exactly [(A, B)]. |
| App.PredictStep | app.py:146-178 | A submission only appends, at most two turns, and leaves every earlier turn unchanged. It appends at least the user turn whenever anonymisation succeeded. On any history, the first appended turn is the `user` turn holding the anonymised input, and the second is the `assistant` turn holding the reply to the request sent. A failure is a detection error exactly when the anonymiser raised. The completion service is contacted exactly when anonymisation succeeded. Once a request was sent, the submission succeeds exactly when the completion call returned. It succeeds exactly when both turns were appended, and it then returns the transcript of the new history. |
| App.PredictFailsClosed | app.py:146-155 | If the anonymiser raises, the history is unchanged and nothing is sent. The result is a detection error. |
| App.PredictSendsRedacted | app.py:146-160 | The appended user turn is the anonymised text. The request holds the model "gpt-3.5-turbo" and the old history, preamble included, followed by that turn. |
| App.PredictDependsOnlyOnRedacted | app.py:146-168 | Two inputs with the same anonymisation yield identical stored history, sent request and response. The raw input reaches neither the history nor the service. |
| App.PredictKeepsRedacted | app.py:146-160 | If every stored user turn after the preamble is anonymiser output, this still holds after a submission. It also holds for every user turn in the request sent. |
| App.PredictCompletes | app.py:146-178 | On a well-formed history, a completed submission appends the user turn and then the assistant turn, and the history stays well-formed. It returns the old transcript plus the one pair (anonymised input, reply). |
| App.PredictTransportFailure | app.py:157-163 | On any history, if the completion call raises, the anonymised user turn stays appended with no reply and the result is a transport error. On a history of even length at least 2, the length becomes odd and the transcript is unchanged. On a longer history of odd length (left by an earlier failure), the transcript gains the pair (last earlier turn, anonymised input). |
| App.MisalignedAfterTransportFailure | app.py:157-175 | After a failed completion call, the next completed submission displays (first user text, second user text) as a pair. The history is no longer well-formed. |
| App.ChatSession.constructor | app.py:119-123 | The initial history is the preamble, which is the same state a reset produces. It is well-formed, and its transcript is empty. |
| App.ChatSession.ClearHistory | app.py:89-116 | After a reset, the history is exactly the preamble, whatever it held before, so a reset is idempotent. The redaction invariant is kept. |
| App.ChatSession.Predict | app.py:126-178 | The new history and the response are those of `PredictStep` on the old history. The request sent is recorded. A completed submission keeps a well-formed history well-formed, and the redaction invariant is kept. |

## Left out

- The internals of `analyze_and_anonymize` (app.py:53-86) are not modelled. They are calls into the Presidio analyzer and anonymizer engines: span detection, the list of 17 entity kinds, the language "en" and placeholder substitution. The model uses an arbitrary function instead, so nothing is proved about which substrings get replaced.
- The internals of the chat-completion network call (app.py:158-163) are not modelled; the call is a deterministic function of the request, and the `choices[0].message.content` extraction is folded into it. Any exception it raises becomes `None`. The real call passes no temperature or seed, so the service may answer the same request differently; the model gives one reply per request.
- App.PredictDependsOnlyOnRedacted: its equality of stored history and response assumes the service gives the same reply to the same request. The privacy half holds without that: the request sent and the user turn stored are the same for two inputs that anonymise alike.
- The f-string wrappers `f"{...}"` around the stored texts are not modelled. They are identity on strings, and the reply is modelled as a string, so a `None` content rendered as "None" is not represented.
- Environment and credential loading and the Colab detection (app.py:13-28) are left out, as is `dafa.py`. They are I/O with no logic.
- The Gradio interface construction, its event wiring and the launch (app.py:183-305) are left out. They are presentation. The textbox clearing on submit is also a UI effect.
- Concurrent submissions from several browser sessions sharing the one global history are not modelled. Nor is a reset that lands while a submission waits for its completion: the reset is wired with `queue=False` (app.py:298), and the reply is then appended to the fresh preamble list (app.py:166-168). The model treats submissions and resets as sequential calls on one session.
- App.ChatSession.Predict: the model states the redaction invariant only relative to the anonymiser: every stored or sent user turn is something the anonymiser returned. It cannot promise that no PII remains, because the anonymiser is abstract.
