# semantic-search: query formatting, answer dispatch and the interactive loop

A Dafny model of the two pieces of logic in the semantic-search front end:

- **The search engine** (`src/engine.py`, module `Engine`). A `SearchEngine` holds the
  stored article collection, the embedding model, the vector index, an optional GPT
  client, and the `numCandidates` / `maxResults` settings fixed at construction.
  `SemanticSearch` embeds the query and searches the collection. It concatenates one
  four-line block per retrieved record (`Title`, `Authors`, `Abstract`,
  `Journal reference`, then a blank line). A field whose key is missing shows `N/A`,
  a field stored as null shows `None`, and a string field is shown verbatim. It then
  returns that context, or hands `(query, context)` to the GPT client when a client
  exists and GPT mode is on. `FillEmbeddingDatabase` replaces the whole collection.
- **The interactive session** (`main.py`, module `Session`). `Run` resolves the OpenAI
  key (command line, then the environment) and starts in plain mode. For each input
  line it does one of four things:
  - a line that is exactly a tab flips the mode;
  - in GPT mode without a key, it shows the advisory and skips the search;
  - otherwise it calls the engine with the line verbatim and the current mode;
  - a `ValueError` from the request is swallowed and the loop reads the next line.

  Other exceptions are not caught by the per-request handler. A `KeyboardInterrupt`
  (a Ctrl-C while a request blocks) is caught by the handler around the whole loop and
  ends the session normally. Any other exception leaves `run` uncaught. Both end the
  session. The console is an input sequence plus a trace of `Step`s (prompt, line,
  action). The end of the input stands for a Ctrl-C at the prompt.

The embedding model, the vector index and the GPT client's `prompt` are function-valued
collaborators: `Embedder`, `VectorIndex`, `Summarizer`. Each returns a `Result` whose
failure is the exception raised during the request (`ValueError`, `KeyboardInterrupt`
or any other). They are fixed,
stateless functions: the same query against the same collection and mode always gives
the same result (see "Left out").

The partner of the formatting is a reader of the context, `ParseContext`. It splits the
text back into labelled lines and blocks. When no field's text contains a newline,
reading back the formatted context gives one entry per retrieved record, in the
search's order, each showing the record's fields with `N/A` for missing ones (see
"Left out" for fields that span lines). Session properties are stated over the specification
function `Steps`. `Run`'s loop is proved to produce exactly that trace.

Facts about the code that the model keeps as they are:
- The code rejects no query for being empty or whitespace. Any line other than a single
  tab, including `""` and `"\t "`, is treated as a query, subject to the key gate in
  GPT mode.
- The code never checks `numResults <= numCandidates`. Both are passed to the index
  unchanged.
- A swallowed `ValueError` shows nothing to the user.
- An exception other than `ValueError` is not caught by the per-request handler. A
  `KeyboardInterrupt` during a request is caught at main.py:57 and ends the session
  normally; any other exception leaves `run` uncaught.

## Model

| member | source | states |
|---|---|---|
| `Engine.FieldText` | src/engine.py:75-78 | a field whose key is missing is shown as `N/A`; a field stored as null is shown as `None`; a string field verbatim |
| `Engine.ShownAll` | src/engine.py:73-79 | one shown entry per record, entry i showing record i's four fields |
| `Engine.ParseBlockAppend` | src/engine.py:74-79 | a record's block is four lines in the fixed order `Title: `, `Authors: `, `Abstract: `, `Journal reference: `, each holding that field's text (`N/A` for a missing key), then a blank line; reading it back gives those texts and leaves the following text untouched (for fields without a newline) |
| `Engine.ParseContextRoundTrip` | src/engine.py:71-79 | reading the context back yields exactly one block per retrieved record, in the search's order, with nothing dropped, added, merged or re-sorted (for fields without a newline) |
| `Engine.ContextAppend` | src/engine.py:73-79 | formatting distributes over concatenation: `Context(xs + ys) == Context(xs) + Context(ys)` |
| `Engine.ContextSnoc` | src/engine.py:74-79 | one more record appends exactly its own block at the end of the context |
| `Engine.ContextEmptyIff` | src/engine.py:71-79 | the context is the empty string exactly when the search returned no record |
| `Engine.ContextIgnoresScore` | src/engine.py:63-79 | the projected score never affects the context: records that agree on their four fields format identically |
| `Engine.Retrieve` | src/engine.py:43-67 | an embedding failure propagates; otherwise the index is queried with the stored collection, the query's embedding, `numCandidates` and `maxResults` as configured |
| `Engine.AnswerDispatch` | src/engine.py:81-83 | without a client or in plain mode the answer is the context itself; with a client in GPT mode it is the client's answer for the query and that same context, also when the context is empty; a retrieval failure propagates |
| `Engine.SearchEngine.constructor` | src/engine.py:16-37 | the engine keeps the collaborators and the candidate and result counts it was given (defaults 150 and 3) |
| `Engine.SearchEngine.FillEmbeddingDatabase` | src/engine.py:39-41 | afterwards the collection holds exactly the given records; everything stored before is gone |
| `Engine.SearchEngine.SemanticSearch` | src/engine.py:69-83 | the loop's accumulated response is the context of the retrieved records, and the result is the dispatched answer |
| `Session.ResolveKey` | main.py:18-20 | the command-line key wins, else the environment's; no key exactly when neither is given |
| `Session.PromptShowsMode` | main.py:38 | the plain prompt is exactly `>>> ` and the GPT-mode prompt exactly `[gpt] >>> `; the prompt tells the two modes apart |
| `Session.OutcomeOf` | main.py:44-59 | a successful answer is printed, a `ValueError` is swallowed, a `KeyboardInterrupt` ends the session normally, any other exception escapes `run` |
| `Session.Respond` | main.py:40-52 | a line is a toggle exactly when it equals the tab; the advisory is given exactly for a non-toggle line in GPT mode without a key; otherwise the engine is asked with the line verbatim and the current mode |
| `Session.Request` | main.py:44-55 | one guarded request yields the outcome of the engine's answer for the query and mode |
| `Session.Run` | main.py:17-59 | warns exactly when no key was found; the trace of the loop is the session trace from plain mode with the resolved key |
| `Session.ModeAppend` | main.py:40-42 | the mode after two runs of input is the mode after the second started from the mode after the first |
| `Session.ModeParity` | main.py:40-42 | the mode is the starting mode flipped once per tab line: only the parity of the toggles matters |
| `Session.ToggleTwice` | main.py:41 | two toggles in a row restore the mode |
| `Session.StepAt` | main.py:36-55 | step k answers input line k under the prompt of, and in, the mode left by the lines before it |
| `Session.StepsLength` | main.py:36-59 | every line gets one step until an exception other than `ValueError` gets past the per-request handler (a `KeyboardInterrupt` or an escaping exception); that step is the last and the rest of the input is never read |
| `Session.SwallowContinues` | main.py:44-55 | after a swallowed `ValueError` the mode is unchanged, and the next line is read and served in that mode under the same prompt |
| `Session.FirstPromptPlain` | main.py:27-38 | a session starts in plain mode: the first prompt is `>>> ` |
| `Session.NoKeyNoGptSearch` | main.py:45-50 | without a key no request ever reaches the engine in GPT mode |

## Left out

- MongoDB connection, ping, the failure message and `exit(1)` (src/engine.py:23-30): network I/O and process exit. The collection is a `seq<Record>` field.
- The embedding model and the `$vectorSearch` / `$project` aggregation (src/engine.py:34, 44-66) are foreign library calls. They are the `Embedder` and `VectorIndex` parameters; ranking and the `$project` shape are theirs.
- GPT text generation (`gpt_client.prompt`) is a foreign call, modelled as the `Summarizer` parameter.
- Similarity scores are floating point. They are carried as an opaque `real` that nothing computes with.
- Argument parsing (main.py:8-14, 62-63), console `input` / `print`, and the start-up and termination messages are I/O. Input is a sequence, output is the trace plus the `warned` flag.
- `Session.Run`: the end of the input sequence stands only for a Ctrl-C at the prompt, which main.py:57-59 catches, ending `run` normally. A real end of stdin makes `input()` raise `EOFError`, which nothing catches, so `run` ends with an uncaught exception. The model does not tell that case apart from the clean exit.
- The text of the advisory and of the missing-key warning: the trace records the `Advisory` action and `Run` returns `warned`.
- The constructor call in main.py:28-33 passes `openai_key` and `gpt_version`, which `SearchEngine.__init__` does not accept, and `SearchEngine.GPT3_5` is not defined. `Run` therefore takes an already-built engine. The loop's gate uses the resolved key, the engine's dispatch uses its own client, and the two are not reconciled.
- `gpt_version` and the embedding model version select collaborators and have no logic of their own here.
- `Engine.FieldText`: a stored value that is neither null nor a string (a pandas NaN from an empty DataFrame cell, a number) is shown as Python's `str()` of it, such as `nan`. The model has only missing, null and string fields.
- `Engine.ParseBlockAppend`: stated only for records whose field texts contain no newline. A field with a line break (common in abstracts) makes the block longer than four lines, and the lemma says nothing about such a block.
- `Engine.ParseContextRoundTrip`: stated only for records whose field texts contain no newline, since a newline inside a field makes the line structure ambiguous. A string field whose text is `N/A` reads back like a missing one.
- src/embedding.py and src/gpt.py are not part of this model; which of their calls raise `ValueError` is left to the collaborators' results.
- `Engine.SearchEngine.SemanticSearch`, `Session.Run`: the embedding model, the vector index and the GPT client are fixed, stateless functions of their arguments. Transient failures of these network calls cannot be expressed: a query that failed once fails again on retry against the same collection and mode. Neither can a GPT answer that differs between two identical requests.
- `Engine.SearchEngine.FillEmbeddingDatabase`: never fails in the model. In the source, `delete_many` runs before `insert_many`. If the insert raises, for example a database error or the driver's refusal of an empty record list, the collection is left empty or partly filled and the exception propagates. The model does not capture that state.
