# Interactigen utterance-generation orchestrator, modelled in Dafny

This project models the core of `interactigen`, a library that asks a
generative language model for diverse training utterances for voice and text
bots. The modelled core is:

- the `Interactigen` client's construction check on the bound LangChain model;
- the staged pipeline of `generate_phrase_utterances`: one init call, a base
  stage that applies each base rule to the whole init batch, an all-media
  fan-out and exactly one media fan-out (voice or text) over the base
  utterances, assembly of the pool, and a final first-seen deduplication;
- the two request constructors `GenNewPhrasings` and
  `GenTransformedPhrasings`, which reject missing fields in a fixed order and
  build the `inputs` map that fills each request's prompt slots.

The language model is an opaque function `LanguageModel = (nat, ChatCommand)
-> Result<seq<string>>`: the reply to the request issued as the `i`-th call
of a run, either a batch of utterances or a failure. The call position lets
the model answer equal requests differently, as a real model does. Every
stage threads the list of requests issued so far (`Run.trace`), so the
contracts can say how many calls a run makes, in what order, and with what
slot values.

Files and modules:

- `results.dfy` (`Results`): `Option` for Python's `None`-able keyword
  arguments, `Result` for a value or a raised exception's message.
- `sequences.dfy` (`Sequences`): `Flatten`, the in-order concatenation used by
  every fan-out, and `NoDuplicates`.
- `first_seen.dfy` (`FirstSeen`): the deduplication — a reference definition
  `Dedup`, the one-pass loop of the source `DedupPool`, and lemmas.
- `commands.dfy` (`Commands`): the two request constructors.
- `rules.dfy` (`Rules`): the four fixed rule lists.
- `interactigen.dfy` (`Interactigen`): the client and the pipeline.

Behaviour of the code worth knowing, which the model keeps as written:

- The construction check at `src/interactigen/interactigen.py:72` raises for
  a model that is an LLM but not a chat model, and accepts a model that is
  neither, even though line 76 passes `llm=` to `LangChainWrap`, which
  suggests LLMs were meant to be supported. `NewInteractigen` keeps the check
  as written; "## Findings" records the discrepancy.
- `media_type` is an arbitrary string (`src/interactigen/interactigen.py:248-253`):
  `"voice"` selects the voice rules and every other string, not only
  `"text"`, selects the text rules.
- `base_phrase` and `quantity` are checked only for `None`
  (`src/interactigen/commands/gen_new_phrasings.py:61-64`): an empty phrase
  and a zero or negative quantity are accepted.

## Model

| member | source | states |
|---|---|---|
| `Commands.GenNewPhrasings` | src/interactigen/commands/gen_new_phrasings.py:61-71 | A missing base phrase fails with "base_phrase is required", checked first; otherwise a missing quantity fails with "quantity is required"; construction succeeds exactly when both are present, whatever their values; then `inputs` has exactly the keys `base_phrase` and `quantity`, holding the given values |
| `Commands.GenTransformedPhrasings` | src/interactigen/commands/gen_transformed_phrasings.py:62-72 | A missing batch fails with "utterances is required", checked first; otherwise a missing instruction fails with "transform_phrase is required"; an empty batch is accepted; then `inputs` has exactly the keys `utterances` and `transform_phrase`, holding the given values |
| `Commands.NewPhrasingsRoundTrip` | src/interactigen/commands/gen_new_phrasings.py:61-71 | The constructor returns a request exactly when both arguments are present and the request carries the caller's session id, exactly the two slots, and reads back the caller's phrase and quantity: the request is determined by its slots |
| `Commands.TransformedPhrasingsRoundTrip` | src/interactigen/commands/gen_transformed_phrasings.py:62-72 | The constructor returns a request exactly when both arguments are present and the request carries the caller's session id, exactly the two slots, and reads back the caller's batch and instruction |
| `Interactigen.NewInteractigen` | src/interactigen/interactigen.py:70-77 | Construction fails with "Unknown LangChain model type" exactly when the model is an LLM and not a chat model; a model that is neither is accepted; the client keeps both flags and the model |
| `Interactigen.NewInteractigenIntended` | src/interactigen/interactigen.py:70-77 | The check as evidently intended: construction fails with "Unknown LangChain model type" exactly when the model is neither a chat model nor an LLM, so every built client wraps a chat model or an LLM |
| `Interactigen.ConstructionChecksDiffer` | src/interactigen/interactigen.py:72-73 | The check as written and the intended check agree exactly on chat models; a pure LLM is rejected as written and accepted as intended, and a model that is neither is accepted as written and rejected as intended |
| `Interactigen.GeneratePhraseInitUtterances` | src/interactigen/interactigen.py:93-112 | A missing phrase or quantity fails before any call, with the constructor's message; otherwise exactly one new-phrasings call is issued and its reply is the stage's outcome |
| `Interactigen.GeneratePhraseTransforms` | src/interactigen/interactigen.py:114-133 | A missing batch or instruction fails before any call; otherwise exactly one transform call on the whole batch is issued and its reply is the outcome |
| `Interactigen.FanOut` | src/interactigen/interactigen.py:145-151 | One call per rule, in rule order, each on the same batch; it stops at the first failing call and fails with its error; it succeeds exactly when every call succeeds, and then returns the in-order concatenation of the replies |
| `Interactigen.FanOutLength` | src/interactigen/interactigen.py:145-151 | A successful fan-out is as long as all its replies together and holds exactly the utterances of those replies |
| `Interactigen.FannedOutAppend` | src/interactigen/interactigen.py:245-253 | Two consecutive fan-outs over the same batch behave as one fan-out of the concatenated rule lists |
| `Interactigen.GeneratePhraseTransformsAll` | src/interactigen/interactigen.py:135-153 | The fan-out contract for the two all-media rules |
| `Interactigen.GeneratePhraseTransformsVoice` | src/interactigen/interactigen.py:155-173 | The fan-out contract for the one voice rule |
| `Interactigen.GeneratePhraseTransformsText` | src/interactigen/interactigen.py:175-193 | The fan-out contract for the two text rules |
| `Interactigen.GeneratePhraseBaseUtterances` | src/interactigen/interactigen.py:207-221 | The init call comes first; if it fails the stage stops there; otherwise each base rule is applied to the init batch itself, never to another rule's output, and on success the result is the init batch followed by the base-rule replies in rule order |
| `Interactigen.GeneratePhraseTransformsMedia` | src/interactigen/interactigen.py:248-253 | The media stage is the fan-out of the voice rule for media type "voice" and of the text rules for every other media type |
| `Interactigen.AssemblePool` | src/interactigen/interactigen.py:237-253 | A missing phrase or quantity fails before any call; otherwise assembly issues a non-empty prefix of the schedule (init call; base rules on the init batch; all-media rules and then the chosen media rules, all on the base utterances), stops at the first failing call, and on success returns base ++ all-media replies ++ media replies |
| `Interactigen.GeneratePhraseUtterances` | src/interactigen/interactigen.py:237-259 | A missing phrase or quantity fails before any call; otherwise the run issues a non-empty prefix of the schedule and no failure is caught (the last call issued decides the outcome); it succeeds exactly when every scheduled call succeeds, making 6 calls for voice and 7 otherwise; it never sends the other media type's rules; its result is the first-seen deduplication of the pool: no repeats, exactly the pool's elements, no longer than the pool, led by the deduplicated base utterances, holding every init utterance |
| `Interactigen.GeneratePhraseUtterancesWithDefaults` | src/interactigen/interactigen.py:222-259 | With the defaults (ten init utterances, voice): a missing phrase fails before any call; the first call asks for ten phrasings of the phrase; no failure is caught; a successful run makes 6 calls, never sends a text rule, and returns the deduplicated pool without repeats and with the pool's elements |
| `FirstSeen.Dedup` | src/interactigen/interactigen.py:256-257 | The deduplicated batch has no repeats, holds exactly the input's elements and is no longer than the input |
| `FirstSeen.DedupPool` | src/interactigen/interactigen.py:256-257 | The one-pass loop with a seen set computes the reference deduplication, which has no repeats and exactly the input's elements |
| `FirstSeen.DedupKeepsFirstOccurrences` | src/interactigen/interactigen.py:256-257 | The k-th output element is the input element at the k-th first-occurrence position |
| `FirstSeen.FirstIndicesAreFirst` | src/interactigen/interactigen.py:256-257 | The kept positions increase strictly and each holds a value not seen before it, so the output is a subsequence ordered by first occurrence |
| `FirstSeen.FirstIndicesComplete` | src/interactigen/interactigen.py:256-257 | Every first occurrence in the input is kept |
| `FirstSeen.DedupOfDistinct` | src/interactigen/interactigen.py:256-257 | A batch without repeats is returned unchanged |
| `FirstSeen.DedupIdempotent` | src/interactigen/interactigen.py:256-257 | Deduplicating twice equals deduplicating once |
| `FirstSeen.DedupPrefix` | src/interactigen/interactigen.py:243-257 | Extending the pool never reorders what was kept: the deduplication of a prefix is a prefix of the deduplication of the whole |
| `FirstSeen.DedupKeepsLeadingBatch` | src/interactigen/interactigen.py:243-257 | Every element of the leading batch of a pool survives deduplication |
| `Sequences.FlattenLength` | src/interactigen/interactigen.py:145-151 | The concatenation of replies is as long as all replies together |
| `Sequences.FlattenMembers` | src/interactigen/interactigen.py:145-151 | An utterance is in the concatenation exactly when it is in one of the replies |
| `Sequences.FlattenAppend` | src/interactigen/interactigen.py:243-253 | Concatenating two lists of replies concatenates their flattenings |

## Findings

| source | as written | input that shows it | evidently intended | confidence | as-written member | corrected member |
|---|---|---|---|---|---|---|
| src/interactigen/interactigen.py:72 | raises when the model is not a chat model and is an LLM | a pure LLM is rejected although line 76 passes it to the wrapper as `llm=`; a model that is neither is accepted and wrapped with both slots empty | raise when the model is neither a chat model nor an LLM | medium, not executed | `Interactigen.NewInteractigen` with `Interactigen.ConstructionChecksDiffer` | `Interactigen.NewInteractigenIntended` |

The pipeline functions take an already built client, so they hold whichever
check built it; `NewInteractigen` remains the model of the code as written.

## Left out

- The tolerant JSON recovery parser, its quote-repair lexer and the markdown
  fence stripper: `interactigen.brokenjsonparser` is not part of this model;
  a failed parse is one way a model call returns `Err`.
- The retry/backoff executor: it is not part of this model, and its sleeps
  and random jitter depend on time and randomness. Exhausted retries are one
  way a model call returns `Err`.
- `LangChainWrap`, the `interacticore` base class `ChatCommand`,
  `BrokenJsonOutputParser` and the LangChain model classes are foreign code;
  the `ChatCommand` datatype keeps only a request's session id, command name
  and slots; `lc_wrap.execute` is the `LanguageModel` parameter, and the base classes of the bound model are the two flags of
  `ModelKind`. `NewInteractigen` treats a bound LLM as truthy, as Python does
  for an object without `__bool__` or `__len__`.
- Prompt text, the system prompt and format instructions are configuration
  strings; a request carries only its command name, session id and slots.
- `**kwargs` passthrough, logging, `__str__`/`__repr__` and `setup.py`.
- `GeneratePhraseTransformsAll`: takes a present batch; a `None` batch passed
  directly to this public method is not modelled, since the pipeline always
  passes a model reply.
- `GeneratePhraseTransformsVoice`: takes a present batch, for the same reason.
- `GeneratePhraseTransformsText`: takes a present batch, for the same reason.
- The model's `utterances` field is taken to be a list of strings; a reply of
  another shape is a failure of the call.

