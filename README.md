# Slang-word generator backend: a Dafny model

The backend of the slang-word generator is a small FastAPI service (`backend/app.py`). It
loads a recurrent network and its tokenizer from an artefact directory at startup. It keeps
them in a process-wide registry, `model_state`. It serves `GET /generate`, which asks an
external sampler for new words. It also keeps a starred-words list in memory. This project
models the parts of that file that make decisions or change state:

- `favourites.dfy` (module `Favourites`): the `starred_words` list and its three handlers.
  The list is a class with a `seq<string>` field. Its invariant is that no word occurs twice.
  `Add` appends a word only when it is absent. `Remove` drops the word's first occurrence,
  as Python's `list.remove` does. Lemmas prove that removal splices out one entry and keeps
  the order of the rest, that the removed word is gone, and that adding a new word and then
  removing it gives back the original list.
- `loading.dfy` (module `Loading`): `load_model` as a pure decision over an abstract
  description of the artefact directory. Each of the eight checks is one field of that
  description: whether a file exists, whether a library call returned or raised, and whether
  the config has a `model` key. The result is the (model, tokenizer) pair or the exception
  class and message of the first failing check. A second, step-indexed reading of the same
  procedure (`RunFrom`) is the reference. The lemmas prove that `load_model` is that scan,
  that the first failure decides, and that later steps are never looked at.
- `registry.dfy` (module `Registry`): the `model_state` dictionary as a class with a
  `map<string, Handle>` field. `Startup` is the startup half of `lifespan`: both entries are
  written only after `load_model` returned, and a failure is swallowed. `Shutdown` clears the
  dictionary.
- `generation.dfy` (module `Generation`): FastAPI's validation of the query (`num_words >= 1`,
  `0 <= temperature <= 10`, defaults 10 and 1.0), the 503 gate and the 500 mapping of
  `generate_words`, and `new_words`. The sampler `sample_n` is a function-valued parameter,
  so these statements hold for every sampler. Its count and length behaviour appears only as
  an explicit assumption, in one lemma.

Facts about the code that the model keeps:

- `load_model` raises the built-in `FileNotFoundError`, `RuntimeError` and `ValueError`.
- `load_model` does not check the config's vocabulary size against the tokenizer.
- `load_model` parses the tokenizer before it checks that the config exists.
- `load_model` builds the network before it checks that the weights file exists.
- `generate_words` tests key presence, while `new_words` tests truthiness. A present but
  falsy entry therefore gives a 500 with "Model or Tokenizer not initialized", not a 503.

## Model

| member | source | states |
|---|---|---|
| `Favourites.Appended` | backend/app.py:159-163 | the word is in the result; the old list is a prefix and the length grows by one exactly when the word was absent; membership is old membership plus the word; no-duplicates is preserved |
| `Favourites.RemoveFirst` | backend/app.py:166-170 | the list shrinks by one exactly when the word is present, holds no word the old list did not, and is unchanged when the word is absent |
| `Favourites.RemoveFirstMultiset` | backend/app.py:166-170 | as a multiset, the result is the old list minus one copy of the word: nothing else is lost or added |
| `Favourites.RemoveFirstSplices` | backend/app.py:166-170 | removing a present word deletes exactly its first occurrence; every other entry stays, in the same relative order |
| `Favourites.RemoveFirstDistinct` | backend/app.py:166-170 | on a duplicate-free list the removed word is no longer a member, every other word keeps its membership, and the list stays duplicate-free |
| `Favourites.RemoveUndoesAdd` | backend/app.py:159-170 | adding a word that was not starred and then removing it restores the original list |
| `Favourites.StarredWords.constructor` | backend/app.py:113 | the list starts empty, which satisfies the no-duplicates invariant |
| `Favourites.StarredWords.Get` | backend/app.py:154-156 | returns the current list, duplicate-free, and changes nothing |
| `Favourites.StarredWords.Add` | backend/app.py:159-163 | the new list is the old one with the word appended if it was absent; the invariant holds; the answer is the new list |
| `Favourites.StarredWords.Remove` | backend/app.py:166-170 | the new list is the old one with the word's entry removed, the word is no longer a member, the invariant holds; the answer is the new list |
| `Loading.StepError` | backend/app.py:38-71 | a failing step raises FileNotFoundError for the three existence checks, ValueError for the JSON and `model`-key checks, and RuntimeError for the three library-call steps (tokenizer parse, network build, weights load) |
| `Loading.LoadModel` | backend/app.py:26-74 | its own contract says only that a success is the pair the checks produced and that a FileNotFoundError comes from a missing file; the check order and first-failure behaviour are stated by `LoadModelRunsStepsInOrder`, `FirstFailureDecides`, `LoadSucceedsIffAllPass` and `LaterStepsUnobserved` |
| `Loading.LoadModelRunsStepsInOrder` | backend/app.py:37-74 | `load_model`'s if-chain equals the scan of the eight steps in the fixed order: tokenizer exists, tokenizer parses, config exists, config is JSON, config has `model`, network builds, weights exist, weights load |
| `Loading.FirstFailureDecides` | backend/app.py:37-71 | when step k is the first that fails, `load_model` raises exactly step k's exception and message |
| `Loading.LoadSucceedsIffAllPass` | backend/app.py:37-74 | `(model, tokenizer)` is returned exactly when all eight steps pass, and it is the pair those steps produced |
| `Loading.LaterStepsUnobserved` | backend/app.py:37-71 | two directories that agree up to the first failing step give the same outcome, so no later step is attempted |
| `Loading.RunFromStopsAtFirstFailure` | backend/app.py:37-71 | the reference scan, started at or before the first failing step, ends in that step's error |
| `Loading.RunFromSucceedsIff` | backend/app.py:37-74 | the reference scan from step k succeeds exactly when every step from k on passes |
| `Registry.Published` | backend/app.py:89-98 | on success both keys are present and hold the loaded model and tokenizer; on failure the registry is unchanged; no other key is touched |
| `Registry.StartupIsAtomic` | backend/app.py:89-98 | after startup from an empty registry, both entries are present exactly when every load check passed, otherwise neither entry is present |
| `Registry.ModelRegistry.constructor` | backend/app.py:24 | the registry starts empty |
| `Registry.ModelRegistry.Startup` | backend/app.py:89-98 | the new registry is the old one with the load result published (two writes, model first, only after `load_model` returned) |
| `Registry.ModelRegistry.Shutdown` | backend/app.py:102-103 | the registry is empty afterwards and no longer ready |
| `Generation.NewWords` | backend/app.py:116-130 | raises "Model or Tokenizer not initialized" unless both entries are present and truthy; otherwise the result is the sampler's outcome for the one call with the same `n` and `temperature`, the registry's objects and `max_length` 20 |
| `Generation.NewWordsConsultsOneCall` | backend/app.py:116-130 | two samplers that agree on that one call give `new_words` the same outcome; with no initialised registry the sampler is not consulted |
| `Generation.GenerateWords` | backend/app.py:142-151 | its own contract says only that the handler answers the words, a 500 or a 503, never a 422; the 503 gate and the 500 mapping are stated by `UnavailableIffNotLoaded` and `ErrorsBecomeInternal` |
| `Generation.Endpoint` | backend/app.py:137-151 | its own contract says only that any HTTP error it answers beside 422 is a 500 or a 503; validation and defaults are stated by `EndpointValidates` and `DefaultsReachSampler` |
| `Generation.UnavailableIffNotLoaded` | backend/app.py:142-144 | the handler answers 503 exactly when a key is missing; then the detail is "Model not loaded" and the answer does not depend on the sampler |
| `Generation.ErrorsBecomeInternal` | backend/app.py:146-151 | with both keys present, a raised exception becomes 500 with the exception's message as detail, and a returned list is answered unchanged; a falsy entry gives 500 "Model or Tokenizer not initialized" |
| `Generation.EndpointValidates` | backend/app.py:137-141 | a request is rejected with 422 exactly when the effective `num_words` is below 1 or the effective temperature is outside [0, 10]; otherwise the handler runs on the effective values |
| `Generation.DefaultsReachSampler` | backend/app.py:139-140 | a request without parameters on a loaded registry reaches the sampler with `n` 10, `temperature` 1.0 and `max_length` 20 |
| `Generation.ReadinessFollowsStartup` | backend/app.py:89-144 | after startup from an empty registry a valid request gets 503 exactly when some load check failed; after shutdown every valid request gets 503 |
| `Generation.StubbedGenerationBounded` | backend/app.py:116-130 | if the sampler behaves like the test stub on every call with `max_length >= 1` (n words of 1 to `max_length` characters, never raising), a valid request on a loaded registry gets exactly the requested number of words, none longer than 20 |
| `Generation.StubAssumptionSatisfiable` | tests/test_generation.py:20-26 | the assumption of `StubbedGenerationBounded` can be met: a sampler answering `n` one-letter words satisfies it |

## Left out

- `sample_n`, the recurrent network and the tokenizer: their code is not part of this model. The sampler is a parameter. The network and the tokenizer are opaque `Handle`s, of which only identity and Python truthiness are observed.
- `Generation.StubbedGenerationBounded`: the count and length bounds hold only under an explicit assumption about the sampler: on calls with `max_length >= 1` it behaves as the stub in tests/test_generation.py does. Nothing about the real sampler is proved.
- File and library I/O (`Path.exists`, `Tokenizer.from_file`, `json.load`, `torch.load`, `load_state_dict`): each is one abstract outcome in `Loading.Artefacts`. JSON is not parsed. A config that is valid JSON but not an object, and exceptions other than `JSONDecodeError` while the config is read, are not modelled.
- Artefact and frontend directory discovery in `lifespan` (including the fallback to the parent directory and the exceptions it raises): it is file-system probing. The artefact directory is the `dir` field of `Loading.Artefacts`.
- HTTP plumbing: app construction, the static mount, the index page, `/health`, the uvicorn entry point, the shape of FastAPI's 422 body, and 422s caused by query strings that do not parse as numbers. Queries are typed values here.
- Python floats are modelled as reals: NaN and infinities in `temperature` are not modelled.
- Logging: it has no effect on any result.
- Concurrency: the handlers are modelled as running one at a time over the shared registry and list.
