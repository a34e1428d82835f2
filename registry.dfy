/** The readiness registry `model_state` (backend/app.py:24) and the application lifespan
    that fills it at startup and clears it at shutdown (backend/app.py:76-104). */
module Registry {
  import opened Loading

  const ModelKey: string := "model"
  const TokenizerKey: string := "tokenizer"

  /** What `generate_words` asks of the registry: both keys are present. */
  predicate HasBoth(state: map<string, Handle>) {
    ModelKey in state && TokenizerKey in state
  }

  /** What `new_words` asks of the registry: `model_state.get(...)` finds both objects and
      both are truthy (a missing key reads as `None`, which is falsy). */
  predicate Initialised(state: map<string, Handle>) {
    && ModelKey in state && state[ModelKey].truthy
    && TokenizerKey in state && state[TokenizerKey].truthy
  }

  /** The registry after the startup part of `lifespan` has run `load_model` with result `r`:
      on success both entries are written, on failure the exception is swallowed and the
      registry is left as it was. */
  function Published(state: map<string, Handle>, r: LoadResult): (s: map<string, Handle>)
    ensures r.Loaded? ==> HasBoth(s) && s[ModelKey] == r.model && s[TokenizerKey] == r.tokenizer
    ensures r.Failed? ==> s == state
    ensures forall k :: k in state && k != ModelKey && k != TokenizerKey ==> k in s && s[k] == state[k]
    ensures forall k :: k in s ==> k in state || k == ModelKey || k == TokenizerKey
  {
    match r
    case Loaded(m, t) => state[ModelKey := m][TokenizerKey := t]
    case Failed(_) => state
  }

  /** Startup is all or nothing: from an empty registry, either both entries are published or
      neither is, and both are published exactly when every check of `load_model` passes. */
  lemma StartupIsAtomic(a: Artefacts)
    ensures var s := Published(map[], LoadModel(a));
      && (HasBoth(s) <==> AllStepsPass(a))
      && (!HasBoth(s) ==> ModelKey !in s && TokenizerKey !in s)
      && (HasBoth(s) ==> s[ModelKey] == a.model && s[TokenizerKey] == a.tokenizer)
  {
    LoadSucceedsIffAllPass(a);
  }

  /** The process-wide `model_state` dictionary; a fresh object is the empty dictionary the
      module starts with. */
  class ModelRegistry {
    var state: map<string, Handle>

    constructor ()
      ensures state == map[]
    {
      state := map[];
    }

    /** The startup half of `lifespan`: load the artefacts and publish model and tokenizer,
        the model first, only once `load_model` has returned both. */
    method Startup(a: Artefacts)
      modifies this
      ensures state == Published(old(state), LoadModel(a))
    {
      var r := LoadModel(a);
      if r.Loaded? {
        state := state[ModelKey := r.model];
        state := state[TokenizerKey := r.tokenizer];
      }
    }

    /** The shutdown half of `lifespan`: `model_state.clear()`. */
    method Shutdown()
      modifies this
      ensures state == map[] && !HasBoth(state)
    {
      state := map[];
    }
  }
}
