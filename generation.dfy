/** Word generation as the web service exposes it: the query validation FastAPI applies to
    `GET /generate` (backend/app.py:137-141), the readiness gate and error mapping of
    `generate_words` (backend/app.py:142-151), and `new_words`, which delegates to the sampler
    (backend/app.py:116-130). The sampler `sample_n` is not part of this model: it is a
    parameter, so every statement here holds whatever it does. */
module Generation {
  import opened Loading
  import opened Registry

  datatype Option<T> = None | Some(value: T) {
    function GetOr(default: T): T {
      match this
      case Some(v) => v
      case None => default
    }
  }

  /** One call of `sample_n` with its keyword arguments. */
  datatype SampleCall = SampleCall(n: int, model: Handle, tokenizer: Handle, maxLength: int, temperature: real)

  /** How a call of `sample_n` ended: with its list of words, or with an exception whose `str`
      is `message`. */
  datatype Sampled = Returned(words: seq<string>) | Raised(message: string)

  /** The behaviour of `sample_n`. */
  type Sampler = SampleCall -> Sampled

  /** The query string of `GET /generate`; an absent parameter takes its default. */
  datatype Query = Query(numWords: Option<int>, temperature: Option<real>)

  /** What the endpoint answers: the words (status 200), a request validation failure
      (status 422), or an `HTTPException` with its status and detail. */
  datatype Response = Ok(words: seq<string>) | Unprocessable | HttpError(status: int, detail: string)

  const MaxLength: int := 20
  const DefaultNumWords: int := 10
  const DefaultTemperature: real := 1.0
  const MaxTemperature: real := 10.0
  const NotInitialised: string := "Model or Tokenizer not initialized"
  const NotLoaded: string := "Model not loaded"

  /** The HTTP status code of a response. */
  function Status(r: Response): int {
    match r
    case Ok(_) => 200
    case Unprocessable => 422
    case HttpError(s, _) => s
  }

  /** The query bounds `num_words >= 1` and `0 <= temperature <= 10`. */
  predicate InRange(numWords: int, temperature: real) {
    numWords >= 1 && 0.0 <= temperature <= MaxTemperature
  }

  function EffectiveNumWords(q: Query): int { q.numWords.GetOr(DefaultNumWords) }
  function EffectiveTemperature(q: Query): real { q.temperature.GetOr(DefaultTemperature) }

  /** `new_words`: refuse unless both objects are present and truthy; otherwise make exactly
      one call of `sample_n`, passing `n` and `temperature` through with `max_length = 20`,
      and hand back whatever it returned or raised. */
  function NewWords(state: map<string, Handle>, n: int, temperature: real, sampleN: Sampler): (r: Sampled)
    ensures !Initialised(state) ==> r == Raised(NotInitialised)
    ensures Initialised(state) ==>
      r == sampleN(SampleCall(n, state[ModelKey], state[TokenizerKey], MaxLength, temperature))
  {
    if !Initialised(state) then Raised(NotInitialised)
    else sampleN(SampleCall(n, state[ModelKey], state[TokenizerKey], MaxLength, temperature))
  }

  /** `generate_words`, the handler body that runs once the query has been validated. */
  function GenerateWords(state: map<string, Handle>, numWords: int, temperature: real, sampleN: Sampler): (r: Response)
    ensures !r.Unprocessable?
    ensures r.HttpError? ==> r.status == 500 || r.status == 503
  {
    if !HasBoth(state) then HttpError(503, NotLoaded)
    else
      match NewWords(state, numWords, temperature, sampleN)
      case Returned(words) => Ok(words)
      case Raised(message) => HttpError(500, message)
  }

  /** `GET /generate` as a whole: defaults, then validation before the handler runs. */
  function Endpoint(state: map<string, Handle>, q: Query, sampleN: Sampler): (r: Response)
    ensures r.HttpError? ==> r.status == 500 || r.status == 503
  {
    var n := EffectiveNumWords(q);
    var t := EffectiveTemperature(q);
    if !InRange(n, t) then Unprocessable else GenerateWords(state, n, t, sampleN)
  }

  /** Only the one call with the caller's arguments is consulted: two samplers that agree on
      it give `new_words` the same outcome, and an uninitialised registry consults none. */
  lemma NewWordsConsultsOneCall(state: map<string, Handle>, n: int, temperature: real, f: Sampler, g: Sampler)
    requires Initialised(state) ==>
      var c := SampleCall(n, state[ModelKey], state[TokenizerKey], MaxLength, temperature);
      f(c) == g(c)
    ensures NewWords(state, n, temperature, f) == NewWords(state, n, temperature, g)
  {
  }

  /** 503 is answered exactly when a key is missing, and then the detail is "Model not loaded"
      and the sampler is never consulted. */
  lemma UnavailableIffNotLoaded(state: map<string, Handle>, numWords: int, temperature: real, f: Sampler, g: Sampler)
    ensures Status(GenerateWords(state, numWords, temperature, f)) == 503 <==> !HasBoth(state)
    ensures !HasBoth(state) ==>
      GenerateWords(state, numWords, temperature, f) == HttpError(503, NotLoaded) &&
      GenerateWords(state, numWords, temperature, f) == GenerateWords(state, numWords, temperature, g)
  {
  }

  /** With both keys present, any exception out of `new_words` becomes a 500 whose detail is
      the exception's message, and a returned list is answered unchanged. This covers the
      present-but-falsy case, in which `new_words` itself raises. */
  lemma ErrorsBecomeInternal(state: map<string, Handle>, numWords: int, temperature: real, f: Sampler)
    requires HasBoth(state)
    ensures var r := GenerateWords(state, numWords, temperature, f);
      match NewWords(state, numWords, temperature, f)
      case Returned(words) => r == Ok(words)
      case Raised(message) => r == HttpError(500, message) && Status(r) == 500
    ensures !Initialised(state) ==>
      GenerateWords(state, numWords, temperature, f) == HttpError(500, NotInitialised)
  {
  }

  /** A request is rejected with 422 exactly when its effective `num_words` or `temperature`
      is out of range, whatever the registry and the sampler; otherwise the handler sees the
      effective values. */
  lemma EndpointValidates(state: map<string, Handle>, q: Query, f: Sampler)
    ensures Endpoint(state, q, f).Unprocessable? <==> !InRange(EffectiveNumWords(q), EffectiveTemperature(q))
    ensures InRange(EffectiveNumWords(q), EffectiveTemperature(q)) ==>
      Endpoint(state, q, f) == GenerateWords(state, EffectiveNumWords(q), EffectiveTemperature(q), f)
  {
  }

  /** A request without parameters on a loaded registry makes the one sampler call with
      `n = 10`, `temperature = 1.0` and `max_length = 20`. */
  lemma DefaultsReachSampler(state: map<string, Handle>, f: Sampler)
    requires Initialised(state)
    ensures var c := SampleCall(DefaultNumWords, state[ModelKey], state[TokenizerKey], MaxLength, DefaultTemperature);
      Endpoint(state, Query(None, None), f) ==
        match f(c)
        case Returned(words) => Ok(words)
        case Raised(message) => HttpError(500, message)
  {
  }

  /** Readiness from startup on: after the startup half of `lifespan` ran on an empty registry,
      a valid request is answered 503 exactly when some check of `load_model` failed; after
      shutdown every valid request is answered 503. */
  lemma ReadinessFollowsStartup(a: Artefacts, q: Query, f: Sampler)
    requires InRange(EffectiveNumWords(q), EffectiveTemperature(q))
    ensures Status(Endpoint(Published(map[], LoadModel(a)), q, f)) == 503 <==> !AllStepsPass(a)
    ensures Endpoint(map[], q, f) == HttpError(503, NotLoaded)
  {
    var s := Published(map[], LoadModel(a));
    StartupIsAtomic(a);
    EndpointValidates(s, q, f);
    UnavailableIffNotLoaded(s, EffectiveNumWords(q), EffectiveTemperature(q), f, f);
    EndpointValidates(map[], q, f);
  }

  /** The behaviour of the sampler stub the property tests install, on every call with
      `max_length >= 1` (with a smaller `max_length` and `n >= 1` the stub's `randint(1, 0)`
      raises): it never raises and answers `n` words (none for negative `n`), each 1 to
      `max_length` characters long. */
  ghost predicate BehavesLikeTestStub(sampleN: Sampler) {
    forall c: SampleCall | c.maxLength >= 1 ::
      && sampleN(c).Returned?
      && |sampleN(c).words| == (if c.n < 0 then 0 else c.n)
      && forall i :: 0 <= i < |sampleN(c).words| ==> 1 <= |sampleN(c).words[i]| <= c.maxLength
  }

  /** A deterministic sampler with the stub's shape: `n` one-letter words, and an exception
      (whose message is not modelled) where the stub's `randint` range is empty. */
  function OneLetterStub(c: SampleCall): Sampled {
    if c.maxLength < 1 && c.n >= 1 then Raised("")
    else Returned(seq(if c.n < 0 then 0 else c.n, _ => "a"))
  }

  /** The assumption of StubbedGenerationBounded can be met: some sampler behaves like the stub. */
  lemma StubAssumptionSatisfiable()
    ensures BehavesLikeTestStub(OneLetterStub)
  {
    forall c: SampleCall | c.maxLength >= 1
      ensures OneLetterStub(c).Returned?
      ensures |OneLetterStub(c).words| == (if c.n < 0 then 0 else c.n)
      ensures forall i :: 0 <= i < |OneLetterStub(c).words| ==> 1 <= |OneLetterStub(c).words[i]| <= c.maxLength
    {
      var w := OneLetterStub(c).words;
      forall i | 0 <= i < |w| ensures 1 <= |w[i]| <= c.maxLength {
        assert w[i] == "a";
      }
    }
  }

  /** Under that stub's behaviour (an assumption about `sample_n`, which is not modelled), a
      valid request on a loaded registry is answered with exactly the requested number of
      words, none longer than 20 characters. */
  lemma StubbedGenerationBounded(state: map<string, Handle>, q: Query, f: Sampler)
    requires BehavesLikeTestStub(f)
    requires Initialised(state) && InRange(EffectiveNumWords(q), EffectiveTemperature(q))
    ensures var r := Endpoint(state, q, f);
      && r.Ok?
      && |r.words| == EffectiveNumWords(q)
      && forall i :: 0 <= i < |r.words| ==> |r.words[i]| <= MaxLength
  {
    var c := SampleCall(EffectiveNumWords(q), state[ModelKey], state[TokenizerKey], MaxLength, EffectiveTemperature(q));
    assert f(c).Returned?;
    assert Endpoint(state, q, f) == Ok(f(c).words);
  }
}
