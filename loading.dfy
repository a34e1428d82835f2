/** `load_model` (backend/app.py:26-74): the ordered checks that turn the artefact directory
    into a (model, tokenizer) pair or into the exception of the first check that fails.
    The file system and the libraries are not modelled: the directory is described by what
    each check would observe. */
module Loading {

  /** An object handed out by a library (the RNN or the tokenizer). Only its identity and its
      Python truthiness can be observed by the code modelled here. */
  datatype Handle = Handle(id: nat, truthy: bool)

  /** What a library call on an artefact did: it returned, or it raised an exception whose
      `str` is `message`. */
  datatype Outcome = Returns | Raises(message: string)

  /** What each step of `load_model` would observe in the artefact directory `dir`. */
  datatype Artefacts = Artefacts(
    dir: string,
    tokenizerExists: bool,   // tokenizer.json exists
    tokenizerParse: Outcome, // Tokenizer.from_file
    tokenizer: Handle,       // the tokenizer it returns
    configExists: bool,      // config.json exists
    configJson: Outcome,     // json.load (a raise is a JSONDecodeError)
    configHasModel: bool,    // "model" in config
    build: Outcome,          // models.SlangRNN(config["model"])
    model: Handle,           // the network it returns
    weightsExist: bool,      // model.pth exists
    weightsLoad: Outcome)    // model.load_state_dict(torch.load(...))

  /** The Python exception classes `load_model` raises. */
  datatype ErrorKind = FileNotFoundError | RuntimeError | ValueError

  datatype LoadError = LoadError(kind: ErrorKind, message: string)

  datatype LoadResult = Loaded(model: Handle, tokenizer: Handle) | Failed(error: LoadError)

  function TokenizerPath(dir: string): string { dir + "/tokenizer.json" }
  function ConfigPath(dir: string): string { dir + "/config.json" }
  function WeightsPath(dir: string): string { dir + "/model.pth" }

  /** `load_model` as written: each check returns early with its own exception. */
  function LoadModel(a: Artefacts): (r: LoadResult)
    ensures r.Loaded? ==> r == Loaded(a.model, a.tokenizer)
    ensures r.Failed? && r.error.kind == FileNotFoundError ==>
      !a.tokenizerExists || !a.configExists || !a.weightsExist
  {
    if !a.tokenizerExists then
      Failed(LoadError(FileNotFoundError, "Tokenizer file not found at " + TokenizerPath(a.dir)))
    else if a.tokenizerParse.Raises? then
      Failed(LoadError(RuntimeError, "Failed to load tokenizer: " + a.tokenizerParse.message))
    else if !a.configExists then
      Failed(LoadError(FileNotFoundError, "Config file not found at " + ConfigPath(a.dir)))
    else if a.configJson.Raises? then
      Failed(LoadError(ValueError, "Invalid JSON in config file: " + a.configJson.message))
    else if !a.configHasModel then
      Failed(LoadError(ValueError, "Config file missing 'model' key"))
    else if a.build.Raises? then
      Failed(LoadError(RuntimeError, "Failed to initialize model architecture: " + a.build.message))
    else if !a.weightsExist then
      Failed(LoadError(FileNotFoundError, "Model weights not found at " + WeightsPath(a.dir)))
    else if a.weightsLoad.Raises? then
      Failed(LoadError(RuntimeError, "Failed to load model weights: " + a.weightsLoad.message))
    else
      Loaded(a.model, a.tokenizer)
  }

  // ---------------------------------------------------------------------------------------
  // A reference reading of the same procedure: eight numbered steps, each with the one fact
  // it observes, the exception it raises, and a scan that stops at the first failing step.
  // ---------------------------------------------------------------------------------------

  const StepCount: nat := 8

  /** What one step observes: whether a file is there (or the config has its key), or how a
      library call ended. */
  datatype Observation = Present(present: bool) | Call(outcome: Outcome)

  /** What step `k` observes, in the order the source performs them. */
  function Observe(a: Artefacts, k: nat): Observation
    requires k < StepCount
  {
    match k
    case 0 => Present(a.tokenizerExists)
    case 1 => Call(a.tokenizerParse)
    case 2 => Present(a.configExists)
    case 3 => Call(a.configJson)
    case 4 => Present(a.configHasModel)
    case 5 => Call(a.build)
    case 6 => Present(a.weightsExist)
    case _ => Call(a.weightsLoad)
  }

  predicate StepPasses(a: Artefacts, k: nat)
    requires k < StepCount
  {
    match Observe(a, k)
    case Present(p) => p
    case Call(o) => o.Returns?
  }

  /** The exception step `k` raises when it fails, built from what it observed. */
  function StepError(a: Artefacts, k: nat): (e: LoadError)
    requires k < StepCount && !StepPasses(a, k)
    ensures e.kind == (if k in {0, 2, 6} then FileNotFoundError
                       else if k in {3, 4} then ValueError
                       else RuntimeError)
  {
    match k
    case 0 => LoadError(FileNotFoundError, "Tokenizer file not found at " + TokenizerPath(a.dir))
    case 1 => LoadError(RuntimeError, "Failed to load tokenizer: " + Observe(a, k).outcome.message)
    case 2 => LoadError(FileNotFoundError, "Config file not found at " + ConfigPath(a.dir))
    case 3 => LoadError(ValueError, "Invalid JSON in config file: " + Observe(a, k).outcome.message)
    case 4 => LoadError(ValueError, "Config file missing 'model' key")
    case 5 => LoadError(RuntimeError, "Failed to initialize model architecture: " + Observe(a, k).outcome.message)
    case 6 => LoadError(FileNotFoundError, "Model weights not found at " + WeightsPath(a.dir))
    case _ => LoadError(RuntimeError, "Failed to load model weights: " + Observe(a, k).outcome.message)
  }

  /** Run the steps from `k` on and stop at the first one that fails. */
  function RunFrom(a: Artefacts, k: nat): LoadResult
    requires k <= StepCount
    decreases StepCount - k
  {
    if k == StepCount then Loaded(a.model, a.tokenizer)
    else if !StepPasses(a, k) then Failed(StepError(a, k))
    else RunFrom(a, k + 1)
  }

  /** Every step passes. */
  predicate AllStepsPass(a: Artefacts) {
    forall k :: 0 <= k < StepCount ==> StepPasses(a, k)
  }

  /** Step `k` is the first step that fails. */
  predicate FirstFailingStep(a: Artefacts, k: nat) {
    && k < StepCount
    && !StepPasses(a, k)
    && forall j :: 0 <= j < k ==> StepPasses(a, j)
  }

  /** `load_model` is exactly the scan of the eight steps in the fixed order. */
  lemma LoadModelRunsStepsInOrder(a: Artefacts)
    ensures LoadModel(a) == RunFrom(a, 0)
  {
    var r := RunFrom(a, 0);
    if StepPasses(a, 0) {
      assert r == RunFrom(a, 1);
      if StepPasses(a, 1) {
        assert r == RunFrom(a, 2);
        if StepPasses(a, 2) {
          assert r == RunFrom(a, 3);
          if StepPasses(a, 3) {
            assert r == RunFrom(a, 4);
            if StepPasses(a, 4) {
              assert r == RunFrom(a, 5);
              if StepPasses(a, 5) {
                assert r == RunFrom(a, 6);
                if StepPasses(a, 6) {
                  assert r == RunFrom(a, 7);
                  if StepPasses(a, 7) {
                    assert r == RunFrom(a, 8);
                  }
                }
              }
            }
          }
        }
      }
    }
  }

  /** The scan from `k` ends in the error of the first failing step at or after `k`. */
  lemma {:induction false} RunFromStopsAtFirstFailure(a: Artefacts, k: nat, f: nat)
    requires k <= f && FirstFailingStep(a, f)
    ensures RunFrom(a, k) == Failed(StepError(a, f))
    decreases f - k
  {
    if k < f {
      RunFromStopsAtFirstFailure(a, k + 1, f);
    }
  }

  /** The scan from `k` succeeds exactly when every step from `k` on passes. */
  lemma {:induction false} RunFromSucceedsIff(a: Artefacts, k: nat)
    requires k <= StepCount
    ensures RunFrom(a, k).Loaded? <==> forall j :: k <= j < StepCount ==> StepPasses(a, j)
    ensures RunFrom(a, k).Loaded? ==> RunFrom(a, k) == Loaded(a.model, a.tokenizer)
    decreases StepCount - k
  {
    if k < StepCount {
      RunFromSucceedsIff(a, k + 1);
    }
  }

  /** The first failing step decides the exception `load_model` raises. */
  lemma FirstFailureDecides(a: Artefacts, k: nat)
    requires FirstFailingStep(a, k)
    ensures LoadModel(a) == Failed(StepError(a, k))
  {
    LoadModelRunsStepsInOrder(a);
    RunFromStopsAtFirstFailure(a, 0, k);
  }

  /** `load_model` returns the pair exactly when every step passes, and then it returns the
      tokenizer and the network those steps produced. */
  lemma LoadSucceedsIffAllPass(a: Artefacts)
    ensures LoadModel(a).Loaded? <==> AllStepsPass(a)
    ensures LoadModel(a).Loaded? ==> LoadModel(a) == Loaded(a.model, a.tokenizer)
  {
    LoadModelRunsStepsInOrder(a);
    RunFromSucceedsIff(a, 0);
  }

  /** Steps after the first failing one are never attempted: two directories that agree on
      everything up to and including that step load to the same outcome, whatever the later
      steps would have observed. */
  lemma LaterStepsUnobserved(a: Artefacts, b: Artefacts, k: nat)
    requires FirstFailingStep(a, k)
    requires a.dir == b.dir
    requires forall j :: 0 <= j <= k ==> Observe(a, j) == Observe(b, j)
    ensures LoadModel(a) == LoadModel(b)
  {
    assert forall j :: 0 <= j <= k ==> StepPasses(a, j) == StepPasses(b, j);
    FirstFailureDecides(a, k);
    FirstFailureDecides(b, k);
  }
}
