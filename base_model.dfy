// models/base_model.py: the lazy-load lifecycle shared by every model wrapper.
// `_load_model` belongs to the concrete model and is given here as what it
// does when called (return normally or raise); the clock is the elapsed time
// it is given.

module BaseModel {
  import opened Python

  /** The fields `_model_name`, `_is_loaded` and `_load_time`. */
  datatype ModelState = ModelState(name: string, loaded: bool, loadTime: Option<real>)

  /** `BaseAIModel.__init__`. */
  function Initial(name: string): (s: ModelState)
    ensures s.name == name && !s.loaded && s.loadTime == None
  {
    ModelState(name, false, None)
  }

  datatype EnsureResult = EnsureResult(state: ModelState, invoked: bool, out: Outcome<()>)

  /** `_ensure_loaded`, where `load` is what `_load_model` does if it is called
      and `elapsed` the clock difference around it. */
  function EnsureLoadedStep(s: ModelState, load: Outcome<()>, elapsed: real): (r: EnsureResult)
    ensures r.invoked <==> !s.loaded
    ensures r.state.name == s.name
    ensures r.out.Ok? <==> (s.loaded || load.Ok?)
    ensures r.out.Ok? ==> r.state.loaded
    ensures r.out.Err? ==> r.out == load && r.state == s
    ensures s.loaded ==> r.state == s
    ensures !s.loaded && load.Ok? ==> r.state.loadTime == Some(elapsed)
  {
    if s.loaded then EnsureResult(s, false, Ok(()))
    else match load
      case Err(e) => EnsureResult(s, true, Err(e))
      case Ok(_) => EnsureResult(ModelState(s.name, true, Some(elapsed)), true, Ok(()))
  }

  /** Once `_ensure_loaded` has returned normally, a second call does not load again
      and changes nothing, whatever `_load_model` would do. */
  lemma EnsureLoadedIdempotent(s: ModelState, load1: Outcome<()>, e1: real, load2: Outcome<()>, e2: real)
    requires EnsureLoadedStep(s, load1, e1).out.Ok?
    ensures var first := EnsureLoadedStep(s, load1, e1);
            EnsureLoadedStep(first.state, load2, e2) == EnsureResult(first.state, false, Ok(()))
  {
  }

  datatype Attempt = Attempt(load: Outcome<()>, elapsed: real)

  /** Calling `_ensure_loaded` once per attempt: the final state and how many
      times `_load_model` ran. */
  function EnsureLoadedRepeatedly(s: ModelState, attempts: seq<Attempt>): (r: (ModelState, nat))
    ensures r.0.name == s.name && r.1 <= |attempts|
    ensures s.loaded ==> r == (s, 0)
    ensures r.1 == 0 ==> r.0 == s
    ensures !r.0.loaded ==> r.0 == s && r.1 == |attempts|
    decreases |attempts|
  {
    if attempts == [] then (s, 0)
    else
      var step := EnsureLoadedStep(s, attempts[0].load, attempts[0].elapsed);
      var (final, calls) := EnsureLoadedRepeatedly(step.state, attempts[1..]);
      (final, calls + if step.invoked then 1 else 0)
  }

  /** Index of the first attempt whose load succeeds, or the number of attempts. */
  function FirstSuccess(attempts: seq<Attempt>): (k: nat)
    ensures k <= |attempts|
    ensures forall i :: 0 <= i < k ==> attempts[i].load.Err?
    ensures k < |attempts| ==> attempts[k].load.Ok?
  {
    if attempts == [] then 0
    else if attempts[0].load.Ok? then 0
    else 1 + FirstSuccess(attempts[1..])
  }

  /** A failing load leaves the model unloaded, so the next call retries; the load
      routine runs once per failure up to and including the first success and
      never afterwards. A model that is already loaded never loads again. */
  lemma {:induction false} LoadRetriedUntilFirstSuccess(s: ModelState, attempts: seq<Attempt>)
    ensures var (final, calls) := EnsureLoadedRepeatedly(s, attempts);
            var k := FirstSuccess(attempts);
            && final.name == s.name
            && (s.loaded ==> calls == 0 && final == s)
            && (!s.loaded && k == |attempts| ==> calls == |attempts| && final == s)
            && (!s.loaded && k < |attempts| ==>
                  calls == k + 1 && final == ModelState(s.name, true, Some(attempts[k].elapsed)))
    decreases |attempts|
  {
    if attempts != [] {
      var step := EnsureLoadedStep(s, attempts[0].load, attempts[0].elapsed);
      LoadRetriedUntilFirstSuccess(step.state, attempts[1..]);
      if !s.loaded && attempts[0].load.Err? {
        assert FirstSuccess(attempts) == 1 + FirstSuccess(attempts[1..]);
      }
    }
  }

  function LoadTimeValue(t: Option<real>): Value {
    match t
    case None => NoneValue
    case Some(x) => FloatValue(x)
  }

  /** The keys of the base class's info dictionary. */
  const InfoKeys: set<string> := {"name", "loaded", "load_time", "type"}

  /** `get_model_info`; `className` is `self.__class__.__name__`. */
  function ModelInfo(s: ModelState, className: string): (info: map<string, Value>)
    ensures info.Keys == InfoKeys
  {
    map["name" := StrValue(s.name), "loaded" := BoolValue(s.loaded),
        "load_time" := LoadTimeValue(s.loadTime), "type" := StrValue(className)]
  }

  /** Reading the state back from the info dictionary. */
  function StateFromInfo(info: map<string, Value>): Option<ModelState> {
    if "name" in info && "loaded" in info && "load_time" in info
       && info["name"].StrValue? && info["loaded"].BoolValue?
       && (info["load_time"].NoneValue? || info["load_time"].FloatValue?)
    then Some(ModelState(info["name"].s, info["loaded"].b,
                         if info["load_time"].NoneValue? then None else Some(info["load_time"].f)))
    else None
  }

  /** The info dictionary reports exactly the current name, loaded flag and load
      time: they can be read back from it. */
  lemma ModelInfoReportsState(s: ModelState, className: string)
    ensures StateFromInfo(ModelInfo(s, className)) == Some(s)
    ensures ModelInfo(s, className)["type"] == StrValue(className)
  {
  }

  /** The state read back depends only on the name, loaded and load_time entries. */
  lemma StateFromSameEntries(a: map<string, Value>, b: map<string, Value>)
    requires "name" in a && "loaded" in a && "load_time" in a
    requires "name" in b && "loaded" in b && "load_time" in b
    requires a["name"] == b["name"] && a["loaded"] == b["loaded"] && a["load_time"] == b["load_time"]
    ensures StateFromInfo(a) == StateFromInfo(b)
  {
  }

  /** The part of a `BaseAIModel` object that the base class manages. */
  class AIModel {
    const modelName: string
    var isLoaded: bool
    var loadTime: Option<real>

    function State(): ModelState
      reads this
    {
      ModelState(modelName, isLoaded, loadTime)
    }

    constructor (name: string)
      ensures State() == Initial(name)
    {
      modelName := name;
      isLoaded := false;
      loadTime := None;
    }

    /** `_ensure_loaded`; `invoked` reports whether `_load_model` was called. */
    method EnsureLoaded(load: Outcome<()>, elapsed: real) returns (r: Outcome<()>, invoked: bool)
      modifies this
      ensures var step := EnsureLoadedStep(old(State()), load, elapsed);
              State() == step.state && r == step.out && invoked == step.invoked
    {
      invoked := !isLoaded;
      r := Ok(());
      if !isLoaded {
        if load.Err? {
          r := load;
          return;
        }
        loadTime := Some(elapsed);
        isLoaded := true;
      }
    }

    function GetModelInfo(className: string): (info: map<string, Value>)
      reads this
      ensures StateFromInfo(info) == Some(State())
    {
      ModelInfoReportsState(State(), className);
      ModelInfo(State(), className)
    }
  }
}
