/**
 * The bilby adapter around the `kombine` ensemble sampler: the translation of
 * keyword aliases, the split of one keyword map into the engine's
 * constructor, burn-in and sampling keywords, the resume helpers, and the
 * step accounting and trimming of `run_sampler`.
 *
 * The engine itself is abstract: what it records is given to the model as an
 * `EngineState` (chain `[iteration][walker][dimension]`, blob trace
 * `[iteration][walker][2]`, and the number of iterations already saved), and
 * the calls made to it are returned as `EngineCall` values.
 */
module KombineSampler {
  import opened Wrappers
  import opened ChainArrays

  /** A Python keyword value, as far as the adapter looks at it. */
  datatype Value =
    | NoneVal
    | BoolVal(b: bool)
    | IntVal(i: int)
    | RealVal(r: real)
    | StrVal(s: string)
    | ListVal(items: seq<Value>)
    | ArrayVal(rows: seq<seq<real>>)
    | Opaque(name: string)

  type Kwargs = map<string, Value>

  datatype KombineError =
    | ValueError(msg: string)
    | SamplerError(msg: string)
    | KeyError(key: string)
    | TypeError
    | IndexError

  const WalkerMessage := "Kombine Sampler requires Iterations be > nWalkers"
  const NotBurnedInMessage := "The run has finished, but the chain is not burned in: `nburn < nsteps`. Try increasing the number of steps."

  /** The adapter's keyword defaults. */
  const DefaultKwargs: Kwargs := map[
    "nwalkers" := IntVal(500), "args" := ListVal([]), "pool" := NoneVal, "transd" := BoolVal(false),
    "lnpost0" := NoneVal, "blob0" := NoneVal, "iterations" := IntVal(500), "storechain" := BoolVal(true),
    "processes" := IntVal(1), "update_interval" := NoneVal, "kde" := NoneVal, "kde_size" := NoneVal,
    "spaces" := NoneVal, "freeze_transd" := BoolVal(false), "test_steps" := IntVal(16),
    "critical_pval" := RealVal(0.05), "max_steps" := NoneVal, "burnin_verbose" := BoolVal(false)]

  // ---------------------------------------------------------------------
  // Python numbers
  // ---------------------------------------------------------------------

  /** The number a value stands for in a Python comparison, if it is one (`bool` counts as 0 or 1). */
  function AsNumber(v: Value): Option<real> {
    match v
    case BoolVal(b) => Some(if b then 1.0 else 0.0)
    case IntVal(i) => Some(i as real)
    case RealVal(x) => Some(x)
    case _ => None
  }

  /** Python's `v + n` for an integer `n`; `None` where Python raises TypeError. */
  function Plus(v: Value, n: int): (r: Option<Value>)
    ensures r.Some? <==> AsNumber(v).Some?
    ensures r.Some? ==> AsNumber(r.value) == Some(AsNumber(v).value + n as real)
  {
    match v
    case BoolVal(b) => Some(IntVal((if b then 1 else 0) + n))
    case IntVal(i) => Some(IntVal(i + n))
    case RealVal(x) => Some(RealVal(x + n as real))
    case _ => None
  }

  /** Adding and then subtracting the same count gives back an `int` or `float` unchanged. */
  lemma PlusMinus(v: Value, n: int)
    requires v.IntVal? || v.RealVal?
    ensures Plus(v, n).Some? && Plus(Plus(v, n).value, -n) == Some(v)
  {
  }

  /** Python's `v != 1` is false exactly for `1`, `1.0` and `True`. */
  predicate EqualsOne(v: Value) {
    AsNumber(v) == Some(1.0)
  }

  // ---------------------------------------------------------------------
  // Construction check
  // ---------------------------------------------------------------------

  /** The check after the parent's construction: more walkers than iterations is refused. */
  function WalkerCheck(kw: Kwargs): (r: Outcome<KombineError>)
    ensures r == Fail(ValueError(WalkerMessage)) <==>
              "nwalkers" in kw && "iterations" in kw &&
              AsNumber(kw["nwalkers"]).Some? && AsNumber(kw["iterations"]).Some? &&
              AsNumber(kw["nwalkers"]).value > AsNumber(kw["iterations"]).value
    ensures r.Pass? <==>
              "nwalkers" in kw && "iterations" in kw &&
              AsNumber(kw["nwalkers"]).Some? && AsNumber(kw["iterations"]).Some? &&
              AsNumber(kw["nwalkers"]).value <= AsNumber(kw["iterations"]).value
  {
    if "nwalkers" !in kw then Fail(KeyError("nwalkers"))
    else if "iterations" !in kw then Fail(KeyError("iterations"))
    else
      match (AsNumber(kw["nwalkers"]), AsNumber(kw["iterations"]))
      case (Some(w), Some(n)) => if w > n then Fail(ValueError(WalkerMessage)) else Pass
      case _ => Fail(TypeError)
  }

  /** The defaults pass the check only because equal counts are allowed. */
  lemma {:induction false} DefaultsPassWalkerCheck()
    ensures WalkerCheck(DefaultKwargs).Pass?
    ensures DefaultKwargs["nwalkers"] == DefaultKwargs["iterations"]
  {
    assert AsNumber(DefaultKwargs["nwalkers"]) == Some(500.0);
    assert AsNumber(DefaultKwargs["iterations"]) == Some(500.0);
  }

  // ---------------------------------------------------------------------
  // Keyword translation
  // ---------------------------------------------------------------------

  /** One alias of the walker count: `kwargs['nwalkers'] = kwargs.pop(alias)` when present. */
  function AliasStep(kw: Kwargs, alias: string): Kwargs {
    if alias in kw then (kw - {alias})["nwalkers" := kw[alias]] else kw
  }

  /** The aliases in list order. */
  function AliasFold(kw: Kwargs, aliases: seq<string>): Kwargs
    decreases |aliases|
  {
    if aliases == [] then kw else AliasFold(AliasStep(kw, aliases[0]), aliases[1..])
  }

  /** `nsteps` becomes `iterations` unless `iterations` is there already. */
  function RenameSteps(kw: Kwargs): Kwargs {
    if "iterations" !in kw && "nsteps" in kw then (kw - {"nsteps"})["iterations" := kw["nsteps"]] else kw
  }

  /** A `processes` value other than 1 is replaced by 1. */
  function SingleProcess(kw: Kwargs): Kwargs {
    if "processes" in kw && !EqualsOne(kw["processes"]) then kw["processes" := IntVal(1)] else kw
  }

  /** What `_translate_kwargs` leaves in the caller's dictionary. */
  function Translated(kw: Kwargs, aliases: seq<string>): Kwargs {
    var walkers := if "nwalkers" in kw then kw else AliasFold(kw, aliases);
    SingleProcess(RenameSteps(walkers))
  }

  predicate Distinct(xs: seq<string>) {
    forall i, j :: 0 <= i < j < |xs| ==> xs[i] != xs[j]
  }

  /** The last alias in list order, other than `nwalkers` itself, that the map holds. */
  function LastAlias(kw: Kwargs, aliases: seq<string>): (r: Option<string>)
    ensures r.Some? ==> r.value in aliases && r.value in kw && r.value != "nwalkers"
    decreases |aliases|
  {
    if aliases == [] then None
    else match LastAlias(kw, aliases[1..])
      case Some(a) => Some(a)
      case None => if aliases[0] in kw && aliases[0] != "nwalkers" then Some(aliases[0]) else None
  }

  lemma {:induction false} LastAliasAgrees(kw: Kwargs, kw': Kwargs, aliases: seq<string>)
    requires forall a :: a in aliases && a != "nwalkers" ==> (a in kw <==> a in kw')
    ensures LastAlias(kw, aliases) == LastAlias(kw', aliases)
    decreases |aliases|
  {
    if aliases != [] {
      LastAliasAgrees(kw, kw', aliases[1..]);
    }
  }

  /**
   * Folding distinct aliases: every alias other than `nwalkers` is gone, the
   * walker count holds the value of the last alias present, and every other
   * key is untouched.
   */
  lemma {:induction false} AliasFoldFacts(kw: Kwargs, aliases: seq<string>)
    requires Distinct(aliases)
    ensures forall a :: a in aliases && a != "nwalkers" ==> a !in AliasFold(kw, aliases)
    ensures LastAlias(kw, aliases).Some? ==>
              "nwalkers" in AliasFold(kw, aliases) &&
              AliasFold(kw, aliases)["nwalkers"] == kw[LastAlias(kw, aliases).value]
    ensures LastAlias(kw, aliases).None? ==>
              ("nwalkers" in AliasFold(kw, aliases) <==> "nwalkers" in kw) &&
              ("nwalkers" in kw ==> AliasFold(kw, aliases)["nwalkers"] == kw["nwalkers"])
    ensures forall k :: k !in aliases && k != "nwalkers" ==>
              (k in AliasFold(kw, aliases) <==> k in kw) &&
              (k in kw ==> AliasFold(kw, aliases)[k] == kw[k])
    decreases |aliases|
  {
    if aliases != [] {
      var a := aliases[0];
      var rest := aliases[1..];
      var kw1 := AliasStep(kw, a);
      assert Distinct(rest);
      assert a !in rest;
      AliasFoldFacts(kw1, rest);
      LastAliasAgrees(kw, kw1, rest);
      if a == "nwalkers" && a in kw {
        assert kw1 == kw;
      }
    }
  }

  /**
   * The walker count after translation: with `nwalkers` absent, the aliases
   * are removed and the last present one gives the value; with `nwalkers`
   * present, the aliases stay as they were.
   */
  lemma TranslatedWalkers(kw: Kwargs, aliases: seq<string>)
    requires Distinct(aliases)
    requires "iterations" !in aliases && "nsteps" !in aliases && "processes" !in aliases
    ensures "nwalkers" !in kw ==>
              (forall a :: a in aliases && a != "nwalkers" ==> a !in Translated(kw, aliases)) &&
              (LastAlias(kw, aliases).Some? ==>
                 "nwalkers" in Translated(kw, aliases) &&
                 Translated(kw, aliases)["nwalkers"] == kw[LastAlias(kw, aliases).value]) &&
              (LastAlias(kw, aliases).None? ==> "nwalkers" !in Translated(kw, aliases))
    ensures "nwalkers" in kw ==>
              forall a :: a in aliases ==>
                (a in Translated(kw, aliases) <==> a in kw) &&
                (a in kw ==> Translated(kw, aliases)[a] == kw[a])
  {
    AliasFoldFacts(kw, aliases);
  }

  /** `nsteps` is renamed to `iterations` only when `iterations` is absent. */
  lemma TranslatedSteps(kw: Kwargs, aliases: seq<string>)
    requires Distinct(aliases)
    requires "iterations" !in aliases && "nsteps" !in aliases
    ensures "iterations" in kw ==>
              "iterations" in Translated(kw, aliases) && Translated(kw, aliases)["iterations"] == kw["iterations"] &&
              ("nsteps" in Translated(kw, aliases) <==> "nsteps" in kw) &&
              ("nsteps" in kw ==> Translated(kw, aliases)["nsteps"] == kw["nsteps"])
    ensures "iterations" !in kw && "nsteps" in kw ==>
              "iterations" in Translated(kw, aliases) && Translated(kw, aliases)["iterations"] == kw["nsteps"] &&
              "nsteps" !in Translated(kw, aliases)
    ensures "iterations" !in kw && "nsteps" !in kw ==>
              "iterations" !in Translated(kw, aliases) && "nsteps" !in Translated(kw, aliases)
  {
    AliasFoldFacts(kw, aliases);
  }

  /** `processes`, when given, comes out as a value equal to 1, and is not added otherwise. */
  lemma TranslatedProcesses(kw: Kwargs, aliases: seq<string>)
    requires Distinct(aliases)
    requires "iterations" !in aliases && "processes" !in aliases
    ensures "processes" in Translated(kw, aliases) <==> "processes" in kw
    ensures "processes" in kw ==>
              Translated(kw, aliases)["processes"] ==
                (if EqualsOne(kw["processes"]) then kw["processes"] else IntVal(1))
    ensures "processes" in kw ==> EqualsOne(Translated(kw, aliases)["processes"])
  {
    AliasFoldFacts(kw, aliases);
  }

  /** No key outside the aliases and the four handled names is added, removed or changed. */
  lemma TranslatedOthers(kw: Kwargs, aliases: seq<string>, k: string)
    requires Distinct(aliases)
    requires k !in aliases && k != "nwalkers" && k != "iterations" && k != "nsteps" && k != "processes"
    ensures k in Translated(kw, aliases) <==> k in kw
    ensures k in kw ==> Translated(kw, aliases)[k] == kw[k]
  {
    AliasFoldFacts(kw, aliases);
  }

  /** A dictionary owned by the caller, changed in place. */
  class KeywordMap {
    var items: Kwargs

    constructor (items0: Kwargs)
      ensures items == items0
    {
      items := items0;
    }
  }

  // ---------------------------------------------------------------------
  // The three keyword maps
  // ---------------------------------------------------------------------

  const FunctionKeys: seq<string> := ["lnpost0", "blob0", "iterations", "storechain", "lnprop0",
                                      "update_interval", "kde", "kde_size", "spaces", "freeze_transd"]
  const ExtraKeys: seq<string> := ["test_steps", "critical_pval", "max_steps", "burnin_verbose"]
  const RemovalKeys: seq<string> := ["iterations", "spaces", "freeze_transd"]

  /** The sampling-call keywords: the listed keys that are set, and `p0`. */
  function FunctionKwargs(kwargs: Kwargs, pos0: Value): (r: Kwargs)
    ensures forall k :: k in r <==> k == "p0" || (k in FunctionKeys && k in kwargs)
    ensures "p0" in r && r["p0"] == pos0
    ensures forall k :: k in r && k != "p0" ==> r[k] == kwargs[k]
  {
    (map k | k in kwargs && k in FunctionKeys :: kwargs[k])["p0" := pos0]
  }

  /** Which keys the burn-in map holds. */
  predicate InBurnin(kwargs: Kwargs, k: string) {
    k == "p0" || (k == "verbose" && "burnin_verbose" in kwargs) ||
    ((k in FunctionKeys || k in ExtraKeys) && k !in RemovalKeys && k != "burnin_verbose" && k in kwargs)
  }

  /**
   * The burn-in-call keywords: the sampling keywords and the set extras,
   * with `burnin_verbose` renamed to `verbose` and the step-count keys
   * removed.
   */
  function BurninKwargs(kwargs: Kwargs, pos0: Value): Kwargs {
    map k | k in kwargs.Keys + {"p0", "verbose"} && InBurnin(kwargs, k) ::
      if k == "p0" then pos0 else if k == "verbose" then kwargs["burnin_verbose"] else kwargs[k]
  }

  lemma StepKeysRemoved(k: string)
    requires k == "iterations" || k == "spaces" || k == "freeze_transd" || k == "burnin_verbose"
    ensures !InBurnin(map[], k) && k != "p0" && k != "verbose" && (k in RemovalKeys || k == "burnin_verbose")
  {
  }

  /**
   * `iterations`, `spaces`, `freeze_transd` and `burnin_verbose` are never
   * burn-in keywords; `verbose` is one exactly when `burnin_verbose` is set,
   * with its value; `p0` always is.
   */
  lemma BurninKwargsFixed(kwargs: Kwargs, pos0: Value)
    ensures "iterations" !in BurninKwargs(kwargs, pos0) && "spaces" !in BurninKwargs(kwargs, pos0) &&
            "freeze_transd" !in BurninKwargs(kwargs, pos0) && "burnin_verbose" !in BurninKwargs(kwargs, pos0)
    ensures "verbose" in BurninKwargs(kwargs, pos0) <==> "burnin_verbose" in kwargs
    ensures "verbose" in BurninKwargs(kwargs, pos0) ==> BurninKwargs(kwargs, pos0)["verbose"] == kwargs["burnin_verbose"]
    ensures "p0" in BurninKwargs(kwargs, pos0) && BurninKwargs(kwargs, pos0)["p0"] == pos0
  {
    StepKeysRemoved("iterations");
    StepKeysRemoved("spaces");
    StepKeysRemoved("freeze_transd");
    StepKeysRemoved("burnin_verbose");
    assert "verbose" !in FunctionKeys && "verbose" !in ExtraKeys;
  }

  /**
   * The rest of the burn-in map is exactly the sampling keywords other than
   * the step-count ones, and the set extras other than `burnin_verbose`.
   */
  lemma BurninKwargsCopied(kwargs: Kwargs, pos0: Value, k: string)
    requires k != "p0" && k != "verbose"
    ensures k in BurninKwargs(kwargs, pos0) <==>
              ((k in FunctionKwargs(kwargs, pos0) && k !in RemovalKeys) ||
               (k in ExtraKeys && k != "burnin_verbose" && k in kwargs))
    ensures k in BurninKwargs(kwargs, pos0) ==> BurninKwargs(kwargs, pos0)[k] == kwargs[k]
  {
    if k in ExtraKeys && k != "burnin_verbose" {
      ExtrasKept(k);
    }
  }

  lemma ExtrasKept(k: string)
    requires k in ExtraKeys && k != "burnin_verbose"
    ensures k !in RemovalKeys
  {
  }

  /** `m[key] = src[key]` for each listed key that `src` holds, in order. */
  function CopyPresent(m: Kwargs, src: Kwargs, keys: seq<string>): Kwargs
    decreases |keys|
  {
    if keys == [] then m
    else CopyPresent(if keys[0] in src then m[keys[0] := src[keys[0]]] else m, src, keys[1..])
  }

  lemma {:induction false} CopyPresentAt(m: Kwargs, src: Kwargs, keys: seq<string>, k: string)
    ensures k in CopyPresent(m, src, keys) <==> k in m || (k in keys && k in src)
    ensures k in CopyPresent(m, src, keys) ==>
              CopyPresent(m, src, keys)[k] == if k in keys && k in src then src[k] else m[k]
    decreases |keys|
  {
    if keys != [] {
      CopyPresentAt(if keys[0] in src then m[keys[0] := src[keys[0]]] else m, src, keys[1..], k);
    }
  }

  /** `m.pop(key)` for each listed key that `m` holds. */
  function RemoveAll(m: Kwargs, keys: seq<string>): Kwargs
    decreases |keys|
  {
    if keys == [] then m else RemoveAll(m - {keys[0]}, keys[1..])
  }

  lemma {:induction false} RemoveAllAt(m: Kwargs, keys: seq<string>, k: string)
    ensures k in RemoveAll(m, keys) <==> k in m && k !in keys
    ensures k in RemoveAll(m, keys) ==> RemoveAll(m, keys)[k] == m[k]
    decreases |keys|
  {
    if keys != [] {
      RemoveAllAt(m - {keys[0]}, keys[1..], k);
    }
  }

  /** `burnin_kwargs['verbose'] = burnin_kwargs.pop('burnin_verbose')` when present. */
  function RenameVerbose(m: Kwargs): Kwargs {
    if "burnin_verbose" in m then (m - {"burnin_verbose"})["verbose" := m["burnin_verbose"]] else m
  }

  lemma VerboseKeys()
    ensures "verbose" !in FunctionKeys && "verbose" !in ExtraKeys && "verbose" !in RemovalKeys
    ensures "burnin_verbose" in ExtraKeys && "burnin_verbose" !in FunctionKeys && "burnin_verbose" !in RemovalKeys
  {
  }

  /** The steps of `sampler_burnin_kwargs`, one key at a time, give the burn-in map. */
  lemma BurninStepsAt(kwargs: Kwargs, pos0: Value, k: string)
    ensures var r := RemoveAll(RenameVerbose(CopyPresent(FunctionKwargs(kwargs, pos0), kwargs, ExtraKeys)), RemovalKeys);
            (k in r <==> k in BurninKwargs(kwargs, pos0)) && (k in r ==> r[k] == BurninKwargs(kwargs, pos0)[k])
  {
    var f := FunctionKwargs(kwargs, pos0);
    var c := CopyPresent(f, kwargs, ExtraKeys);
    var v := RenameVerbose(c);
    RemoveAllAt(v, RemovalKeys, k);
    if k == "verbose" {
      CopyPresentAt(f, kwargs, ExtraKeys, "burnin_verbose");
      CopyPresentAt(f, kwargs, ExtraKeys, "verbose");
      VerboseKeys();
    } else if k == "burnin_verbose" {
      StepKeysRemoved(k);
    } else {
      CopyPresentAt(f, kwargs, ExtraKeys, k);
      assert k in v <==> k in c;
    }
  }

  lemma BurninSteps(kwargs: Kwargs, pos0: Value)
    ensures RemoveAll(RenameVerbose(CopyPresent(FunctionKwargs(kwargs, pos0), kwargs, ExtraKeys)), RemovalKeys)
            == BurninKwargs(kwargs, pos0)
  {
    forall k {
      BurninStepsAt(kwargs, pos0, k);
    }
  }

  /** The keys the constructor map always sets are none of the listed call keys. */
  lemma FixedKeysUnlisted(k: string)
    requires k == "lnpostfn" || k == "ndim" || k == "pool"
    ensures k !in FunctionKeys && k !in ExtraKeys && k != "p0" && k != "verbose"
  {
  }

  /** The configured keys that neither of the two call maps holds. */
  function Unclaimed(kwargs: Kwargs, f: Kwargs, b: Kwargs): (r: Kwargs)
    ensures forall k :: k in r <==> k in kwargs && k !in f && k !in b
    ensures forall k :: k in r ==> r[k] == kwargs[k]
  {
    map k | k in kwargs && k !in f && k !in b :: kwargs[k]
  }

  /** The engine-constructor keywords; the pop of `burnin_verbose` raises KeyError when it is not set. */
  function InitKwargs(kwargs: Kwargs, pos0: Value, lnpostfn: Value, ndim: nat): Result<Kwargs, KombineError> {
    var init := Unclaimed(kwargs, FunctionKwargs(kwargs, pos0), BurninKwargs(kwargs, pos0));
    if "burnin_verbose" !in init then Err(KeyError("burnin_verbose"))
    else Ok((init - {"burnin_verbose"})["lnpostfn" := lnpostfn]["ndim" := IntVal(ndim)]["pool" := NoneVal])
  }

  /** The constructor keywords fail exactly when `burnin_verbose` is not set. */
  lemma InitKwargsFails(kwargs: Kwargs, pos0: Value, lnpostfn: Value, ndim: nat)
    ensures InitKwargs(kwargs, pos0, lnpostfn, ndim).Err? <==> "burnin_verbose" !in kwargs
    ensures InitKwargs(kwargs, pos0, lnpostfn, ndim).Err? ==>
              InitKwargs(kwargs, pos0, lnpostfn, ndim).error == KeyError("burnin_verbose")
  {
  }

  /** They always carry `lnpostfn`, `ndim` and `pool = None`, and never `burnin_verbose`. */
  lemma InitKwargsFixed(kwargs: Kwargs, pos0: Value, lnpostfn: Value, ndim: nat)
    requires InitKwargs(kwargs, pos0, lnpostfn, ndim).Ok?
    ensures var r := InitKwargs(kwargs, pos0, lnpostfn, ndim).value;
            "lnpostfn" in r && r["lnpostfn"] == lnpostfn && "ndim" in r && r["ndim"] == IntVal(ndim) &&
            "pool" in r && r["pool"] == NoneVal && "burnin_verbose" !in r
  {
  }

  /**
   * A key of the constructor map is in neither of the other two maps, and
   * apart from the three fixed ones it holds its configured value.
   */
  lemma InitKwargsAt(kwargs: Kwargs, pos0: Value, lnpostfn: Value, ndim: nat, k: string)
    requires InitKwargs(kwargs, pos0, lnpostfn, ndim).Ok?
    requires k in InitKwargs(kwargs, pos0, lnpostfn, ndim).value
    ensures k !in FunctionKwargs(kwargs, pos0) && k !in BurninKwargs(kwargs, pos0)
    ensures k != "lnpostfn" && k != "ndim" && k != "pool" ==>
              k in kwargs && InitKwargs(kwargs, pos0, lnpostfn, ndim).value[k] == kwargs[k]
  {
    var f := FunctionKwargs(kwargs, pos0);
    var b := BurninKwargs(kwargs, pos0);
    var init := Unclaimed(kwargs, f, b);
    if k == "lnpostfn" || k == "ndim" || k == "pool" {
      FixedKeysUnlisted(k);
    } else {
      assert k in init;
    }
  }

  /** Every configured key lands in one of the three maps, `burnin_verbose` as the burn-in `verbose`. */
  lemma KwargsCovered(kwargs: Kwargs, pos0: Value, lnpostfn: Value, ndim: nat, k: string)
    requires InitKwargs(kwargs, pos0, lnpostfn, ndim).Ok? && k in kwargs
    ensures k in FunctionKwargs(kwargs, pos0) || k in BurninKwargs(kwargs, pos0) ||
            (k == "burnin_verbose" && "verbose" in BurninKwargs(kwargs, pos0)) ||
            k in InitKwargs(kwargs, pos0, lnpostfn, ndim).value
  {
  }

  // ---------------------------------------------------------------------
  // The engine and the run
  // ---------------------------------------------------------------------

  /** What the engine has recorded: its chain, its blobs, and how many iterations were saved before. */
  datatype EngineState = EngineState(chain: Chain, blobs: Chain, previousIterations: nat)

  /** A call the adapter makes on the engine. */
  datatype EngineCall =
    | Burnin(kwargs: Kwargs)
    | Sample(iterations: Value, kwargs: Kwargs)

  /** A floating-point result field: the adapter only ever stores NaN or a number. */
  datatype Float = NaN | Num(x: real)

  /** The fields `run_sampler` sets on the result. */
  datatype RunOutput = RunOutput(
    samplerOutput: Float,
    nburn: int,
    samples: seq<seq<real>>,
    logLikelihoods: seq<real>,
    logPriors: seq<real>,
    walkers: Chain,
    logEvidence: Float,
    logEvidenceErr: Float)

  /** The object state `run_sampler` reads and changes. */
  datatype Snapshot = Snapshot(kwargs: Kwargs, pos0: Value, nburn: int, engine: EngineState)

  /** A stage of the run: the state it leaves, the engine calls it made, and whether it raised. */
  datatype Stage = Stage(snap: Snapshot, calls: seq<EngineCall>, outcome: Outcome<KombineError>)

  /** The automatic burn-in, run unless resuming; afterwards the engine state is `burnt`. */
  function BurninStage(s: Snapshot, autoburnin: bool, resuming: bool, burnt: EngineState): Stage {
    if !autoburnin || resuming then Stage(s, [], Pass)
    else
      var calls := [Burnin(BurninKwargs(s.kwargs, s.pos0))];
      var s1 := s.(engine := burnt);
      if "iterations" !in s.kwargs then Stage(s1, calls, Fail(KeyError("iterations")))
      else match Plus(s.kwargs["iterations"], burnt.previousIterations)
        case None => Stage(s1, calls, Fail(TypeError))
        case Some(total) =>
          var s2 := s1.(kwargs := s.kwargs["iterations" := total], nburn := burnt.previousIterations);
          if burnt.chain == [] then Stage(s2, calls, Fail(IndexError))
          else Stage(s2.(pos0 := ArrayVal(burnt.chain[|burnt.chain| - 1])), calls, Pass)
  }

  /** The sampling call for the configured iterations less those already saved; afterwards the engine state is `sampled`. */
  function SampleStage(s: Snapshot, sampled: EngineState): Stage {
    var fk := FunctionKwargs(s.kwargs, s.pos0);
    if "iterations" !in fk then Stage(s, [], Fail(KeyError("iterations")))
    else match Plus(fk["iterations"], -(s.engine.previousIterations as int))
      case None => Stage(s, [], Fail(TypeError))
      case Some(n) => Stage(s.(engine := sampled), [Sample(n, (fk - {"iterations"})["p0" := s.pos0])], Pass)
  }

  lemma SampleStageFails(s: Snapshot, sampled: EngineState)
    requires "iterations" !in FunctionKwargs(s.kwargs, s.pos0)
    ensures SampleStage(s, sampled) == Stage(s, [], Fail(KeyError("iterations")))
  {
  }

  /** The result fields, from the final state; the run fails when the chain is not burned in or cannot take the walker shape. */
  function Finalise(s: Snapshot, nsteps: nat, nwalkers: nat, ndim: nat): Result<RunOutput, KombineError>
    requires Shaped(s.engine.chain, nwalkers, ndim) && Shaped(s.engine.blobs, nwalkers, 2)
  {
    if s.nburn > nsteps then Err(SamplerError(NotBurnedInMessage))
    else
      var samples := Concat(SliceFrom(s.engine.chain, s.nburn));
      var trimmed := SliceFrom(s.engine.blobs, s.nburn);
      SliceShaped(s.engine.blobs, s.nburn, nwalkers, 2);
      RowsOfShaped(trimmed, nwalkers, 2);
      var blobRows := Concat(trimmed);
      match Reshape3(Flatten3(s.engine.chain), nwalkers, nsteps, ndim)
      case None => Err(ValueError("cannot reshape the chain into (nwalkers, nsteps, ndim)"))
      case Some(w) => Ok(RunOutput(NaN, s.nburn, samples, Column(blobRows, 0), Column(blobRows, 1), w, NaN, NaN))
  }

  /** The whole of a run: the final state, the engine calls, and the result or the error raised. */
  datatype RunTrace = RunTrace(snap: Snapshot, calls: seq<EngineCall>, result: Result<RunOutput, KombineError>)

  function RunSpec(s: Snapshot, autoburnin: bool, resuming: bool, burnt: EngineState, sampled: EngineState,
                   nburnEstimate: int, nsteps: nat, nwalkers: nat, ndim: nat): RunTrace
    requires Shaped(sampled.chain, nwalkers, ndim) && Shaped(sampled.blobs, nwalkers, 2)
  {
    var b := BurninStage(s, autoburnin, resuming, burnt);
    if b.outcome.Fail? then RunTrace(b.snap, b.calls, Err(b.outcome.error))
    else
      var t := SampleStage(b.snap, sampled);
      if t.outcome.Fail? then RunTrace(t.snap, b.calls + t.calls, Err(t.outcome.error))
      else
        var f := if autoburnin then t.snap else t.snap.(nburn := nburnEstimate);
        RunTrace(f, b.calls + t.calls, Finalise(f, nsteps, nwalkers, ndim))
  }

  /**
   * A fresh run with automatic burn-in: the burn-in is called, the configured
   * iteration count grows by the iterations it saved, `nburn` becomes that
   * count, `pos0` the last iteration of its chain, and the sampling call asks
   * for exactly the configured count.
   */
  lemma FreshBurninSteps(s: Snapshot, burnt: EngineState, sampled: EngineState, nburnEstimate: int,
                         nsteps: nat, nwalkers: nat, ndim: nat, iterations: int)
    requires Shaped(sampled.chain, nwalkers, ndim) && Shaped(sampled.blobs, nwalkers, 2)
    requires "iterations" in s.kwargs && s.kwargs["iterations"] == IntVal(iterations) && burnt.chain != []
    ensures var t := RunSpec(s, true, false, burnt, sampled, nburnEstimate, nsteps, nwalkers, ndim);
            |t.calls| == 2 && t.calls[0] == Burnin(BurninKwargs(s.kwargs, s.pos0)) &&
            t.calls[1].Sample? && t.calls[1].iterations == IntVal(iterations) &&
            t.snap.kwargs == s.kwargs["iterations" := IntVal(iterations + burnt.previousIterations)] &&
            t.snap.nburn == burnt.previousIterations &&
            t.snap.pos0 == ArrayVal(burnt.chain[|burnt.chain| - 1]) &&
            t.snap.engine == sampled
  {
    var b := BurninStage(s, true, false, burnt);
    assert b.snap.engine == burnt;
    assert FunctionKwargs(b.snap.kwargs, b.snap.pos0)["iterations"] == IntVal(iterations + burnt.previousIterations);
  }

  /** Resuming with automatic burn-in skips the burn-in call; the sampling call asks for the iterations still missing. */
  lemma ResumeSkipsBurnin(s: Snapshot, burnt: EngineState, sampled: EngineState, nburnEstimate: int,
                          nsteps: nat, nwalkers: nat, ndim: nat, iterations: int)
    requires Shaped(sampled.chain, nwalkers, ndim) && Shaped(sampled.blobs, nwalkers, 2)
    requires "iterations" in s.kwargs && s.kwargs["iterations"] == IntVal(iterations)
    ensures var t := RunSpec(s, true, true, burnt, sampled, nburnEstimate, nsteps, nwalkers, ndim);
            |t.calls| == 1 && t.calls[0].Sample? &&
            t.calls[0].iterations == IntVal(iterations - s.engine.previousIterations) &&
            t.snap == s.(engine := sampled)
  {
    assert FunctionKwargs(s.kwargs, s.pos0)["iterations"] == IntVal(iterations);
  }

  /** Without automatic burn-in the sampling call asks for the iterations still missing, and `nburn` is the estimate. */
  lemma PlainRunSteps(s: Snapshot, resuming: bool, burnt: EngineState, sampled: EngineState, nburnEstimate: int,
                      nsteps: nat, nwalkers: nat, ndim: nat, iterations: int)
    requires Shaped(sampled.chain, nwalkers, ndim) && Shaped(sampled.blobs, nwalkers, 2)
    requires "iterations" in s.kwargs && s.kwargs["iterations"] == IntVal(iterations)
    ensures var t := RunSpec(s, false, resuming, burnt, sampled, nburnEstimate, nsteps, nwalkers, ndim);
            |t.calls| == 1 && t.calls[0].Sample? &&
            t.calls[0].iterations == IntVal(iterations - s.engine.previousIterations) &&
            t.snap == s.(engine := sampled, nburn := nburnEstimate)
  {
    assert FunctionKwargs(s.kwargs, s.pos0)["iterations"] == IntVal(iterations);
  }

  /** The sampling call carries the sampling keywords without `iterations`, with `p0` the current start. */
  lemma SampleCallKwargs(s: Snapshot, sampled: EngineState)
    requires SampleStage(s, sampled).outcome.Pass?
    ensures var c := SampleStage(s, sampled).calls;
            |c| == 1 && c[0].Sample? &&
            (forall k :: k in c[0].kwargs <==> k == "p0" || (k in FunctionKeys && k != "iterations" && k in s.kwargs)) &&
            c[0].kwargs["p0"] == s.pos0 &&
            (forall k :: k in c[0].kwargs && k != "p0" ==> c[0].kwargs[k] == s.kwargs[k])
  {
  }

  /** The run fails as not burned in exactly when `nburn > nsteps`; past that, only a walker reshape of the wrong size fails. */
  lemma FinaliseErrors(s: Snapshot, nsteps: nat, nwalkers: nat, ndim: nat)
    requires Shaped(s.engine.chain, nwalkers, ndim) && Shaped(s.engine.blobs, nwalkers, 2)
    ensures Finalise(s, nsteps, nwalkers, ndim) == Err(SamplerError(NotBurnedInMessage)) <==> s.nburn > nsteps
    ensures Finalise(s, nsteps, nwalkers, ndim).Err? <==>
              s.nburn > nsteps || |Flatten3(s.engine.chain)| != nwalkers * nsteps * ndim
  {
    Reshape3Facts(Flatten3(s.engine.chain), nwalkers, nsteps, ndim);
  }

  /**
   * The samples are the iterations from `nburn` on, flattened
   * iteration-major: walker `j` of kept iteration `i` is row `i * nwalkers + j`,
   * of `ndim` components.
   */
  lemma FinaliseSamples(s: Snapshot, nsteps: nat, nwalkers: nat, ndim: nat, i: nat, j: nat)
    requires Shaped(s.engine.chain, nwalkers, ndim) && Shaped(s.engine.blobs, nwalkers, 2)
    requires Finalise(s, nsteps, nwalkers, ndim).Ok?
    requires i < |SliceFrom(s.engine.chain, s.nburn)| && j < nwalkers
    ensures var out := Finalise(s, nsteps, nwalkers, ndim).value;
            |out.samples| == |SliceFrom(s.engine.chain, s.nburn)| * nwalkers &&
            (forall r :: 0 <= r < |out.samples| ==> |out.samples[r]| == ndim) &&
            i * nwalkers + j < |out.samples| &&
            out.samples[i * nwalkers + j] == SliceFrom(s.engine.chain, s.nburn)[i][j]
  {
    var kept := SliceFrom(s.engine.chain, s.nburn);
    SliceShaped(s.engine.chain, s.nburn, nwalkers, ndim);
    RowsOfShaped(kept, nwalkers, ndim);
    ConcatAt(kept, nwalkers, i, j);
  }

  /**
   * Log-likelihoods and log-priors are columns 0 and 1 of the kept blobs,
   * flattened the same way, so with a blob per chain iteration they line up
   * with the samples.
   */
  lemma FinaliseColumns(s: Snapshot, nsteps: nat, nwalkers: nat, ndim: nat)
    requires Shaped(s.engine.chain, nwalkers, ndim) && Shaped(s.engine.blobs, nwalkers, 2)
    requires Finalise(s, nsteps, nwalkers, ndim).Ok?
    ensures var out := Finalise(s, nsteps, nwalkers, ndim).value;
            var rows := Concat(SliceFrom(s.engine.blobs, s.nburn));
            |out.logLikelihoods| == |rows| && |out.logPriors| == |rows| &&
            (forall r :: 0 <= r < |rows| ==> |rows[r]| == 2) &&
            (forall r :: 0 <= r < |rows| ==> out.logLikelihoods[r] == rows[r][0] && out.logPriors[r] == rows[r][1])
    ensures |s.engine.blobs| == |s.engine.chain| ==>
              var out := Finalise(s, nsteps, nwalkers, ndim).value;
              |out.logLikelihoods| == |out.samples| && |out.logPriors| == |out.samples|
  {
    var kept := SliceFrom(s.engine.chain, s.nburn);
    SliceShaped(s.engine.chain, s.nburn, nwalkers, ndim);
    RowsOfShaped(kept, nwalkers, ndim);
    var trimmed := SliceFrom(s.engine.blobs, s.nburn);
    SliceShaped(s.engine.blobs, s.nburn, nwalkers, 2);
    RowsOfShaped(trimmed, nwalkers, 2);
  }

  /** The walkers are the whole chain in the same flat order, shaped `(nwalkers, nsteps, ndim)`; the evidence fields are NaN. */
  lemma FinaliseWalkers(s: Snapshot, nsteps: nat, nwalkers: nat, ndim: nat)
    requires Shaped(s.engine.chain, nwalkers, ndim) && Shaped(s.engine.blobs, nwalkers, 2)
    requires Finalise(s, nsteps, nwalkers, ndim).Ok?
    ensures var out := Finalise(s, nsteps, nwalkers, ndim).value;
            Flatten3(out.walkers) == Flatten3(s.engine.chain) &&
            |out.walkers| == nwalkers && Shaped(out.walkers, nsteps, ndim) &&
            out.nburn == s.nburn && out.logEvidence == NaN && out.logEvidenceErr == NaN && out.samplerOutput == NaN
  {
    Reshape3Facts(Flatten3(s.engine.chain), nwalkers, nsteps, ndim);
  }

  // ---------------------------------------------------------------------
  // The adapter object
  // ---------------------------------------------------------------------

  class Kombine {
    var kwargs: Kwargs
    /** The parent's list of aliases for the walker count. */
    const aliases: seq<string>
    var pos0: Value
    const resume: bool
    /** Whether the checkpoint file exists on disk. */
    const checkpointExists: bool
    const autoburnin: bool
    var nburn: int
    const ndim: nat
    const nwalkers: nat
    const nsteps: nat
    const lnpostfn: Value
    var engine: EngineState

    constructor Init(kwargs0: Kwargs, aliases0: seq<string>, pos00: Value, resume0: bool, checkpointExists0: bool,
                     autoburnin0: bool, nburn0: int, ndim0: nat, nwalkers0: nat, nsteps0: nat, lnpostfn0: Value,
                     engine0: EngineState)
      requires WalkerCheck(kwargs0).Pass?
      ensures kwargs == kwargs0 && aliases == aliases0 && pos0 == pos00 && resume == resume0
      ensures checkpointExists == checkpointExists0 && autoburnin == autoburnin0 && nburn == nburn0
      ensures ndim == ndim0 && nwalkers == nwalkers0 && nsteps == nsteps0 && lnpostfn == lnpostfn0 && engine == engine0
    {
      kwargs := kwargs0;
      aliases := aliases0;
      pos0 := pos00;
      resume := resume0;
      checkpointExists := checkpointExists0;
      autoburnin := autoburnin0;
      nburn := nburn0;
      ndim := ndim0;
      nwalkers := nwalkers0;
      nsteps := nsteps0;
      lnpostfn := lnpostfn0;
      engine := engine0;
    }

    /** Construction from the parent's merged keywords: refused when the walker check fails. */
    static method New(kwargs0: Kwargs, aliases0: seq<string>, pos00: Value, resume0: bool, checkpointExists0: bool,
                      autoburnin0: bool, nburn0: int, ndim0: nat, nwalkers0: nat, nsteps0: nat, lnpostfn0: Value,
                      engine0: EngineState)
      returns (r: Result<Kombine, KombineError>)
      ensures r.Err? <==> WalkerCheck(kwargs0).Fail?
      ensures r.Err? ==> r.error == WalkerCheck(kwargs0).error
      ensures r.Ok? ==> fresh(r.value) && r.value.kwargs == kwargs0 && r.value.autoburnin == autoburnin0 &&
                        r.value.pos0 == pos00 && r.value.nburn == nburn0 && r.value.engine == engine0
    {
      var check := WalkerCheck(kwargs0);
      if check.Fail? {
        return Err(check.error);
      }
      var k := new Kombine.Init(kwargs0, aliases0, pos00, resume0, checkpointExists0, autoburnin0, nburn0,
                                ndim0, nwalkers0, nsteps0, lnpostfn0, engine0);
      return Ok(k);
    }

    function Snap(): Snapshot
      reads this
    {
      Snapshot(kwargs, pos0, nburn, engine)
    }

    /** `_translate_kwargs` on the caller's dictionary, in place. */
    method TranslateKwargs(d: KeywordMap)
      modifies d
      ensures d.items == Translated(old(d.items), aliases)
    {
      if "nwalkers" !in d.items {
        ghost var start := d.items;
        var i := 0;
        while i < |aliases|
          invariant 0 <= i <= |aliases|
          invariant AliasFold(d.items, aliases[i..]) == AliasFold(start, aliases)
        {
          var alias := aliases[i];
          assert aliases[i..] == [alias] + aliases[i + 1..];
          if alias in d.items {
            var v := d.items[alias];
            d.items := (d.items - {alias})["nwalkers" := v];
          }
          i := i + 1;
        }
      }
      if "iterations" !in d.items && "nsteps" in d.items {
        var v := d.items["nsteps"];
        d.items := (d.items - {"nsteps"})["iterations" := v];
      }
      if "processes" in d.items && !EqualsOne(d.items["processes"]) {
        d.items := d.items["processes" := IntVal(1)];
      }
    }

    /** `sampler_burnin_kwargs`, built with its two loops. */
    method SamplerBurninKwargs() returns (r: Kwargs)
      ensures r == BurninKwargs(kwargs, pos0)
    {
      var base := FunctionKwargs(kwargs, pos0);
      r := base;
      for i := 0 to |ExtraKeys|
        invariant CopyPresent(r, kwargs, ExtraKeys[i..]) == CopyPresent(base, kwargs, ExtraKeys)
      {
        var key := ExtraKeys[i];
        assert ExtraKeys[i..] == [key] + ExtraKeys[i + 1..];
        if key in kwargs {
          r := r[key := kwargs[key]];
        }
      }
      if "burnin_verbose" in r {
        var v := r["burnin_verbose"];
        r := (r - {"burnin_verbose"})["verbose" := v];
      }
      ghost var renamed := r;
      for i := 0 to |RemovalKeys|
        invariant RemoveAll(r, RemovalKeys[i..]) == RemoveAll(renamed, RemovalKeys)
      {
        var key := RemovalKeys[i];
        assert RemovalKeys[i..] == [key] + RemovalKeys[i + 1..];
        if key in r {
          r := r - {key};
        } else {
          assert r - {key} == r;
        }
      }
      BurninSteps(kwargs, pos0);
    }

    /** Resuming needs both the flag and the checkpoint file. */
    predicate CheckResume()
      reads this
    {
      resume && checkpointExists
    }

    /** The chain without iterations recorded after the saved ones. */
    function SamplerChain(): (r: Chain)
      reads this
      ensures |r| <= engine.previousIterations && |r| <= |engine.chain| && r == engine.chain[..|r|]
      ensures engine.previousIterations <= |engine.chain| ==> |r| == engine.previousIterations
      ensures engine.previousIterations > |engine.chain| ==> r == engine.chain
    {
      PrefixTo(engine.chain, engine.previousIterations)
    }

    /** The start position becomes the last iteration of the chain; an empty chain raises IndexError. */
    method SetPos0ForResume() returns (r: Outcome<KombineError>)
      modifies this`pos0
      ensures r.Fail? <==> engine.chain == []
      ensures r.Fail? ==> r.error == IndexError && pos0 == old(pos0)
      ensures r.Pass? ==> pos0 == ArrayVal(engine.chain[|engine.chain| - 1])
    {
      if engine.chain == [] {
        return Fail(IndexError);
      }
      pos0 := ArrayVal(engine.chain[|engine.chain| - 1]);
      return Pass;
    }

    /** The automatic burn-in part of `run_sampler`; afterwards the engine has recorded `burnt`. */
    method AutoBurnin(burnt: EngineState) returns (calls: seq<EngineCall>, outcome: Outcome<KombineError>)
      modifies this
      ensures Stage(Snap(), calls, outcome) == BurninStage(old(Snap()), autoburnin, CheckResume(), burnt)
    {
      calls := [];
      outcome := Pass;
      if autoburnin && !CheckResume() {
        var kw := SamplerBurninKwargs();
        calls := [Burnin(kw)];
        engine := burnt;
        if "iterations" !in kwargs {
          return calls, Fail(KeyError("iterations"));
        }
        var total := Plus(kwargs["iterations"], engine.previousIterations);
        if total.None? {
          return calls, Fail(TypeError);
        }
        kwargs := kwargs["iterations" := total.value];
        nburn := engine.previousIterations;
        outcome := SetPos0ForResume();
      }
    }

    /** The sampling call of `run_sampler`; afterwards the engine has recorded `sampled`. */
    method SampleSteps(sampled: EngineState) returns (calls: seq<EngineCall>, outcome: Outcome<KombineError>)
      modifies this`engine
      ensures Stage(Snap(), calls, outcome) == SampleStage(old(Snap()), sampled)
    {
      ghost var before := Snap();
      var fk := FunctionKwargs(kwargs, pos0);
      if "iterations" !in fk {
        SampleStageFails(before, sampled);
        return [], Fail(KeyError("iterations"));
      }
      var iterations := Plus(fk["iterations"], -(engine.previousIterations as int));
      if iterations.None? {
        return [], Fail(TypeError);
      }
      var callKwargs := (fk - {"iterations"})["p0" := pos0];
      calls := [Sample(iterations.value, callKwargs)];
      outcome := Pass;
      engine := sampled;
      assert Snap() == before.(engine := sampled);
    }

    /**
     * `run_sampler`, given what the engine records after the burn-in
     * (`burnt`) and after sampling (`sampled`), and the parent's burn-in
     * estimate from the autocorrelation time.
     */
    method RunSampler(burnt: EngineState, sampled: EngineState, nburnEstimate: int)
      returns (r: Result<RunOutput, KombineError>, calls: seq<EngineCall>)
      requires Shaped(sampled.chain, nwalkers, ndim) && Shaped(sampled.blobs, nwalkers, 2)
      modifies this
      ensures RunTrace(Snap(), calls, r) ==
              RunSpec(old(Snap()), autoburnin, CheckResume(), burnt, sampled, nburnEstimate, nsteps, nwalkers, ndim)
    {
      var burnCalls, burnOutcome := AutoBurnin(burnt);
      if burnOutcome.Fail? {
        return Err(burnOutcome.error), burnCalls;
      }
      var sampleCalls, sampleOutcome := SampleSteps(sampled);
      calls := burnCalls + sampleCalls;
      if sampleOutcome.Fail? {
        return Err(sampleOutcome.error), calls;
      }
      if !autoburnin {
        nburn := nburnEstimate;
      }
      r := Finalise(Snap(), nsteps, nwalkers, ndim);
    }
  }
}
