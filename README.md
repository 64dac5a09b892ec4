# bilby prior base class and the kombine sampler adapter, in Dafny

This project models two parts of bilby, a Bayesian inference library.

**The prior base class** (`bilby/core/prior/base.py`):
- A `Prior` holds a name, a LaTeX label, a unit, bounds and a boundary
  condition.
- Its constructor rejects an empty range and an unknown boundary.
- `Constraint` is the prior whose probability is the indicator of the open
  range.
- The priors are written out with `__repr__` and read back with
  `_from_repr`. The reader strips spaces, splits at commas, and glues back
  the chunks of a nested call. Then `_split_repr` maps each chunk to a
  keyword, either `key=value` or positional, and `_parse_argument_string`
  reads the literal forms of a value.

**The kombine adapter** (`bilby/core/sampler/kombine.py`):
- It checks the walker count.
- It translates keyword aliases.
- It splits its keyword map into the sampling, burn-in and constructor
  keywords of the engine.
- It has the resume helpers.
- It does the step accounting, the trimming and the reshaping of
  `run_sampler`.

Files:
- `wrappers.dfy`: `Option`, `Result`, `Outcome`.
- `py_strings.dfy`: Python's `str.split`, `str.join`, `str.strip`,
  `str.strip(c)` and `replace(' ', '')`, with the laws that link them.
- `ordered_dict.dfy`: Python's insertion-ordered `dict`, and the loop
  `for k, v in ...: d[k] = v`.
- `prior_base.dfy`: the bounds, as extended reals, and `class Prior` with
  its setters, `prob` and `is_in_prior_range`. Here `Constraint` is the
  `ConstraintPrior` kind of the same class.
- `prior_repr.dfy`: `_split_repr`, `_parse_argument_string`, `_from_repr`
  and `__repr__`. The loops of `_split_repr` are methods over the chunk
  list, each proved equal to a specification function. Lemmas about those
  functions give:
  - the rejoin property;
  - the error cases;
  - "the last assignment of a key wins";
  - the round trip from `__repr__` back to the constructor's keywords.
- `chain_arrays.dfy`: the numpy operations `run_sampler` uses. These are
  slicing that allows negative indices, row-major `reshape`, and taking a
  column.
- `kombine.dfy`:
  - the keyword model;
  - `class KeywordMap`, the caller's dictionary that `_translate_kwargs`
    changes in place;
  - the three keyword maps as functions, with lemmas that give each key's
    fate;
  - `class Kombine`, whose methods change its fields as the source does.
    `RunSampler` is proved equal to the composition of three stage
    functions: burn-in, sampling and finalising.

## Model

| member | source | states |
|---|---|---|
| PyStrings.Split | bilby/core/prior/base.py:349 | `string.split(',')` gives at least one piece, and no piece holds the separator |
| PyStrings.JoinOfSplit | bilby/core/prior/base.py:349 | joining the pieces with the separator gives back the text |
| PyStrings.SplitOfJoin | bilby/core/prior/base.py:349 | splitting a join of separator-free pieces gives back the pieces |
| PyStrings.RemoveSpaces | bilby/core/prior/base.py:327 | `replace(' ', '')` leaves no space and never lengthens the text |
| PyStrings.RemoveSpacesConcat | bilby/core/prior/base.py:327 | removing spaces distributes over concatenation |
| PyStrings.StripNoWhitespace | bilby/core/prior/base.py:356 | `strip()` leaves text without whitespace unchanged |
| PyStrings.LStripFacts | bilby/core/prior/base.py:356 | `lstrip` removes exactly a leading run of whitespace, and the result does not start with whitespace |
| PyStrings.RStripFacts | bilby/core/prior/base.py:356 | `rstrip` removes exactly a trailing run of whitespace, and the result does not end with whitespace |
| PyStrings.StripCharQuoted | bilby/core/prior/base.py:417 | `"'x'".strip("'")` is `x` when `x` holds no quote |
| OrderedDict.Put | bilby/core/prior/base.py:372 | `d[k] = v`: `k` then maps to `v`, other keys are unchanged, and a new key goes at the end |
| OrderedDict.PutEachFails | bilby/core/prior/base.py:361-373 | the keyword loop fails exactly when some chunk fails to give a pair |
| OrderedDict.PutEachPresent | bilby/core/prior/base.py:361-373 | every assigned key is in the dictionary |
| OrderedDict.PutEachLast | bilby/core/prior/base.py:361-373 | a key holds the value of its last assignment |
| OrderedDict.PutEachOnly | bilby/core/prior/base.py:361-373 | only assigned keys are in the dictionary |
| OrderedDict.PutEachDistinct | bilby/core/prior/base.py:361-373 | pairs with distinct keys stay in their order |
| PriorBase.Le | bilby/core/prior/base.py:39-44 | Python's `<=` on bounds that may be ±inf; LeTotalOrder proves it is a total order |
| PriorBase.LeTotalOrder | bilby/core/prior/base.py:39-44 | `<=` on the bounds is reflexive, total, antisymmetric and transitive |
| PriorBase.Lt | bilby/core/prior/base.py:447-448 | Python's `<` on the bounds; LtStrict proves it is `<=` without equality |
| PriorBase.LtStrict | bilby/core/prior/base.py:447-448 | `a < b` exactly when `a <= b` and `a != b` |
| PriorBase.TestValidForRescaling | bilby/core/prior/base.py:169-184 | fails, with the rescaling error, exactly when some value is below 0 or above 1 |
| PriorBase.RescalingEndpoints | bilby/core/prior/base.py:169-184 | 0 and 1 pass; anything beyond either end, and +inf, fails |
| PriorBase.Prior.Init | bilby/core/prior/base.py:17-53 | every field takes its argument; the label falls back to the default table, then to the name; nothing sampled yet; fixed exactly for a constraint |
| PriorBase.Prior.New | bilby/core/prior/base.py:17-53 | fails exactly on an empty range (with range checking on) or an unknown boundary, range error first; otherwise a fresh valid base prior with every given field stored, nothing sampled yet and not fixed |
| PriorBase.Prior.NewConstraint | bilby/core/prior/base.py:439-445 | a constraint fails exactly when maximum <= minimum; otherwise it is fixed, of the constraint kind, with the range check on and no boundary; Valid() keeps every constraint fixed |
| PriorBase.Prior.SetBoundary | bilby/core/prior/base.py:297-301 | accepts exactly None, "periodic" and "reflective"; otherwise fails naming the boundary and leaves it unchanged; validity is kept |
| PriorBase.Prior.SetLatexLabel | bilby/core/prior/base.py:242-247 | the given label, else the default label of the name, else the name |
| PriorBase.Prior.SetUnit | bilby/core/prior/base.py:253-255 | the unit becomes the argument |
| PriorBase.Prior.SetMinimum | bilby/core/prior/base.py:269-271 | the minimum becomes the argument |
| PriorBase.Prior.SetMaximum | bilby/core/prior/base.py:277-279 | the maximum becomes the argument |
| PriorBase.Prior.LatexLabelWithUnit | bilby/core/prior/base.py:257-263 | the label with its unit; its meaning is stated by LabelWithUnitParts |
| PriorBase.LabelWithUnitParts | bilby/core/prior/base.py:257-263 | without a unit the stored label is returned; with one, the text is the label text followed by " [", the unit and "]", so the label text and the unit can both be read back from it |
| PriorBase.Prior.IsInPriorRange | bilby/core/prior/base.py:155-167 | the inclusive range test; ConstraintEndpoints proves both ends are in range, and ConstraintInterior relates it to the strict test |
| PriorBase.Prior.Prob | bilby/core/prior/base.py:447-448 | the base prior's NaN or the constraint's strict test; ConstraintInterior states what the strict test means |
| PriorBase.ConstraintEndpoints | bilby/core/prior/base.py:447-448 | a constraint's endpoints are in range but have probability 0; probability 1 implies in range |
| PriorBase.ConstraintInterior | bilby/core/prior/base.py:447-448 | a constraint's probability is true exactly on the inclusive prior range without its two end points |
| PriorRepr.CloseFrom | bilby/core/prior/base.py:353-354 | the first chunk at or after `i` holding ')', or none when no later chunk holds one |
| PriorRepr.GlueCall | bilby/core/prior/base.py:352-357 | gluing one opening chunk: fails with IndexError exactly when no later chunk closes it; otherwise gives the next glue state and the absorbed indices |
| PriorRepr.GlueLoop | bilby/core/prior/base.py:351-357 | the glue loop fails exactly when some opening chunk is unclosed; otherwise gives the final glue state and every absorbed index |
| PriorRepr.DeleteIndices | bilby/core/prior/base.py:358-360 | deleting the listed indices one at a time, in order, equals the specification, including the IndexError for an index past the end |
| PriorRepr.GlueChunks | bilby/core/prior/base.py:349-360 | split, glue and delete equal the glued-chunk specification |
| PriorRepr.GluedChunks | bilby/core/prior/base.py:349-360 | the reference definition of split, glue and delete; SplitReprRejoins, SplitReprUnclosed and GluedChunksPlain state its properties |
| PriorRepr.Keywords | bilby/core/prior/base.py:361-373 | the keyword loop equals the ordered-dict fold of the chunk entries |
| PriorRepr.Kwargs | bilby/core/prior/base.py:361-373 | the reference definition of the keyword loop; KwargsOutcome, KwargsMissingName, KwargsKeyPresent, KwargsLastWins and KwargsOnlyChunkKeys state its properties |
| PriorRepr.Entries | bilby/core/prior/base.py:361-372 | the pair each chunk gives; KeywordChunk, PositionalChunk, KwargsKeyPresent and KwargsLastWins state what the pairs mean |
| PriorRepr.SplitRepr | bilby/core/prior/base.py:347-373 | the whole reader equals its specification |
| PriorRepr.SplitReprSpec | bilby/core/prior/base.py:347-373 | the reference definition of `_split_repr`; SplitReprUnclosed and SplitReprRoundTrip state its properties |
| PriorRepr.SplitReprRejoins | bilby/core/prior/base.py:349-360 | for well-nested text without whitespace, the glued chunks are the call groups, and joining them with commas gives back the text |
| PriorRepr.SplitReprUnclosed | bilby/core/prior/base.py:353-355 | a chunk with '(' and no later ')' makes the reader raise IndexError |
| PriorRepr.GluedChunksPlain | bilby/core/prior/base.py:349-360 | text without '(' is just split at commas |
| PriorRepr.KwargsOutcome | bilby/core/prior/base.py:361-373 | the keyword loop succeeds exactly when every chunk gives a pair |
| PriorRepr.KwargsMissingName | bilby/core/prior/base.py:363-366 | a positional chunk beyond the argument names raises IndexError |
| PriorRepr.KwargsKeyPresent | bilby/core/prior/base.py:361-373 | each chunk's key ends up in the result |
| PriorRepr.KwargsLastWins | bilby/core/prior/base.py:361-373 | a repeated key keeps the value of its last chunk |
| PriorRepr.KwargsOnlyChunkKeys | bilby/core/prior/base.py:361-373 | every key of the result comes from some chunk |
| PriorRepr.KeywordChunk | bilby/core/prior/base.py:368-371 | the key is the text before the first '=', and the value is the rest, later '=' included |
| PriorRepr.PositionalChunk | bilby/core/prior/base.py:363-367 | a chunk without '=' is keyed by the argument name at its position, or has no key past the end |
| PriorRepr.SliceTwoToLast | bilby/core/prior/base.py:415 | `val[2:-1]` with Python's clamping; ParsePrefixed proves it recovers `x` from `r'x'` and `u'x'` |
| PriorRepr.ParseArgumentString | bilby/core/prior/base.py:412-436 | the branches of `_parse_argument_string` in order; ParseClassifies, ParseNone, ParsePrefixed and ParseQuoted state its properties |
| PriorRepr.ParseClassifies | bilby/core/prior/base.py:412-435 | only "None" reads as None; other text with a quote reads as a string; quote-free text is a call exactly when it holds '(' and is evaluated otherwise |
| PriorRepr.ParseNone | bilby/core/prior/base.py:412-413 | "None" reads as None |
| PriorRepr.ParsePrefixed | bilby/core/prior/base.py:414-415 | `r'x'` and `u'x'` on one line read as `x`, whatever quotes `x` holds |
| PriorRepr.ParseQuoted | bilby/core/prior/base.py:416-417 | `'x'` reads as `x` |
| PriorRepr.ParseEntry | bilby/core/prior/base.py:335-343 | the stored value of one keyword, with callables deferred to an import; LookupParsed and FromReprKnownKeys state how it is applied |
| PriorRepr.FirstUnknown | bilby/core/prior/base.py:329-333 | the first keyword the constructor does not take, or none when all are known |
| PriorRepr.ParsedEntries | bilby/core/prior/base.py:334-343 | each value parsed in place; LookupParsed proves the keys are kept and each looked-up value goes through the parser |
| PriorRepr.LookupParsed | bilby/core/prior/base.py:329-335 | parsing keeps every key and maps each stored value through the parser |
| PriorRepr.ParseEach | bilby/core/prior/base.py:329-343 | the parsing loop equals its specification: the first unknown keyword raises unless the class has reference parameters |
| PriorRepr.FromRepr | bilby/core/prior/base.py:324-344 | the whole `_from_repr` equals its specification |
| PriorRepr.FromReprSpec | bilby/core/prior/base.py:324-344 | the reference definition of `_from_repr`; FromReprUnknownKey, FromReprKnownKeys and FromReprRoundTrip state its properties |
| PriorRepr.FromReprUnknownKey | bilby/core/prior/base.py:331-333 | the first unknown keyword raises, naming itself, exactly when there are no reference parameters |
| PriorRepr.FromReprKnownKeys | bilby/core/prior/base.py:324-344 | with all keywords known, the reader succeeds with exactly the split keys, each value parsed |
| PriorRepr.ReprPieces | bilby/core/prior/base.py:198-199 | the `key=value` pieces; KwargsOfPieces proves the keyword loop reads them back as the entries |
| PriorRepr.Repr | bilby/core/prior/base.py:186-201 | the written text; FromReprRoundTrip proves the reader gives back every entry from it |
| PriorRepr.RemoveSpacesJoin | bilby/core/prior/base.py:327 | removing spaces from the ", "-joined pieces gives the ","-joined pieces |
| PriorRepr.KwargsOfPieces | bilby/core/prior/base.py:361-373 | the keyword loop over written pieces gives back the entries |
| PriorRepr.SplitReprRoundTrip | bilby/core/prior/base.py:347-373 | reading the written argument list gives back the entries |
| PriorRepr.FromReprRoundTrip | bilby/core/prior/base.py:324-344 | reading back what `__repr__` writes, between the parentheses, gives every entry with its value parsed |
| ChainArrays.SliceFrom | bilby/core/sampler/kombine.py:165 | `chain[k:]`: the length for non-negative and for negative `k`, and the kept elements are the last ones, in order |
| ChainArrays.PrefixTo | bilby/core/sampler/kombine.py:128 | `chain[:k]`: the first min(k, length) elements |
| ChainArrays.ConcatAt | bilby/core/sampler/kombine.py:166 | in the merged outer axes, element `j` of part `i` is at `i * m + j` |
| ChainArrays.RowsOfShaped | bilby/core/sampler/kombine.py:166 | merging a shaped chain's outer axes gives iterations × walkers rows of `ndim` components |
| ChainArrays.Group | bilby/core/sampler/kombine.py:173 | `n` pieces, each of length `c` |
| ChainArrays.ConcatGroup | bilby/core/sampler/kombine.py:173 | cutting into pieces and joining them gives back the sequence |
| ChainArrays.Reshape3Facts | bilby/core/sampler/kombine.py:173 | `reshape((a, b, c))` fails exactly on a size mismatch; otherwise it has the requested shape and keeps the flat order |
| ChainArrays.Column | bilby/core/sampler/kombine.py:170 | one row of the transpose; FinaliseColumns proves the two columns are the log-likelihoods and log-priors of the kept rows |
| ChainArrays.SliceShaped | bilby/core/sampler/kombine.py:165 | slicing keeps every kept iteration's shape |
| KombineSampler.Plus | bilby/core/sampler/kombine.py:148 | `v + n` is defined exactly for numbers, and adds `n` to the number |
| KombineSampler.PlusMinus | bilby/core/sampler/kombine.py:140-148 | adding and then subtracting the same count gives back the value |
| KombineSampler.WalkerCheck | bilby/core/sampler/kombine.py:53-54 | raises the walker ValueError exactly when nwalkers > iterations, and passes exactly when nwalkers <= iterations |
| KombineSampler.DefaultsPassWalkerCheck | bilby/core/sampler/kombine.py:39-42 | the defaults pass the check, with nwalkers equal to iterations |
| KombineSampler.LastAlias | bilby/core/sampler/kombine.py:62-65 | the alias whose value ends up as nwalkers is a present alias |
| KombineSampler.AliasFoldFacts | bilby/core/sampler/kombine.py:62-65 | every alias is removed; nwalkers takes the value of the last present alias, or keeps its own; other keys are untouched |
| KombineSampler.Translated | bilby/core/sampler/kombine.py:61-77 | the reference definition of `_translate_kwargs`; AliasFoldFacts and the four Translated lemmas state its properties |
| KombineSampler.TranslatedWalkers | bilby/core/sampler/kombine.py:62-65 | without nwalkers, aliases are popped and the last one becomes nwalkers; with it, the aliases stay untouched |
| KombineSampler.TranslatedSteps | bilby/core/sampler/kombine.py:66-68 | nsteps becomes iterations only when iterations is absent; otherwise both stay |
| KombineSampler.TranslatedProcesses | bilby/core/sampler/kombine.py:69-77 | a present processes value that is not 1 becomes 1; afterwards processes equals 1 |
| KombineSampler.TranslatedOthers | bilby/core/sampler/kombine.py:61-77 | every other key is untouched |
| KombineSampler.Kombine.TranslateKwargs | bilby/core/sampler/kombine.py:61-77 | the caller's map becomes the translation of its old contents |
| KombineSampler.FunctionKwargs | bilby/core/sampler/kombine.py:80-85 | the sampling keywords; SampleCallKwargs proves what the sampling call receives, and BurninKwargsCopied which of them reach the burn-in call |
| KombineSampler.BurninKwargs | bilby/core/sampler/kombine.py:88-100 | the reference definition of the burn-in keywords; BurninKwargsFixed and BurninKwargsCopied state its properties |
| KombineSampler.BurninKwargsFixed | bilby/core/sampler/kombine.py:88-100 | iterations, spaces, freeze_transd and burnin_verbose are removed; verbose is present exactly when burnin_verbose was, with its value; p0 is the positions |
| KombineSampler.BurninKwargsCopied | bilby/core/sampler/kombine.py:88-100 | any other key is present exactly when it is a kept sampling key or a present extra key, with the caller's value |
| KombineSampler.BurninSteps | bilby/core/sampler/kombine.py:91-99 | copying, renaming and removing in the source's order gives the burn-in map |
| KombineSampler.Kombine.SamplerBurninKwargs | bilby/core/sampler/kombine.py:88-100 | the method's loops build exactly the burn-in map |
| KombineSampler.Unclaimed | bilby/core/sampler/kombine.py:104-106 | the keys left for the constructor; InitKwargsAt proves none is a sampling or burn-in key, and KwargsCovered that no caller key is lost |
| KombineSampler.InitKwargs | bilby/core/sampler/kombine.py:103-113 | the reference definition of the constructor keywords; InitKwargsFails, InitKwargsFixed, InitKwargsAt and KwargsCovered state its properties |
| KombineSampler.InitKwargsFails | bilby/core/sampler/kombine.py:107 | building the constructor keywords raises KeyError exactly when burnin_verbose is absent |
| KombineSampler.InitKwargsFixed | bilby/core/sampler/kombine.py:107-112 | lnpostfn, ndim and pool=None are set, and burnin_verbose is removed |
| KombineSampler.InitKwargsAt | bilby/core/sampler/kombine.py:103-113 | no constructor key is also a sampling or burn-in key; the other keys carry the caller's value |
| KombineSampler.KwargsCovered | bilby/core/sampler/kombine.py:103-113 | every caller key reaches the sampling, burn-in or constructor keywords, or is burnin_verbose renamed to verbose |
| KombineSampler.Kombine.Init | bilby/core/sampler/kombine.py:44-55 | every field takes its argument, for keywords that passed the walker check |
| KombineSampler.Kombine.New | bilby/core/sampler/kombine.py:44-55 | construction fails exactly when the walker check does, with its error; otherwise a fresh sampler with the given keywords |
| KombineSampler.Kombine.SamplerChain | bilby/core/sampler/kombine.py:125-128 | the first `_previous_iterations` iterations of the chain, or the whole chain when it is shorter |
| KombineSampler.Kombine.CheckResume | bilby/core/sampler/kombine.py:130-131 | `resume` and the checkpoint file exists; ResumeSkipsBurnin states what it changes in a run |
| KombineSampler.Kombine.SetPos0ForResume | bilby/core/sampler/kombine.py:120-122 | the positions become the last iteration; an empty chain raises IndexError and leaves them unchanged |
| KombineSampler.Kombine.AutoBurnin | bilby/core/sampler/kombine.py:134-143 | the new state and the engine calls are those of the burn-in stage |
| KombineSampler.Kombine.SampleSteps | bilby/core/sampler/kombine.py:145-153 | the new state and the engine call are those of the sampling stage |
| KombineSampler.Kombine.RunSampler | bilby/core/sampler/kombine.py:133-176 | the final state, the engine calls and the result are those of the run specification |
| KombineSampler.BurninStage | bilby/core/sampler/kombine.py:134-143 | the reference definition of the burn-in stage; FreshBurninSteps and ResumeSkipsBurnin state its properties |
| KombineSampler.SampleStage | bilby/core/sampler/kombine.py:145-153 | the reference definition of the sampling stage; SampleStageFails and SampleCallKwargs state its properties |
| KombineSampler.Finalise | bilby/core/sampler/kombine.py:155-175 | the reference definition of the result; FinaliseErrors, FinaliseSamples, FinaliseColumns and FinaliseWalkers state its properties |
| KombineSampler.RunSpec | bilby/core/sampler/kombine.py:133-176 | the three stages in order; FreshBurninSteps, ResumeSkipsBurnin and PlainRunSteps state its step accounting |
| KombineSampler.SampleStageFails | bilby/core/sampler/kombine.py:146-147 | without iterations, the pop raises KeyError before any engine call |
| KombineSampler.SampleCallKwargs | bilby/core/sampler/kombine.py:146-151 | the sampling call gets the sampling keys except iterations, with p0 set to the positions |
| KombineSampler.FreshBurninSteps | bilby/core/sampler/kombine.py:134-153 | a fresh auto-burn-in run calls burn-in with the burn-in map and then samples the configured count; iterations grows by the burn-in length, which becomes nburn; the positions become the last burn-in iteration |
| KombineSampler.ResumeSkipsBurnin | bilby/core/sampler/kombine.py:134-148 | when resuming, there is no burn-in call; the sampled count is iterations minus the iterations already done; nothing else changes |
| KombineSampler.PlainRunSteps | bilby/core/sampler/kombine.py:146-160 | without auto-burn-in, one sampling call of iterations minus those done is made, and nburn is the estimate |
| KombineSampler.FinaliseErrors | bilby/core/sampler/kombine.py:161-173 | the not-burned-in SamplerError exactly when nburn > nsteps; any failure is that or a walker reshape size mismatch |
| KombineSampler.FinaliseSamples | bilby/core/sampler/kombine.py:165-166 | the samples are the post-burn-in iterations' walkers, row by row, of `ndim` components each |
| KombineSampler.FinaliseColumns | bilby/core/sampler/kombine.py:167-172 | log-likelihoods and log-priors are the two blob columns of the post-burn-in rows, one per sample |
| KombineSampler.FinaliseWalkers | bilby/core/sampler/kombine.py:173-175 | the walkers array is the chain reshaped to nwalkers × nsteps × ndim in flat order; nburn is recorded; the evidence fields are NaN |

## Left out

- The Emcee parent class is not part of this model. Its inputs are taken as they are: the keywords after its merge with the defaults, the alias list, `_previous_iterations`, `nsteps`, `nwalkers`, `ndim`, `lnpostfn`, and the nburn estimate that `calculate_autocorrelation` sets.
- Whether the checkpoint file exists (`os.path.isfile`) is a boolean input to the sampler.
- The kombine engine is abstract. The results of its `burnin` and `sample` calls are given as `EngineState` values, and the calls it receives are returned as `EngineCall` values.
- `_initialise_sampler` and `_check_version` are left out, because they import the engine package.
- Logging, the progress bar, `write_chains_to_file`, `checkpoint`, `print_nburn_logging_info` and `calc_likelihood_count` are left out. They do I/O or only count.
- KombineSampler.Kombine.RunSampler: requires that the sampled chain is a full numpy array of `nwalkers` walkers by `ndim` components, and that the blobs hold 2 entries per walker. A ragged array is outside the model.
- KombineSampler.Kombine.RunSampler: result fields written before a later error are not recorded. For example, `result.nburn` is set before the SamplerError. An error returns only the error.
- KombineSampler.Finalise: `reshape((-1, ndim))` with `ndim == 0` raises in numpy. The model instead gives one empty row per kept walker and iteration.
- KombineSampler.WalkerCheck: a missing key is KeyError. Comparing two non-numbers (two strings, two lists, numpy arrays) is reported as TypeError, even where Python would order them.
- KombineSampler.TranslatedProcesses: `processes != 1` is decided on numbers only. Any non-number is replaced by 1, and an array's elementwise comparison is not modelled.
- KombineSampler.AliasFoldFacts: needs distinct aliases. TranslatedWalkers, TranslatedSteps, TranslatedProcesses and TranslatedOthers also need the alias list not to contain `iterations`, `nsteps` or `processes`. The real alias lists meet both conditions.
- Floating point in general: chain entries are reals, and `Float` has only NaN and exact numbers.
- PriorBase.Prior.IsInPriorRange: works on one value, with no numpy broadcasting over arrays. NaN bounds and NaN values are not modelled.
- PriorBase.Prior.Prob: gives the base prior's NaN and the constraint's indicator for one value. The subclasses' densities are not part of this model.
- `sample`, `rescale`, `cdf`, `ln_prob`, `__call__` and `__eq__` are left out. So are `to_json`, `from_json`, `get_instantiation_dict` and `_repr_dict`. They need randomness, subclass densities, reflection over attributes or JSON.
- `infer_args_from_method(cls.__init__)` is an input: the argument names. `hasattr(cls, "reference_params")` is a boolean input.
- PriorRepr.ParseArgumentString: the call branch (`other_cls.from_repr(vals)` after an import) and the `eval` branch return `DeferredCall` and `DeferredEval`. The TypeError that `eval` can raise is not modelled. Neither is the nested construction.
- PriorRepr.ParseEntry: the import of `condition_func` and `conversion_function` is returned as `DeferredImport` of the module path.
- PriorRepr.FromRepr: the final `cls(**kwargs)` is not modelled. The model returns the keyword dictionary that would be passed.
- `from_repr` is a one-line alias of `_from_repr` and is not modelled separately.
- PriorRepr.SplitReprRejoins: stated only for text that is well nested. Here that means every chunk holding '(' is closed before the next one opens. Nested calls inside calls are read as the source reads them, but no rejoin property is claimed for them.
- PriorRepr.FromReprRoundTrip: stated for entries whose keys and rendered values hold no spaces, commas or parentheses, and whose keys are distinct.

## Notes on the source

- In `_split_repr` a positional chunk takes the argument name at its index in the glued chunk list (`subclass_args[ii]`). Keyword chunks before it count toward that index. The model follows the code.
- `_parse_argument_string` reads `"r"` and `"u"` as the empty string: the raw-string test sees "r" left over, and `val[2:-1]` of a one-character text is empty.
- The docstring of the kombine adapter says iterations default to 100. The code uses 500, which the model follows.
- The walker check allows nwalkers equal to iterations, although its message (kombine.py:54) asks for iterations > nwalkers. The model follows the test at kombine.py:53.
- The not-burned-in error is raised only when nburn > nsteps (kombine.py:161), so nburn equal to nsteps passes. The message at kombine.py:163 reads "`nburn < nsteps`". The model follows the test.
- `result.walkers` is `chain.reshape((nwalkers, nsteps, ndim))` on a chain stored as iteration × walker × dimension. This re-cuts the flat order rather than swapping the axes. The model states what the code computes.
