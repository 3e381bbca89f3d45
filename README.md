# SCoT object-oriented API — a Dafny model

SCoT (source connectivity toolbox) estimates how EEG sources influence each other. Its
object-oriented front end, the `SCoT` class of `scot/ooapi.py`, is an orchestrator. It
holds the data, the class labels, the mixing and unmixing matrices, the source
activations and the fitted vector autoregressive (VAR) models. It calls the numeric
routines in the right order:

- MVARICA decomposition;
- VAR fitting, pooled or one model per class;
- connectivity measures, once or over sliding windows.

The model covers that orchestration:

- which fields each call overwrites;
- which calls fail, and with which error, when an earlier step has not run;
- the per-class bookkeeping over the distinct labels;
- the integer window arithmetic of the time/frequency estimate.

The numeric collaborators are opaque total functions held in a `Collaborators` value.
These are `dot_special`, `mvarica`, `var.fit`, `var.fit_multiclass`, `Connectivity`,
the measures and `np.zeros`. Their arrays are abstract types.

Modules:

- `Types` (`types.dfy`): errors, the abstract numeric types, the collaborators and the
  table of measure names.
- `Labels` (`labels.dfy`): `np.unique` as a strictly increasing sequence with the same set
  of labels.
- `Windows` (`windows.dfy`): the slot count `Nstep = (N - winlen) // winstep` and the
  window starts `range(0, N - winlen, winstep)`.
- `Pipeline` (`pipeline.dfy`): what each step computes, as pure functions. These are the
  specifications that the class methods are proved against. The module also holds the
  lemmas that relate the steps to each other.
- `OOApi` (`ooapi.dfy`): the `SCoT` class. Its fields are the optional attributes the
  Python object reassigns. Its methods are imperative, with the loops of the source. The
  time/frequency results are freshly allocated arrays, filled slot by slot.

Python exceptions become values. A method that can raise returns an `Outcome`
(`Pass | Fail(error)`) or a `Result`. The six error kinds are:

- `NoData`, `NoActivations` and `NoConnectivity`: the three `RuntimeError`s;
- `NoSuchMeasure`: the `AttributeError` of `getattr` on an unknown measure name;
- `NegativeDimension`: the `ValueError` of `np.zeros` when `N < winlen`;
- `IndexOutOfRange`: the `IndexError` of a window written past the last slot.

A Python exception escapes at the first failing statement, and the model keeps that
order. So an unknown measure is an error only once some model is evaluated: with labels
that have no distinct value, or with zero windows, it goes unnoticed.

Two points about the activations:

- `doMVARICA` does not re-project the stored data. After it, `activations_` are still
  those of the previous `setData`. `SCoT.DoMVARICA` states this as
  `activations == old(activations)`.
- `setData` assigns `activations_` only when an unmixing matrix is stored. `unmixing_` is
  set only by `doMVARICA` and is never cleared. So the activations stay `None` until a
  `setData` that follows `doMVARICA` (`SCoT.SetData`, `SCoT.Valid`).

## Model

| member | source | states |
|---|---|---|
| Types.MeasureByName | scot/ooapi.py:87-90 | a name that is found is exactly the attribute name of the measure found |
| Types.MeasureLookupRoundTrip | scot/ooapi.py:87-90 | every measure is found under its own name, and under no other name |
| Labels.Unique | scot/ooapi.py:78 | `np.unique(cl)` is strictly increasing and lists exactly the labels that occur in `cl` |
| Labels.Insert | scot/ooapi.py:78 | insertion keeps a sequence strictly increasing and adds exactly the one label |
| Labels.UniqueIsDuplicateFree | scot/ooapi.py:78 | `np.unique` never repeats a label, so its length is the number of distinct labels |
| Windows.StepCount | scot/ooapi.py:97 | `Nstep` is Python's floor quotient: `Nstep*winstep <= N-winlen < (Nstep+1)*winstep`, and it is non-negative exactly when `N >= winlen` |
| Windows.Range | scot/ooapi.py:102 | `range(start, stop, step)` yields `start + i*step` at position i, every value below `stop`, the next value `start + len*step` is not below `stop`, and the result is non-empty only when `start < stop` |
| Windows.WindowStarts | scot/ooapi.py:102 | the starts of `range(0, N-winlen, winstep)` are `i*winstep`, each below `N - winlen`, and there are `(N-winlen) // winstep` of them, plus one when `winstep` does not divide `N - winlen` (none when `N <= winlen`) |
| Windows.RangeLength | scot/ooapi.py:102 | `range(0, d, w)` yields `d // w` values, plus one more when `w` does not divide `d` |
| Windows.WindowCountAgainstSlots | scot/ooapi.py:97-102 | the loop visits exactly `Nstep` windows if and only if `winstep` divides `N - winlen`; otherwise it visits `Nstep + 1` |
| Windows.WindowsInside | scot/ooapi.py:102-104 | the i-th visited window starts at `i*winstep` and lies inside `[0, N)` |
| Windows.SlotWindow | scot/ooapi.py:97-104 | every slot `i < Nstep` has a visited window, which starts at `i*winstep` and lies inside `[0, N)` |
| Windows.DocumentedWindowCounts | scot/ooapi.py:97-102 | N=1000, winlen=200, winstep=100 gives 8 slots and 8 windows; N=winlen=200 gives none of either |
| Windows.WindowOverrunExample | scot/ooapi.py:97-108 | N=1000, winlen=200, winstep=300 allocates 2 slots but visits the starts 0, 300 and 600 |
| Pipeline.ReductionArgs | scot/ooapi.py:55-60 | exactly one of retain_variance and numcomp is set, to reducedim; retain_variance is the one used exactly when reducedim < 1 |
| Pipeline.ModelsAgree | scot/ooapi.py:64-79 | (definition) the three model fields agree: all single with the connectivity built from B and C, or all per class, keyed by exactly the distinct labels, each label's connectivity built from its own B and C |
| Pipeline.ModelState | scot/ooapi.py:45-47 | (definition) the model fields are all `None`, as after `setData` and the constructor, or all set and agreeing |
| Pipeline.FitModels | scot/ooapi.py:72-79 | fitVAR's three fields agree: single and built from each other without labels; per class, keyed by exactly the distinct labels and built label by label, with labels |
| Pipeline.Query | scot/ooapi.py:81-90 | getConnectivity fails with NoConnectivity exactly when no model exists, and with NoSuchMeasure exactly when a model is evaluated under an unknown name; otherwise it returns the measure of the single model, or a dict from every distinct label to the measure of that label's model |
| Pipeline.SingleWindowMeasure | scot/ooapi.py:105-107 | (definition) one window's measure without labels: `var.fit`, then `Connectivity`, then the measure; its meaning is proved in `Pipeline.SingleSlotIsSingleShot` |
| Pipeline.ClassWindowMeasure | scot/ooapi.py:118-121 | (definition) one window's measure for class `c`: `var.fit_multiclass`, then `Connectivity(B[c], C[c])`, then the measure; its meaning is proved in `Pipeline.ClassSlotIsSingleShot` |
| Pipeline.Sliding | scot/ooapi.py:97-122 | (definition) the window loop over the first `visits` starts, writing window i into slot i of `Nstep`; its contract is stated by `Pipeline.SlidingErrors` and `Pipeline.SlidingSlots` |
| Pipeline.SlidingErrors | scot/ooapi.py:97-122 | the loop fails with NegativeDimension exactly when something is allocated and `Nstep < 0`; with NoSuchMeasure exactly when, past that, some window is visited under an unknown name; with IndexOutOfRange exactly when, past those, more windows are visited than there are slots; it fails in no other way; the result has the labelled form exactly when there are labels |
| Pipeline.SlidingSlots | scot/ooapi.py:99-122 | a successful loop visited exactly `Nstep` windows; each output has `Nstep` slots, one output per distinct label with labels, and slot i holds the measure of a fresh fit on window i |
| Pipeline.TimeFrequency | scot/ooapi.py:92-123 | the corrected getTFConnectivity fails with NoActivations exactly when there are no activations, and never with IndexOutOfRange |
| Pipeline.TimeFrequencyAsWritten | scot/ooapi.py:92-123 | getTFConnectivity as written fails with NoActivations exactly when there are no activations; it succeeds only when the loop visits exactly as many windows as there are slots, or when there is no distinct label |
| Pipeline.WindowOf | scot/ooapi.py:103-104 | the data of a window are the `winlen` consecutive frames from its start, with channels and trials unchanged |
| Pipeline.CorrectedVisits | scot/ooapi.py:97 | the corrected loop visits `Nstep` windows (none if `Nstep < 0`), never more than `range` yields |
| Pipeline.TimeFrequencyShape | scot/ooapi.py:92-123 | the corrected getTFConnectivity fails with NoActivations exactly when there are no activations, and otherwise only with NegativeDimension or NoSuchMeasure; it returns one result without labels, one per distinct label with labels, each of `Nstep` slots |
| Pipeline.SingleSlotIsSingleShot | scot/ooapi.py:99-108 | without labels, slot i is what fitVAR followed by getConnectivity gives on window i alone |
| Pipeline.ClassSlotIsSingleShot | scot/ooapi.py:110-122 | with labels, slot i of every class is what fitVAR followed by getConnectivity gives for that class on window i alone |
| Pipeline.AsWrittenAgreesWhenStepDivides | scot/ooapi.py:97-122 | when `winstep` divides `N - winlen`, or no window fits, the loop as written gives the corrected result |
| Pipeline.AsWrittenOverrunsOtherwise | scot/ooapi.py:97-122 | when `winstep` does not divide `N - winlen` (with a known measure and some label), the loop as written fails with IndexError, while the corrected loop succeeds |
| OOApi.ConnectivityPerClass | scot/ooapi.py:77-79 | the loop over `np.unique(cl)` builds one Connectivity per distinct label, from that label's fit |
| OOApi.MeasurePerClass | scot/ooapi.py:84-88 | the loop over `np.unique(cl)` gives the measure of every distinct label's model; it fails exactly when the name is unknown and there is some label |
| OOApi.SingleSliding | scot/ooapi.py:99-108 | the unlabelled window loop over the first `visits` starts fills a fresh array exactly as `Pipeline.Sliding` describes, errors included |
| OOApi.AllocatePerClass | scot/ooapi.py:111-113 | one fresh array of `Nstep` slots per distinct label, no two the same array |
| OOApi.WriteClassSlot | scot/ooapi.py:115-122 | one window of the labelled loop writes slot i of every label's array; it fails first with NoSuchMeasure, then with IndexOutOfRange when i is past the last slot; no other slot changes |
| OOApi.FillClassArrays | scot/ooapi.py:114-122 | the labelled window loop over the first `visits` starts either fails with exactly the error `Pipeline.Sliding` gives, or has visited `Nstep` windows and written slot t of every label's array with the measure of window t |
| OOApi.ClassSliding | scot/ooapi.py:110-122 | the labelled window loop fills fresh arrays, one per distinct label and no two the same, exactly as `Pipeline.Sliding` describes, errors included |
| OOApi.SCoT.Valid | scot/ooapi.py:42-79 | (class invariant) the model fields satisfy `Pipeline.ModelState` for the stored labels; activations exist only once an unmixing matrix does; mixing and unmixing are set together. Every state-changing method keeps it |
| OOApi.SCoT.constructor | scot/ooapi.py:22-40 | every optional field starts unset; var_delta and the configuration are stored |
| OOApi.SCoT.SetData | scot/ooapi.py:42-50 | stores data and labels, drops all three model fields, re-projects the data through a stored unmixing matrix and otherwise leaves the activations; the class invariant is kept |
| OOApi.SCoT.DoMVARICA | scot/ooapi.py:52-67 | fails with NoData and changes nothing without data; otherwise it stores mixing, unmixing, a single B and C, the returned delta and their Connectivity, and leaves data, labels and activations alone |
| OOApi.SCoT.FitVAR | scot/ooapi.py:69-79 | fails with NoActivations and changes nothing without activations; otherwise it stores what `Pipeline.FitModels` describes and nothing else changes |
| OOApi.SCoT.GetConnectivity | scot/ooapi.py:81-90 | returns `Pipeline.Query` of the stored connectivity and labels |
| OOApi.SCoT.GetTFConnectivity | scot/ooapi.py:92-123 | the arrays it returns are fresh, one per distinct label and no two the same, and hold `Pipeline.TimeFrequency`: the window loop stopped after `Nstep` windows |
| OOApi.SCoT.GetTFConnectivityAsWritten | scot/ooapi.py:92-123 | the arrays it returns are fresh, one per distinct label and no two the same, and hold `Pipeline.TimeFrequencyAsWritten`: the window loop over every start of `range` |
| OOApi.DependencyOrder | scot/ooapi.py:42-90 | on a fresh object, fitVAR and getConnectivity fail until the earlier steps have run; setData before doMVARICA gives no activations; after doMVARICA and a labelled setData, fitVAR succeeds, getConnectivity is keyed by the distinct labels, fails exactly on an unknown name with some label, and gives the same answer twice |

## Left out

- Plotting (`preparePlots` and the other plotting methods) and the `matplotlib` import probe are left out. They only draw; they change no analysis state.
- The attributes `locations_`, `backend_`, `topo_`, `mixmaps_` and `unmixmaps_` are left out. Only plotting reads them, and the backend only selects an implementation inside `mvarica`.
- `np.atleast_3d` in `setData` is left out. The model takes data that is already a samples x channels x trials `Signal`.
- The internals of `mvarica`, `var.fit`, `var.fit_multiclass`, `dot_special`, `Connectivity` and the measures are not part of this model. They are opaque total functions. Any error they raise themselves is not modelled.
- The measure names are a fixed set of sixteen, listed in `Types.Measure`. These are the measures the model chooses to support. `getattr(con, measure)()` would call any callable attribute of a `Connectivity` object; the model only accepts these sixteen names.
- `var.fit_multiclass` is modelled as returning one fit for every label. The model therefore does not capture a `KeyError` at `B[c]`. The stored `var_model_` and `var_cov_` dicts are modelled as keyed by exactly the distinct labels.
- Testing an array against `None` with `!=` or `==` is taken as a plain "is it set". numpy's elementwise comparison of a set array is not modelled.
- `dot_special` is not modelled as keeping the number of trials, so the model does not relate the activations' shape to the data's shape.
- The time/frequency result is an `M x M x Nstep x nfft` complex array. It is modelled as an array of `Nstep` blocks, one `M x M x nfft` spectrum per slot. complex64 rounding is not modelled.
- OOApi.SCoT.GetTFConnectivity: requires `winstep > 0`. With `winstep == 0` the source raises ZeroDivisionError at `Nstep`. With a negative `winstep` it runs `range` downward. Neither case is modelled.
- OOApi.SCoT.GetTFConnectivityAsWritten: requires `winstep > 0`, for the same reason.
- OOApi.SCoT.GetTFConnectivity: `winlen` is a `nat`. A negative window length, which numpy would turn into empty windows, is not modelled.
- OOApi.SCoT.GetTFConnectivityAsWritten: `winlen` is a `nat` here too. A negative window length is not modelled.
- OOApi.SCoT.constructor: the Python defaults `reducedim=0.99`, `nfft=512` and `var_delta=None` are not modelled. Every caller passes all values, in a `Config` and the `varDelta` argument.
- Class labels are integers (`Types.Label = int`). numpy labels of another ordered type (strings, floats) are not modelled. Only their order and equality matter to the model.
- OOApi.SCoT.GetTFConnectivity: with labels that have no distinct value, the model returns an empty dict without allocating. The source does the same, and fits and discards each window, which has no visible effect.
- Mixing, unmixing, B, C, delta and the activations are stored values. Python's aliasing of the numpy arrays between fields is not modelled.

## Findings

| source | as written | input that shows it | evidently intended | confidence | as-written member | corrected member |
|---|---|---|---|---|---|---|
| scot/ooapi.py:97-122 | `Nstep = (N-winlen)//winstep` slots are allocated, but the loop runs over `range(0, N-winlen, winstep)`, which yields ceil((N-winlen)/winstep) starts: one more than there are slots whenever `winstep` does not divide `N-winlen` | N=1000, winlen=200, winstep=300: 2 slots, starts 0, 300 and 600, so the write at slot 2 raises IndexError (`Windows.WindowOverrunExample`, `Pipeline.AsWrittenOverrunsOtherwise`) | one window per allocated slot: stop after `Nstep` windows | not executed; high for the arithmetic, medium for the intent | OOApi.SCoT.GetTFConnectivityAsWritten | OOApi.SCoT.GetTFConnectivity |
