/** The object-oriented SCoT orchestrator: optional fields that setData, doMVARICA and
    fitVAR overwrite, and the connectivity queries that read them. */
module OOApi {
  import opened Types
  import opened Labels
  import opened Windows
  import opened Pipeline

  datatype Outcome = Pass | Fail(error: Error)

  /** The arrays getTFConnectivity allocates and fills: one, or one per distinct label. */
  datatype TFArrays = SingleArrays(slots: array<Spectrum>)
                    | ClassArrays(byClass: map<Label, array<Spectrum>>)

  ghost function Footprint(t: TFArrays): set<object>
  {
    match t
    case SingleArrays(a) => {a}
    case ClassArrays(m) => set k | k in m :: m[k] as object
  }

  /** No two labels share an array, so a write to one label's result leaves the others alone. */
  ghost predicate Separate(t: TFArrays)
  {
    t.ClassArrays? ==> forall k1, k2 :: k1 in t.byClass && k2 in t.byClass && k1 != k2 ==> t.byClass[k1] != t.byClass[k2]
  }

  /** The contents of the result arrays. */
  ghost function Contents(r: Result<TFArrays>): Result<TFValue>
    reads if r.Ok? then Footprint(r.value) else {}
  {
    match r
    case Err(e) => Err(e)
    case Ok(SingleArrays(a)) => Ok(SingleTF(a[..]))
    case Ok(ClassArrays(m)) => Ok(ClassTF(map k | k in m :: m[k][..]))
  }

  /** The loop of fitVAR over np.unique(cl): one Connectivity per distinct label. */
  method ConnectivityPerClass(cfg: Config, fits: Label -> (VarModel, NoiseCov), labels: seq<Label>)
    returns (conns: map<Label, ConnModel>)
    ensures conns == map k | k in Classes(labels) :: cfg.cx.connectivity(fits(k).0, fits(k).1, cfg.nfft)
  {
    var u := Unique(labels);
    conns := map[];
    for j := 0 to |u|
      invariant conns.Keys == Classes(u[..j])
      invariant forall k :: k in conns ==> conns[k] == cfg.cx.connectivity(fits(k).0, fits(k).1, cfg.nfft)
    {
      PrefixClassesStep(u, j);
      conns := conns[u[j] := cfg.cx.connectivity(fits(u[j]).0, fits(u[j]).1, cfg.nfft)];
    }
    assert u[..|u|] == u;
  }

  /** The loop of getConnectivity over np.unique(cl): the measure of every class's model,
      or None when the first evaluation finds no such measure. */
  method MeasurePerClass(cfg: Config, ks: map<Label, ConnModel>, labels: seq<Label>, name: string)
    returns (r: Option<map<Label, Spectrum>>)
    requires Classes(labels) <= ks.Keys
    ensures r.None? <==> MeasureByName(name).None? && Classes(labels) != {}
    ensures r.Some? ==> r.value.Keys == Classes(labels)
    ensures r.Some? ==> forall k :: k in r.value ==>
              MeasureByName(name).Some? && r.value[k] == cfg.cx.evaluate(ks[k], MeasureByName(name).value)
  {
    var u := Unique(labels);
    var result: map<Label, Spectrum> := map[];
    for j := 0 to |u|
      invariant result.Keys == Classes(u[..j])
      invariant forall k :: k in result ==>
                  MeasureByName(name).Some? && result[k] == cfg.cx.evaluate(ks[k], MeasureByName(name).value)
    {
      var m := MeasureByName(name);
      if m.None? {
        assert u[0] in Classes(labels);
        return None;
      }
      PrefixClassesStep(u, j);
      result := result[u[j] := cfg.cx.evaluate(ks[u[j]], m.value)];
    }
    assert u[..|u|] == u;
    r := Some(result);
  }

  /** The loop of getTFConnectivity without labels, over the first `visits` window starts. */
  method SingleSliding(cfg: Config, delta: Option<real>, x: Signal, name: string,
                       winlen: nat, winstep: nat, visits: nat) returns (r: Result<TFArrays>)
    requires winstep > 0
    requires StepCount(|x.frames|, winlen, winstep) <= visits <= |WindowStarts(|x.frames|, winlen, winstep)|
    ensures r.Ok? ==> r.value.SingleArrays? && fresh(Footprint(r.value))
    ensures Contents(r) == Sliding(cfg, delta, x, None, name, winlen, winstep, visits)
  {
    var starts := WindowStarts(|x.frames|, winlen, winstep);
    var nstep := StepCount(|x.frames|, winlen, winstep);
    if nstep < 0 {
      return Err(NegativeDimension);
    }
    var result := new Spectrum[nstep](_ => cfg.cx.zeros(x.channels, cfg.nfft));
    for i := 0 to visits
      invariant i <= nstep
      invariant i > 0 ==> MeasureByName(name).Some?
      invariant forall j :: 0 <= j < i ==>
                  result[j] == SingleSlot(cfg, delta, x, winlen, winstep, j, MeasureByName(name).value)
    {
      var n := starts[i];
      WindowsInside(|x.frames|, winlen, winstep, i);
      var (b, c) := cfg.cx.fit(WindowOf(x, n, winlen), cfg.varOrder, delta);
      var con := cfg.cx.connectivity(b, c, cfg.nfft);
      var m := MeasureByName(name);
      if m.None? {
        return Err(NoSuchMeasure(name));
      }
      var spectrum := cfg.cx.evaluate(con, m.value);
      if i >= nstep {
        return Err(IndexOutOfRange);
      }
      assert spectrum == SingleSlot(cfg, delta, x, winlen, winstep, i, m.value);
      result[i] := spectrum;
    }
    r := Ok(SingleArrays(result));
    if visits > 0 {
      var m := MeasureByName(name).value;
      assert forall j :: 0 <= j < visits ==> result[..][j] == SingleSlots(cfg, delta, x, winlen, winstep, visits, m)[j];
      assert result[..] == SingleSlots(cfg, delta, x, winlen, winstep, visits, m);
    }
  }

  /** result[c] = np.zeros(...) for every c in np.unique(cl): distinct fresh arrays. */
  method AllocatePerClass(u: seq<Label>, len: nat, zero: Spectrum) returns (result: map<Label, array<Spectrum>>)
    ensures result.Keys == Classes(u)
    ensures forall k :: k in result ==> fresh(result[k]) && result[k].Length == len
    ensures forall k1, k2 :: k1 in result && k2 in result && k1 != k2 ==> result[k1] != result[k2]
  {
    result := map[];
    for j := 0 to |u|
      invariant result.Keys == Classes(u[..j])
      invariant forall k :: k in result ==> fresh(result[k]) && result[k].Length == len
      invariant forall k1, k2 :: k1 in result && k2 in result && k1 != k2 ==> result[k1] != result[k2]
    {
      var a := new Spectrum[len](_ => zero);
      PrefixClassesStep(u, j);
      result := result[u[j] := a];
    }
    assert u[..|u|] == u;
  }

  /** The inner loop of getTFConnectivity with labels: for window i, one Connectivity and one
      measure per distinct label, written at slot i. */
  method WriteClassSlot(cfg: Config, delta: Option<real>, x: Signal, labels: seq<Label>, u: seq<Label>,
                        result: map<Label, array<Spectrum>>, name: string,
                        winlen: nat, winstep: nat, i: nat) returns (failure: Option<Error>)
    requires winstep > 0 && i < |WindowStarts(|x.frames|, winlen, winstep)|
    requires u != [] && Classes(u) == result.Keys
    requires forall t, t' :: 0 <= t < t' < |u| ==> u[t] != u[t']
    requires forall k1, k2 :: k1 in result && k2 in result && k1 != k2 ==> result[k1] != result[k2]
    requires forall k :: k in result ==> result[k].Length == StepCount(|x.frames|, winlen, winstep)
    modifies set k | k in result :: result[k]
    ensures failure == None ==> i < StepCount(|x.frames|, winlen, winstep) && MeasureByName(name).Some?
    ensures failure != None ==>
      failure == Some(if MeasureByName(name).None? then NoSuchMeasure(name) else IndexOutOfRange)
    ensures failure == Some(IndexOutOfRange) ==> i >= StepCount(|x.frames|, winlen, winstep)
    ensures failure == None ==> forall k :: k in result ==>
      result[k][i] == ClassSlot(cfg, delta, x, labels, k, winlen, winstep, i, MeasureByName(name).value)
    ensures forall k, t :: k in result && 0 <= t < result[k].Length && t != i ==> result[k][t] == old(result[k][t])
  {
    var nstep := StepCount(|x.frames|, winlen, winstep);
    var n := WindowStarts(|x.frames|, winlen, winstep)[i];
    WindowsInside(|x.frames|, winlen, winstep, i);
    var fits := cfg.cx.fitMulticlass(WindowOf(x, n, winlen), labels, cfg.varOrder, delta);
    for j := 0 to |u|
      invariant j > 0 ==> MeasureByName(name).Some? && i < nstep
      invariant forall t :: 0 <= t < j ==>
                  result[u[t]][i] == ClassSlot(cfg, delta, x, labels, u[t], winlen, winstep, i, MeasureByName(name).value)
      invariant forall k, t :: k in result && 0 <= t < result[k].Length && t != i ==> result[k][t] == old(result[k][t])
    {
      var con := cfg.cx.connectivity(fits(u[j]).0, fits(u[j]).1, cfg.nfft);
      var m := MeasureByName(name);
      if m.None? {
        return Some(NoSuchMeasure(name));
      }
      var spectrum := cfg.cx.evaluate(con, m.value);
      if i >= nstep {
        return Some(IndexOutOfRange);
      }
      assert spectrum == ClassSlot(cfg, delta, x, labels, u[j], winlen, winstep, i, m.value);
      result[u[j]][i] := spectrum;
    }
    forall k | k in result
      ensures result[k][i] == ClassSlot(cfg, delta, x, labels, k, winlen, winstep, i, MeasureByName(name).value)
    {
      assert k in u;
      var t :| 0 <= t < |u| && u[t] == k;
    }
    failure := None;
  }

  /** The window loop of getTFConnectivity with labels, over the first `visits` window starts:
      it stops at the first failed write, or has filled every slot of every label's array. */
  method FillClassArrays(cfg: Config, delta: Option<real>, x: Signal, labels: seq<Label>, u: seq<Label>,
                         result: map<Label, array<Spectrum>>, name: string,
                         winlen: nat, winstep: nat, visits: nat) returns (failure: Option<Error>)
    requires winstep > 0
    requires StepCount(|x.frames|, winlen, winstep) <= visits <= |WindowStarts(|x.frames|, winlen, winstep)|
    requires StepCount(|x.frames|, winlen, winstep) >= 0
    requires u != [] && Classes(u) == result.Keys && Classes(u) == Classes(labels)
    requires forall t, t' :: 0 <= t < t' < |u| ==> u[t] != u[t']
    requires Separate(ClassArrays(result))
    requires forall k :: k in result ==> result[k].Length == StepCount(|x.frames|, winlen, winstep)
    modifies set k | k in result :: result[k]
    ensures failure.Some? ==> Sliding(cfg, delta, x, Some(labels), name, winlen, winstep, visits) == Err(failure.value)
    ensures failure.None? ==> visits == StepCount(|x.frames|, winlen, winstep)
    ensures failure.None? && visits > 0 ==> MeasureByName(name).Some?
    ensures failure.None? ==> forall k, t :: k in result && 0 <= t < visits ==>
              result[k][t] == ClassSlot(cfg, delta, x, labels, k, winlen, winstep, t, MeasureByName(name).value)
  {
    var nstep := StepCount(|x.frames|, winlen, winstep);
    assert u[0] in Classes(labels);
    for i := 0 to visits
      invariant i <= nstep
      invariant i > 0 ==> MeasureByName(name).Some?
      invariant forall k, t :: k in result && 0 <= t < i ==>
                  result[k][t] == ClassSlot(cfg, delta, x, labels, k, winlen, winstep, t, MeasureByName(name).value)
    {
      failure := WriteClassSlot(cfg, delta, x, labels, u, result, name, winlen, winstep, i);
      if failure.Some? {
        ClassSlotFailure(cfg, delta, x, labels, name, winlen, winstep, visits, i, failure.value);
        return;
      }
    }
    failure := None;
  }

  /** The loop of getTFConnectivity with labels: one array per distinct label, then for each of
      the first `visits` window starts one var.fit_multiclass and one measure per label. */
  method ClassSliding(cfg: Config, delta: Option<real>, x: Signal, labels: seq<Label>, name: string,
                      winlen: nat, winstep: nat, visits: nat) returns (r: Result<TFArrays>)
    requires winstep > 0
    requires StepCount(|x.frames|, winlen, winstep) <= visits <= |WindowStarts(|x.frames|, winlen, winstep)|
    ensures r.Ok? ==> r.value.ClassArrays? && fresh(Footprint(r.value)) && Separate(r.value)
    ensures Contents(r) == Sliding(cfg, delta, x, Some(labels), name, winlen, winstep, visits)
  {
    var nstep := StepCount(|x.frames|, winlen, winstep);
    var u := Unique(labels);
    UniqueIsDuplicateFree(labels);
    if u == [] {
      // no label to allocate, evaluate or write for: every window's fit is discarded
      assert Classes(labels) == Classes(u) == {};
      NoClassSliding(cfg, delta, x, labels, name, winlen, winstep, visits);
      return Ok(ClassArrays(map[]));
    }
    assert u[0] in Classes(labels);
    if nstep < 0 {
      return Err(NegativeDimension);
    }
    var result := AllocatePerClass(u, nstep, cfg.cx.zeros(x.channels, cfg.nfft));
    var failure := FillClassArrays(cfg, delta, x, labels, u, result, name, winlen, winstep, visits);
    if failure.Some? {
      return Err(failure.value);
    }
    r := Ok(ClassArrays(result));
    ClassSlidingFilled(cfg, delta, x, labels, name, winlen, winstep, visits, result);
  }

  /** With no distinct label the labelled loop allocates and writes nothing. */
  lemma NoClassSliding(cfg: Config, delta: Option<real>, x: Signal, labels: seq<Label>, name: string,
                       winlen: nat, winstep: nat, visits: nat)
    requires winstep > 0
    requires StepCount(|x.frames|, winlen, winstep) <= visits <= |WindowStarts(|x.frames|, winlen, winstep)|
    requires Classes(labels) == {}
    ensures Contents(Ok(ClassArrays(map[]))) == Sliding(cfg, delta, x, Some(labels), name, winlen, winstep, visits)
  {
  }

  /** A failed write of window i ends the labelled loop with the error Sliding describes. */
  lemma ClassSlotFailure(cfg: Config, delta: Option<real>, x: Signal, labels: seq<Label>, name: string,
                         winlen: nat, winstep: nat, visits: nat, i: nat, e: Error)
    requires winstep > 0
    requires StepCount(|x.frames|, winlen, winstep) <= visits <= |WindowStarts(|x.frames|, winlen, winstep)|
    requires Classes(labels) != {} && StepCount(|x.frames|, winlen, winstep) >= 0 && i < visits
    requires e == if MeasureByName(name).None? then NoSuchMeasure(name) else IndexOutOfRange
    requires e == IndexOutOfRange ==> i >= StepCount(|x.frames|, winlen, winstep)
    ensures Sliding(cfg, delta, x, Some(labels), name, winlen, winstep, visits) == Err(e)
  {
  }

  /** Once every slot of every label's array is written, the arrays hold what Sliding describes. */
  lemma ClassSlidingFilled(cfg: Config, delta: Option<real>, x: Signal, labels: seq<Label>, name: string,
                           winlen: nat, winstep: nat, visits: nat, result: map<Label, array<Spectrum>>)
    requires winstep > 0 && visits == StepCount(|x.frames|, winlen, winstep)
    requires visits <= |WindowStarts(|x.frames|, winlen, winstep)|
    requires Classes(labels) != {} && result.Keys == Classes(labels)
    requires visits > 0 ==> MeasureByName(name).Some?
    requires forall k :: k in result ==> result[k].Length == visits
    requires forall k, t :: k in result && 0 <= t < visits ==>
               result[k][t] == ClassSlot(cfg, delta, x, labels, k, winlen, winstep, t, MeasureByName(name).value)
    ensures Contents(Ok(ClassArrays(result))) == Sliding(cfg, delta, x, Some(labels), name, winlen, winstep, visits)
  {
    if visits == 0 {
      var lhs := map k | k in result :: result[k][..];
      var rhs: map<Label, seq<Spectrum>> := map k | k in Classes(labels) :: [];
      assert lhs.Keys == rhs.Keys;
      forall k | k in lhs ensures lhs[k] == rhs[k] {
        assert |result[k][..]| == 0;
      }
      assert lhs == rhs;
    } else {
      var m := MeasureByName(name).value;
      ClassContents(cfg, delta, x, labels, m, winlen, winstep, visits, result);
    }
  }

  /** The filled arrays hold the slots Sliding describes. */
  lemma ClassContents(cfg: Config, delta: Option<real>, x: Signal, labels: seq<Label>, m: Measure,
                      winlen: nat, winstep: nat, visits: nat, result: map<Label, array<Spectrum>>)
    requires winstep > 0 && visits <= StepCount(|x.frames|, winlen, winstep)
    requires result.Keys == Classes(labels)
    requires forall k :: k in result ==> result[k].Length == visits
    requires forall k, t :: k in result && 0 <= t < visits ==>
               result[k][t] == ClassSlot(cfg, delta, x, labels, k, winlen, winstep, t, m)
    ensures (map k | k in result :: result[k][..]) == ClassSlotsMap(cfg, delta, x, labels, winlen, winstep, visits, m)
  {
    var lhs := map k | k in result :: result[k][..];
    var rhs := ClassSlotsMap(cfg, delta, x, labels, winlen, winstep, visits, m);
    assert lhs.Keys == rhs.Keys;
    forall k | k in lhs ensures lhs[k] == rhs[k] {
      assert forall t :: 0 <= t < visits ==>
        result[k][..][t] == ClassSlots(cfg, delta, x, labels, k, winlen, winstep, visits, m)[t];
    }
  }

  class SCoT {
    const cfg: Config
    var data: Option<Signal>
    var cl: Option<seq<Label>>
    var unmixing: Option<Matrix>
    var mixing: Option<Matrix>
    var activations: Option<Signal>
    var varModel: Option<Fitted<VarModel>>
    var varCov: Option<Fitted<NoiseCov>>
    var varDelta: Option<real>
    var connectivity: Option<Fitted<ConnModel>>

    /** The class invariant every method keeps: the model fields are all None, all single, or
        all per class keyed by the distinct labels of cl; activations exist only once an
        unmixing matrix does; mixing and unmixing are set together. */
    ghost predicate Valid()
      reads this
    {
      && ModelState(cfg, varModel, varCov, connectivity, cl)
      && (activations.Some? ==> unmixing.Some?)
      && (mixing.Some? <==> unmixing.Some?)
    }

    constructor (cfg: Config, varDelta: Option<real>)
      ensures Valid()
      ensures this.cfg == cfg && this.varDelta == varDelta
      ensures data.None? && cl.None? && unmixing.None? && mixing.None? && activations.None?
      ensures varModel.None? && varCov.None? && connectivity.None?
    {
      this.cfg := cfg;
      this.varDelta := varDelta;
      data, cl, unmixing, mixing, activations := None, None, None, None, None;
      varModel, varCov, connectivity := None, None, None;
    }

    /** setData: store the data and labels, drop every fitted model, and re-project the data
        through a stored unmixing matrix. */
    method SetData(x: Signal, labels: Option<seq<Label>>)
      requires Valid()
      modifies this
      ensures Valid()
      ensures data == Some(x) && cl == labels
      ensures varModel.None? && varCov.None? && connectivity.None?
      ensures activations == if old(unmixing).Some? then Some(cfg.cx.project(x, old(unmixing).value))
                             else old(activations)
      ensures unmixing == old(unmixing) && mixing == old(mixing) && varDelta == old(varDelta)
    {
      data := Some(x);
      cl := labels;
      varModel := None;
      varCov := None;
      connectivity := None;
      if unmixing.Some? {
        activations := Some(cfg.cx.project(x, unmixing.value));
      }
    }

    /** doMVARICA: decompose the data with one pooled model, whatever the labels. */
    method DoMVARICA() returns (r: Outcome)
      requires Valid()
      modifies this
      ensures Valid()
      ensures old(data).None? ==> r == Fail(NoData) && unchanged(this)
      ensures old(data).Some? ==>
        var (rv, nc) := ReductionArgs(cfg.reducedim);
        var d := cfg.cx.mvarica(old(data).value, cfg.varOrder, rv, nc, old(varDelta));
        && r == Pass
        && mixing == Some(d.mixing) && unmixing == Some(d.unmixing)
        && varModel == Some(Single(d.b)) && varCov == Some(Single(d.c)) && varDelta == d.delta
        && connectivity == Some(Single(cfg.cx.connectivity(d.b, d.c, cfg.nfft)))
      ensures data == old(data) && cl == old(cl) && activations == old(activations)
    {
      if data.None? {
        return Fail(NoData);
      }
      var rv: Option<real>, nc: Option<real>;
      if cfg.reducedim < 1.0 {
        rv, nc := Some(cfg.reducedim), None;
      } else {
        rv, nc := None, Some(cfg.reducedim);
      }
      var result := cfg.cx.mvarica(data.value, cfg.varOrder, rv, nc, varDelta);
      mixing := Some(result.mixing);
      unmixing := Some(result.unmixing);
      varModel := Some(Single(result.b));
      varCov := Some(Single(result.c));
      varDelta := result.delta;
      connectivity := Some(Single(cfg.cx.connectivity(result.b, result.c, cfg.nfft)));
      r := Pass;
    }

    /** fitVAR: fit the activations, one model without labels, one per distinct label with. */
    method FitVAR() returns (r: Outcome)
      requires Valid()
      modifies this
      ensures Valid()
      ensures old(activations).None? ==> r == Fail(NoActivations) && unchanged(this)
      ensures old(activations).Some? ==>
        var f := FitModels(cfg, varDelta, old(activations).value, cl);
        && r == Pass
        && varModel == Some(f.0) && varCov == Some(f.1) && connectivity == Some(f.2)
      ensures data == old(data) && cl == old(cl) && activations == old(activations)
      ensures unmixing == old(unmixing) && mixing == old(mixing) && varDelta == old(varDelta)
    {
      if activations.None? {
        return Fail(NoActivations);
      }
      var acts := activations.value;
      if cl.None? {
        var (b, c) := cfg.cx.fit(acts, cfg.varOrder, varDelta);
        varModel, varCov := Some(Single(b)), Some(Single(c));
        connectivity := Some(Single(cfg.cx.connectivity(b, c, cfg.nfft)));
      } else {
        var labels := cl.value;
        var fits := cfg.cx.fitMulticlass(acts, labels, cfg.varOrder, varDelta);
        varModel := Some(PerClass(map k | k in Classes(labels) :: fits(k).0));
        varCov := Some(PerClass(map k | k in Classes(labels) :: fits(k).1));
        var conns := ConnectivityPerClass(cfg, fits, labels);
        connectivity := Some(PerClass(conns));
      }
      r := Pass;
    }

    /** getConnectivity: evaluate a measure on the single model or on every class's model. */
    method GetConnectivity(name: string) returns (r: Result<Fitted<Spectrum>>)
      requires Valid()
      ensures r == Query(cfg, connectivity, cl, name)
    {
      if connectivity.None? {
        return Err(NoConnectivity);
      }
      match connectivity.value
      case Single(k) => {
        var m := MeasureByName(name);
        if m.None? {
          return Err(NoSuchMeasure(name));
        }
        r := Ok(Single(cfg.cx.evaluate(k, m.value)));
      }
      case PerClass(ks) => {
        assert ModelState(cfg, varModel, varCov, connectivity, cl);
        assert cl.Some? && Classes(cl.value) == ks.Keys;
        var result := MeasurePerClass(cfg, ks, cl.value, name);
        if result.None? {
          return Err(NoSuchMeasure(name));
        }
        if Classes(cl.value) == {} {
          assert result.value == map[];
        } else {
          var m := MeasureByName(name).value;
          assert result.value.Keys == Classes(cl.value);
          assert forall k :: k in result.value ==> result.value[k] == cfg.cx.evaluate(ks[k], m);
          assert result.value == map k | k in Classes(cl.value) :: cfg.cx.evaluate(ks[k], m);
        }
        r := Ok(PerClass(result.value));
      }
    }

    /** getTFConnectivity with the loop stopped after Nstep windows: slot i holds the measure of
        a fresh fit on samples [i * winstep, i * winstep + winlen). */
    method GetTFConnectivity(name: string, winlen: nat, winstep: nat) returns (r: Result<TFArrays>)
      requires winstep > 0
      ensures r.Ok? ==> (r.value.SingleArrays? <==> cl.None?)
      ensures r.Ok? ==> fresh(Footprint(r.value)) && Separate(r.value)
      ensures Contents(r) == TimeFrequency(cfg, varDelta, activations, cl, name, winlen, winstep)
    {
      if activations.None? {
        return Err(NoActivations);
      }
      var acts := activations.value;
      var visits := CorrectedVisits(|acts.frames|, winlen, winstep);
      if cl.None? {
        r := SingleSliding(cfg, varDelta, acts, name, winlen, winstep, visits);
      } else {
        r := ClassSliding(cfg, varDelta, acts, cl.value, name, winlen, winstep, visits);
      }
    }

    /** getTFConnectivity as written: the loop runs over every start of
        range(0, N - winlen, winstep), one more than there are slots unless winstep divides
        N - winlen. */
    method GetTFConnectivityAsWritten(name: string, winlen: nat, winstep: nat) returns (r: Result<TFArrays>)
      requires winstep > 0
      ensures r.Ok? ==> (r.value.SingleArrays? <==> cl.None?)
      ensures r.Ok? ==> fresh(Footprint(r.value)) && Separate(r.value)
      ensures Contents(r) == TimeFrequencyAsWritten(cfg, varDelta, activations, cl, name, winlen, winstep)
    {
      if activations.None? {
        return Err(NoActivations);
      }
      var acts := activations.value;
      var visits := |WindowStarts(|acts.frames|, winlen, winstep)|;
      RangeLength(0, |acts.frames| - winlen, winstep);
      if cl.None? {
        r := SingleSliding(cfg, varDelta, acts, name, winlen, winstep, visits);
      } else {
        r := ClassSliding(cfg, varDelta, acts, cl.value, name, winlen, winstep, visits);
      }
    }
  }

  /** A caller's run through the dependency order: fitVAR and getConnectivity fail before any
      model exists; setData before any decomposition still leaves no activations; after
      doMVARICA, setData with labels re-projects the new data, fitVAR fits one model per
      distinct label, and asking for the same measure twice gives the same answer. */
  method DependencyOrder(cfg: Config, x: Signal, y: Signal, labels: seq<Label>, name: string)
    returns (early: Outcome, query: Result<Fitted<Spectrum>>, noUnmixing: Outcome, decomposed: Outcome,
             fitted: Outcome, first: Result<Fitted<Spectrum>>, second: Result<Fitted<Spectrum>>)
    ensures early == Fail(NoActivations) && query == Err(NoConnectivity)
    ensures noUnmixing == Fail(NoActivations)
    ensures decomposed == Pass && fitted == Pass
    ensures first == second
    ensures first.Ok? ==> first.value.PerClass? && first.value.byClass.Keys == Classes(labels)
    ensures first.Err? <==> MeasureByName(name).None? && Classes(labels) != {}
  {
    var s := new SCoT(cfg, None);
    early := s.FitVAR();
    query := s.GetConnectivity(name);
    s.SetData(x, None);
    noUnmixing := s.FitVAR();
    decomposed := s.DoMVARICA();
    s.SetData(y, Some(labels));
    fitted := s.FitVAR();
    first := s.GetConnectivity(name);
    second := s.GetConnectivity(name);
  }
}
