/** What each orchestrator step computes, as functions of the state it reads.
    The SCoT class methods are proved against these. */
module Pipeline {
  import opened Types
  import opened Labels
  import opened Windows

  /** The constructor-time configuration: collaborators, VAR order, reducedim, nfft. */
  datatype Config = Config(cx: Collaborators, varOrder: nat, reducedim: real, nfft: nat)

  /** The (retain_variance, numcomp) pair handed to mvarica. */
  function ReductionArgs(reducedim: real): (r: (Option<real>, Option<real>))
    ensures r.0.Some? != r.1.Some?
    ensures r.0.Some? <==> reducedim < 1.0
    ensures r.0 == Some(reducedim) || r.1 == Some(reducedim)
  {
    if reducedim < 1.0 then (Some(reducedim), None) else (None, Some(reducedim))
  }

  /** The VAR model, noise covariance and connectivity fields agree: all single, built from
      each other, or all per class, keyed by exactly the distinct labels. */
  ghost predicate ModelsAgree(cfg: Config, model: Fitted<VarModel>, cov: Fitted<NoiseCov>,
                              conn: Fitted<ConnModel>, cl: Option<seq<Label>>)
  {
    match (model, cov, conn)
    case (Single(b), Single(c), Single(k)) =>
      k == cfg.cx.connectivity(b, c, cfg.nfft)
    case (PerClass(bs), PerClass(cs), PerClass(ks)) =>
      && cl.Some?
      && bs.Keys == Classes(cl.value) && cs.Keys == Classes(cl.value) && ks.Keys == Classes(cl.value)
      && forall k :: k in ks ==> ks[k] == cfg.cx.connectivity(bs[k], cs[k], cfg.nfft)
    case _ => false
  }

  /** The model fields of the orchestrator: all None, or all set and agreeing. */
  ghost predicate ModelState(cfg: Config, model: Option<Fitted<VarModel>>, cov: Option<Fitted<NoiseCov>>,
                             conn: Option<Fitted<ConnModel>>, cl: Option<seq<Label>>)
  {
    || (model.None? && cov.None? && conn.None?)
    || (model.Some? && cov.Some? && conn.Some? && ModelsAgree(cfg, model.value, cov.value, conn.value, cl))
  }

  /** What fitVAR stores: one fit and one Connectivity without labels; with labels, one per
      distinct label, the fits taken from var.fit_multiclass. */
  function FitModels(cfg: Config, delta: Option<real>, acts: Signal, cl: Option<seq<Label>>)
    : (r: (Fitted<VarModel>, Fitted<NoiseCov>, Fitted<ConnModel>))
    ensures ModelsAgree(cfg, r.0, r.1, r.2, cl)
    ensures cl.None? <==> r.2.Single?
  {
    match cl
    case None =>
      var (b, c) := cfg.cx.fit(acts, cfg.varOrder, delta);
      (Single(b), Single(c), Single(cfg.cx.connectivity(b, c, cfg.nfft)))
    case Some(labels) =>
      var f := cfg.cx.fitMulticlass(acts, labels, cfg.varOrder, delta);
      (PerClass(map k | k in Classes(labels) :: f(k).0),
       PerClass(map k | k in Classes(labels) :: f(k).1),
       PerClass(map k | k in Classes(labels) :: cfg.cx.connectivity(f(k).0, f(k).1, cfg.nfft)))
  }

  /** What getConnectivity returns: the measure of the single model, or a dict from every
      distinct label to the measure of that label's model. The measure is looked up only
      when some model is evaluated. */
  function Query(cfg: Config, conn: Option<Fitted<ConnModel>>, cl: Option<seq<Label>>, name: string)
    : (r: Result<Fitted<Spectrum>>)
    requires conn.Some? && conn.value.PerClass? ==>
               cl.Some? && Classes(cl.value) <= conn.value.byClass.Keys
    ensures conn.None? <==> r == Err(NoConnectivity)
    ensures r.Err? ==> r == Err(NoConnectivity) || r == Err(NoSuchMeasure(name))
    ensures r == Err(NoSuchMeasure(name)) <==>
              conn.Some? && MeasureByName(name).None? &&
              (conn.value.Single? || Classes(cl.value) != {})
    ensures r.Ok? && conn.value.Single? ==>
              r.value == Single(cfg.cx.evaluate(conn.value.value, MeasureByName(name).value))
    ensures r.Ok? && conn.value.PerClass? ==>
              r.value.PerClass? && r.value.byClass.Keys == Classes(cl.value) &&
              forall k :: k in r.value.byClass ==>
                MeasureByName(name).Some? &&
                r.value.byClass[k] == cfg.cx.evaluate(conn.value.byClass[k], MeasureByName(name).value)
  {
    if conn.None? then Err(NoConnectivity)
    else
      var m := MeasureByName(name);
      match conn.value
      case Single(k) =>
        if m.None? then Err(NoSuchMeasure(name)) else Ok(Single(cfg.cx.evaluate(k, m.value)))
      case PerClass(ks) =>
        var labels := Classes(cl.value);
        if labels == {} then Ok(PerClass(map[]))
        else if m.None? then Err(NoSuchMeasure(name))
        else Ok(PerClass(map k | k in labels :: cfg.cx.evaluate(ks[k], m.value)))
  }

  /** Samples [n, n + winlen) of a signal, all channels and trials. */
  function WindowOf(x: Signal, n: nat, winlen: nat): (w: Signal)
    requires n + winlen <= |x.frames|
    ensures |w.frames| == winlen && w.channels == x.channels && w.trials == x.trials
    ensures forall t :: 0 <= t < winlen ==> w.frames[t] == x.frames[n + t]
  {
    Signal(x.frames[n..n + winlen], x.channels, x.trials)
  }

  /** One window's measure without labels: a fresh var.fit and Connectivity. */
  function SingleWindowMeasure(cfg: Config, delta: Option<real>, w: Signal, m: Measure): Spectrum
  {
    var (b, c) := cfg.cx.fit(w, cfg.varOrder, delta);
    cfg.cx.evaluate(cfg.cx.connectivity(b, c, cfg.nfft), m)
  }

  /** One window's measure for class k: a fresh var.fit_multiclass and Connectivity. */
  function ClassWindowMeasure(cfg: Config, delta: Option<real>, w: Signal, labels: seq<Label>,
                              k: Label, m: Measure): Spectrum
  {
    var f := cfg.cx.fitMulticlass(w, labels, cfg.varOrder, delta)(k);
    cfg.cx.evaluate(cfg.cx.connectivity(f.0, f.1, cfg.nfft), m)
  }

  /** Slot i of the time/frequency result without labels: the measure of window i * winstep. */
  function SingleSlot(cfg: Config, delta: Option<real>, x: Signal, winlen: nat, winstep: nat,
                      i: nat, m: Measure): Spectrum
    requires winstep > 0 && i < StepCount(|x.frames|, winlen, winstep)
  {
    SlotWindow(|x.frames|, winlen, winstep, i);
    SingleWindowMeasure(cfg, delta, WindowOf(x, i * winstep, winlen), m)
  }

  /** Slot i of class k's time/frequency result. */
  function ClassSlot(cfg: Config, delta: Option<real>, x: Signal, labels: seq<Label>, k: Label,
                     winlen: nat, winstep: nat, i: nat, m: Measure): Spectrum
    requires winstep > 0 && i < StepCount(|x.frames|, winlen, winstep)
  {
    SlotWindow(|x.frames|, winlen, winstep, i);
    ClassWindowMeasure(cfg, delta, WindowOf(x, i * winstep, winlen), labels, k, m)
  }

  /** The first `count` slots without labels. */
  function SingleSlots(cfg: Config, delta: Option<real>, x: Signal, winlen: nat, winstep: nat,
                       count: nat, m: Measure): (r: seq<Spectrum>)
    requires winstep > 0 && count <= StepCount(|x.frames|, winlen, winstep)
    ensures |r| == count
  {
    seq(count, i requires 0 <= i < count => SingleSlot(cfg, delta, x, winlen, winstep, i, m))
  }

  /** The first `count` slots of class k. */
  function ClassSlots(cfg: Config, delta: Option<real>, x: Signal, labels: seq<Label>, k: Label,
                      winlen: nat, winstep: nat, count: nat, m: Measure): (r: seq<Spectrum>)
    requires winstep > 0 && count <= StepCount(|x.frames|, winlen, winstep)
    ensures |r| == count
  {
    seq(count, i requires 0 <= i < count => ClassSlot(cfg, delta, x, labels, k, winlen, winstep, i, m))
  }

  /** The time/frequency connectivity as a value: one sequence of Nstep slots, or one per
      distinct label. */
  datatype TFValue = SingleTF(slots: seq<Spectrum>) | ClassTF(byClass: map<Label, seq<Spectrum>>)

  /** The sliding-window loop over the first `visits` window starts of
      range(0, N - winlen, winstep), writing window i into slot i of Nstep preallocated slots.
      np.zeros fails on a negative Nstep; the measure is looked up at the first evaluation;
      a write at slot Nstep or beyond fails. With labels but no distinct label there is
      nothing to allocate, evaluate or write, and the result is an empty dict. */
  function Sliding(cfg: Config, delta: Option<real>, x: Signal, cl: Option<seq<Label>>,
                   name: string, winlen: nat, winstep: nat, visits: nat): Result<TFValue>
    requires winstep > 0
    requires StepCount(|x.frames|, winlen, winstep) <= visits <= |WindowStarts(|x.frames|, winlen, winstep)|
  {
    var nstep := StepCount(|x.frames|, winlen, winstep);
    var m := MeasureByName(name);
    if cl.Some? && Classes(cl.value) == {} then Ok(ClassTF(map[]))
    else if nstep < 0 then Err(NegativeDimension)
    else if visits > 0 && m.None? then Err(NoSuchMeasure(name))
    else if visits > nstep then Err(IndexOutOfRange)
    else if cl.None? then
      Ok(SingleTF(if visits == 0 then [] else SingleSlots(cfg, delta, x, winlen, winstep, visits, m.value)))
    else if visits == 0 then Ok(ClassTF(map k | k in Classes(cl.value) :: []))
    else Ok(ClassTF(ClassSlotsMap(cfg, delta, x, cl.value, winlen, winstep, visits, m.value)))
  }

  /** The sliding-window loop fails exactly as the source's statements raise, in their order:
      np.zeros on a negative slot count first, then getattr at the first evaluation, then the
      store past the last slot. With labels but no distinct label nothing of this runs. */
  lemma SlidingErrors(cfg: Config, delta: Option<real>, x: Signal, cl: Option<seq<Label>>,
                      name: string, winlen: nat, winstep: nat, visits: nat)
    requires winstep > 0
    requires StepCount(|x.frames|, winlen, winstep) <= visits <= |WindowStarts(|x.frames|, winlen, winstep)|
    ensures var r := Sliding(cfg, delta, x, cl, name, winlen, winstep, visits);
      var nstep := StepCount(|x.frames|, winlen, winstep);
      var work := cl.None? || Classes(cl.value) != {};
      && (r == Err(NegativeDimension) <==> work && nstep < 0)
      && (r == Err(NoSuchMeasure(name)) <==> work && nstep >= 0 && visits > 0 && MeasureByName(name).None?)
      && (r == Err(IndexOutOfRange) <==>
            work && nstep >= 0 && visits > nstep && MeasureByName(name).Some?)
      && (r.Err? ==> r.error in {NegativeDimension, NoSuchMeasure(name), IndexOutOfRange})
    ensures var r := Sliding(cfg, delta, x, cl, name, winlen, winstep, visits);
      r.Ok? ==> (r.value.SingleTF? <==> cl.None?)
  {
  }

  /** A successful sliding-window loop visited exactly Nstep windows and holds, at slot i of
      every output, the measure of a fresh fit on window i. */
  lemma SlidingSlots(cfg: Config, delta: Option<real>, x: Signal, cl: Option<seq<Label>>,
                     name: string, winlen: nat, winstep: nat, visits: nat)
    requires winstep > 0
    requires StepCount(|x.frames|, winlen, winstep) <= visits <= |WindowStarts(|x.frames|, winlen, winstep)|
    ensures var r := Sliding(cfg, delta, x, cl, name, winlen, winstep, visits);
      r.Ok? && r.value.SingleTF? ==>
        && |r.value.slots| == visits == StepCount(|x.frames|, winlen, winstep)
        && forall i :: 0 <= i < |r.value.slots| ==>
             MeasureByName(name).Some? &&
             r.value.slots[i] == SingleSlot(cfg, delta, x, winlen, winstep, i, MeasureByName(name).value)
    ensures var r := Sliding(cfg, delta, x, cl, name, winlen, winstep, visits);
      r.Ok? && r.value.ClassTF? ==>
        && r.value.byClass.Keys == Classes(cl.value)
        && forall k :: k in r.value.byClass ==>
             && |r.value.byClass[k]| == visits == StepCount(|x.frames|, winlen, winstep)
             && forall i :: 0 <= i < visits ==>
                  MeasureByName(name).Some? &&
                  r.value.byClass[k][i] == ClassSlot(cfg, delta, x, cl.value, k, winlen, winstep, i,
                                                     MeasureByName(name).value)
  {
  }

  /** The first `count` slots of every distinct label. */
  function ClassSlotsMap(cfg: Config, delta: Option<real>, x: Signal, labels: seq<Label>,
                         winlen: nat, winstep: nat, count: nat, m: Measure): (r: map<Label, seq<Spectrum>>)
    requires winstep > 0 && count <= StepCount(|x.frames|, winlen, winstep)
    ensures r.Keys == Classes(labels)
  {
    map k | k in Classes(labels) :: ClassSlots(cfg, delta, x, labels, k, winlen, winstep, count, m)
  }

  /** The number of windows the corrected loop visits: Nstep, or none when Nstep < 0. */
  function CorrectedVisits(n: int, winlen: nat, winstep: nat): (r: nat)
    requires winstep > 0
    ensures r <= |WindowStarts(n, winlen, winstep)|
    ensures r == StepCount(n, winlen, winstep) || (r == 0 && StepCount(n, winlen, winstep) < 0)
  {
    RangeLength(0, n - winlen, winstep);
    var q := StepCount(n, winlen, winstep);
    if q < 0 then 0 else q
  }

  /** getTFConnectivity with the loop stopped after Nstep windows. */
  function TimeFrequency(cfg: Config, delta: Option<real>, acts: Option<Signal>, cl: Option<seq<Label>>,
                         name: string, winlen: nat, winstep: nat): (r: Result<TFValue>)
    requires winstep > 0
    ensures r == Err(NoActivations) <==> acts.None?
    ensures r != Err(IndexOutOfRange)
  {
    if acts.None? then Err(NoActivations)
    else Sliding(cfg, delta, acts.value, cl, name, winlen, winstep,
                 CorrectedVisits(|acts.value.frames|, winlen, winstep))
  }

  /** getTFConnectivity as the source writes it: the loop visits every start of
      range(0, N - winlen, winstep). */
  function TimeFrequencyAsWritten(cfg: Config, delta: Option<real>, acts: Option<Signal>,
                                  cl: Option<seq<Label>>, name: string, winlen: nat, winstep: nat)
    : (r: Result<TFValue>)
    requires winstep > 0
    ensures r == Err(NoActivations) <==> acts.None?
    ensures r.Ok? ==>
      && acts.Some?
      && ((cl.Some? && Classes(cl.value) == {}) ||
          |WindowStarts(|acts.value.frames|, winlen, winstep)| == StepCount(|acts.value.frames|, winlen, winstep))
  {
    if acts.None? then Err(NoActivations)
    else Sliding(cfg, delta, acts.value, cl, name, winlen, winstep,
                 |WindowStarts(|acts.value.frames|, winlen, winstep)|)
  }

  /** The corrected result has Nstep slots per output, one output per distinct label in the
      class case, and the only errors are the missing activations, a negative slot count and
      an unknown measure; it never writes out of range. */
  lemma TimeFrequencyShape(cfg: Config, delta: Option<real>, acts: Option<Signal>,
                           cl: Option<seq<Label>>, name: string, winlen: nat, winstep: nat)
    requires winstep > 0
    ensures var r := TimeFrequency(cfg, delta, acts, cl, name, winlen, winstep);
      && (r == Err(NoActivations) <==> acts.None?)
      && (r.Err? ==> r.error in {NoActivations, NegativeDimension, NoSuchMeasure(name)})
      && (r.Ok? ==> acts.Some? && (r.value.SingleTF? <==> cl.None?))
      && (r.Ok? && r.value.SingleTF? ==>
            |r.value.slots| == StepCount(|acts.value.frames|, winlen, winstep))
      && (r.Ok? && r.value.ClassTF? ==>
            r.value.byClass.Keys == Classes(cl.value) &&
            forall k :: k in r.value.byClass ==>
              |r.value.byClass[k]| == StepCount(|acts.value.frames|, winlen, winstep))
  {
  }

  /** Window independence without labels: slot i is exactly what fitVAR followed by
      getConnectivity would give on window i alone. */
  lemma {:induction false} SingleSlotIsSingleShot(cfg: Config, delta: Option<real>, x: Signal,
                                                  name: string, winlen: nat, winstep: nat, i: nat)
    requires winstep > 0
    requires TimeFrequency(cfg, delta, Some(x), None, name, winlen, winstep).Ok?
    requires i < StepCount(|x.frames|, winlen, winstep)
    ensures i * winstep + winlen < |x.frames|
    ensures var w := WindowOf(x, i * winstep, winlen);
      var fitted := FitModels(cfg, delta, w, None);
      Query(cfg, Some(fitted.2), None, name) ==
        Ok(Single(TimeFrequency(cfg, delta, Some(x), None, name, winlen, winstep).value.slots[i]))
  {
    SlotWindow(|x.frames|, winlen, winstep, i);
  }

  /** Window independence with labels: slot i of every class is what fitVAR followed by
      getConnectivity would give for that class on window i alone, with the same labels. */
  lemma {:induction false} ClassSlotIsSingleShot(cfg: Config, delta: Option<real>, x: Signal,
                                                 labels: seq<Label>, name: string,
                                                 winlen: nat, winstep: nat, i: nat)
    requires winstep > 0
    requires TimeFrequency(cfg, delta, Some(x), Some(labels), name, winlen, winstep).Ok?
    requires Classes(labels) != {}
    requires i < StepCount(|x.frames|, winlen, winstep)
    ensures i * winstep + winlen < |x.frames|
    ensures var w := WindowOf(x, i * winstep, winlen);
      var fitted := FitModels(cfg, delta, w, Some(labels));
      var tf := TimeFrequency(cfg, delta, Some(x), Some(labels), name, winlen, winstep).value;
      && tf.ClassTF? && tf.byClass.Keys == Classes(labels)
      && Query(cfg, Some(fitted.2), Some(labels), name) ==
           Ok(PerClass(map k | k in Classes(labels) :: tf.byClass[k][i]))
  {
    SlotWindow(|x.frames|, winlen, winstep, i);
    var w := WindowOf(x, i * winstep, winlen);
    var fitted := FitModels(cfg, delta, w, Some(labels));
    var tf := TimeFrequency(cfg, delta, Some(x), Some(labels), name, winlen, winstep).value;
    var q := Query(cfg, Some(fitted.2), Some(labels), name);
    assert q.Ok? && q.value.PerClass?;
    assert q.value.byClass == map k | k in Classes(labels) :: tf.byClass[k][i];
  }

  /** When winstep divides N - winlen (or no window fits), the source's loop visits exactly the
      Nstep slots, and the code as written computes the corrected result. */
  lemma AsWrittenAgreesWhenStepDivides(cfg: Config, delta: Option<real>, acts: Option<Signal>,
                                       cl: Option<seq<Label>>, name: string, winlen: nat, winstep: nat)
    requires winstep > 0
    requires acts.Some? ==>
      |acts.value.frames| <= winlen || (|acts.value.frames| - winlen) % winstep == 0
    ensures TimeFrequencyAsWritten(cfg, delta, acts, cl, name, winlen, winstep) ==
            TimeFrequency(cfg, delta, acts, cl, name, winlen, winstep)
  {
    if acts.Some? {
      var n := |acts.value.frames|;
      RangeLength(0, n - winlen, winstep);
    }
  }

  /** When winstep does not divide N - winlen, the code as written always fails with an
      IndexError (once a measure is evaluated and written at all), where the corrected loop
      returns its Nstep slots. */
  lemma AsWrittenOverrunsOtherwise(cfg: Config, delta: Option<real>, x: Signal,
                                   cl: Option<seq<Label>>, name: string, winlen: nat, winstep: nat)
    requires winstep > 0
    requires |x.frames| > winlen && (|x.frames| - winlen) % winstep != 0
    requires MeasureByName(name).Some?
    requires cl.Some? ==> Classes(cl.value) != {}
    ensures TimeFrequencyAsWritten(cfg, delta, Some(x), cl, name, winlen, winstep) == Err(IndexOutOfRange)
    ensures TimeFrequency(cfg, delta, Some(x), cl, name, winlen, winstep).Ok?
  {
    WindowCountAgainstSlots(|x.frames|, winlen, winstep);
  }
}
