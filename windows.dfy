/** The integer window arithmetic of the sliding-window connectivity estimate:
    the slot count Nstep = (N - winlen) // winstep and the window starts
    range(0, N - winlen, winstep). */
module Windows {

  /** Python's floor division (N - winlen) // winstep. For a positive divisor it agrees with
      Dafny's Euclidean division, also when N < winlen makes the dividend negative. */
  function StepCount(n: int, winlen: int, winstep: int): (r: int)
    requires winstep > 0
    ensures r * winstep <= n - winlen < r * winstep + winstep
    ensures r >= 0 <==> n >= winlen
  {
    (n - winlen) / winstep
  }

  /** Python's range(start, stop, step) for a positive step. */
  function Range(start: int, stop: int, step: int): (r: seq<int>)
    requires step > 0
    ensures forall i :: 0 <= i < |r| ==> r[i] == start + i * step && r[i] < stop
    ensures |r| > 0 ==> start < stop
    ensures start + |r| * step >= stop
    decreases stop - start
  {
    if start >= stop then []
    else
      var rest := Range(start + step, stop, step);
      assert forall i :: 1 <= i < |rest| + 1 ==> start + i * step == (start + step) + (i - 1) * step;
      [start] + rest
  }

  /** The start offsets the source's loop visits: range(0, N - winlen, winstep), that is
      0, winstep, 2 * winstep, ... up to but excluding N - winlen. */
  function WindowStarts(n: int, winlen: int, winstep: int): (r: seq<int>)
    requires winstep > 0
    ensures forall i :: 0 <= i < |r| ==> r[i] == i * winstep && r[i] < n - winlen
    ensures |r| == if n <= winlen then 0
                   else (n - winlen) / winstep + (if (n - winlen) % winstep == 0 then 0 else 1)
  {
    RangeLength(0, n - winlen, winstep);
    Range(0, n - winlen, winstep)
  }

  /** range(0, d, w) yields ceil(d / w) values: one per full step, plus one for a remainder. */
  lemma {:induction false} RangeLength(start: int, stop: int, step: int)
    requires step > 0
    ensures |Range(start, stop, step)| ==
            if stop <= start then 0
            else (stop - start) / step + (if (stop - start) % step == 0 then 0 else 1)
    decreases stop - start
  {
    if start < stop {
      RangeLength(start + step, stop, step);
      var d := stop - start;
      if d <= step {
        assert d / step == (if d == step then 1 else 0);
      } else {
        assert (d - step) / step == d / step - 1 && (d - step) % step == d % step by {
          DivSubStep(d, step);
        }
      }
    }
  }

  lemma DivSubStep(d: int, step: int)
    requires step > 0 && d >= step
    ensures (d - step) / step == d / step - 1 && (d - step) % step == d % step
  {
    DivUnique(d - step, step, d / step - 1, d % step);
  }

  /** Quotient and remainder are the only such pair. */
  lemma DivUnique(x: int, step: int, q: int, m: int)
    requires step > 0 && 0 <= m < step && x == q * step + m
    ensures x / step == q && x % step == m
  {
    var q', m' := x / step, x % step;
    assert (q - q') * step == m' - m;
    if q > q' {
      MulMonotone(1, q - q', step);
    } else if q < q' {
      MulMonotone(1, q' - q, step);
    }
  }

  /** The number of windows visited equals the number of output slots exactly when winstep
      divides N - winlen; otherwise the loop visits one window more than there are slots. */
  lemma WindowCountAgainstSlots(n: int, winlen: int, winstep: int)
    requires winstep > 0
    requires n >= winlen
    ensures |WindowStarts(n, winlen, winstep)| == StepCount(n, winlen, winstep) <==>
            (n - winlen) % winstep == 0
    ensures (n - winlen) % winstep != 0 ==>
            |WindowStarts(n, winlen, winstep)| == StepCount(n, winlen, winstep) + 1
  {
    RangeLength(0, n - winlen, winstep);
  }

  /** Every visited window [start, start + winlen) lies inside [0, N), and ends before N:
      the window that would end exactly at sample N is never visited. */
  lemma WindowsInside(n: int, winlen: nat, winstep: int, i: int)
    requires winstep > 0
    requires 0 <= i < |WindowStarts(n, winlen, winstep)|
    ensures WindowStarts(n, winlen, winstep)[i] == i * winstep
    ensures 0 <= i * winstep && i * winstep + winlen < n
  {
  }

  /** Slot i of the output, for i < Nstep, is the i-th window visited, and it fits inside N. */
  lemma {:induction false} SlotWindow(n: int, winlen: nat, winstep: int, i: int)
    requires winstep > 0
    requires 0 <= i < StepCount(n, winlen, winstep)
    ensures i < |WindowStarts(n, winlen, winstep)| && WindowStarts(n, winlen, winstep)[i] == i * winstep
    ensures 0 <= i * winstep && i * winstep + winlen < n
  {
    var q := StepCount(n, winlen, winstep);
    RangeLength(0, n - winlen, winstep);
    assert i * winstep <= (q - 1) * winstep by { MulMonotone(i, q - 1, winstep); }
  }

  lemma MulMonotone(a: int, b: int, c: int)
    requires a <= b && c >= 0
    ensures a * c <= b * c
  {
    assert b * c - a * c == (b - a) * c;
  }

  /** Two worked sizes: N = 1000, winlen = 200, winstep = 100 gives eight
      slots and eight windows; N = winlen = 200 gives none of either, without an error. */
  lemma {:induction false} DocumentedWindowCounts()
    ensures StepCount(1000, 200, 100) == 8 && |WindowStarts(1000, 200, 100)| == 8
    ensures StepCount(200, 200, 50) == 0 && WindowStarts(200, 200, 50) == []
  {
    RangeLength(0, 800, 100);
  }

  /** N = 1000, winlen = 200, winstep = 300: np.zeros allocates two slots, but
      range(0, 800, 300) visits the starts 0, 300 and 600, so the third write targets slot 2. */
  lemma {:induction false} WindowOverrunExample()
    ensures StepCount(1000, 200, 300) == 2
    ensures WindowStarts(1000, 200, 300) == [0, 300, 600]
  {
    assert Range(900, 800, 300) == [];
    assert Range(600, 800, 300) == [600];
    assert Range(300, 800, 300) == [300, 600];
  }
}
