/** Thinned per-token samples and the growth figures read from them (backend/app/domain/history.py).

Samples are kept at least ten minutes apart and for at most 26 hours.  The module shows that this thinning bounds the
list whatever the clock does, and how often it must be fed so that it still answers every growth question. */
module History {
  import opened Common

  const MIN_SPACING := 600.0
  const MAX_AGE := 93600.0

  datatype Field = Liquidity | MarketCap | Price
  datatype Window = H1 | H6 | H24

  /** One reading; a missing or unusable value is None. */
  datatype Sample = Sample(at: real, liquidity: Option<real>, marketCap: Option<real>, price: Option<real>) {
    function Get(f: Field): Option<real> {
      match f
      case Liquidity => liquidity
      case MarketCap => marketCap
      case Price => price
    }

    predicate Useful() { Ok(liquidity) || Ok(marketCap) || Ok(price) }

    function Cleaned(): Sample {
      Sample(at, Clean(liquidity), Clean(marketCap), Clean(price))
    }
  }

  predicate Ok(v: Option<real>) { v.Some? && v.value > 0.0 }

  function Clean(v: Option<real>): Option<real> { if Ok(v) then v else None }

  function Seconds(w: Window): real {
    match w case H1 => 3600.0 case H6 => 21600.0 case H24 => 86400.0
  }

  // ---------------------------------------------------------------- update_history

  function Pruned(hist: seq<Sample>, cutoff: real): seq<Sample> {
    if hist != [] && hist[0].at < cutoff then Pruned(hist[1..], cutoff) else hist
  }

  predicate Due(hist: seq<Sample>, ts: real) {
    hist == [] || ts - hist[|hist| - 1].at >= MIN_SPACING
  }

  /** The list after a call with the reading x. */
  function Updated(hist: seq<Sample>, x: Sample): seq<Sample> {
    if !x.Useful() then hist
    else Pruned(Grown(hist, x), x.at - MAX_AGE)
  }

  function Grown(hist: seq<Sample>, x: Sample): seq<Sample> {
    if Due(hist, x.at) then hist + [x.Cleaned()] else hist
  }

  /** The list after a sequence of calls, starting empty. */
  function Replay(calls: seq<Sample>): seq<Sample> {
    if calls == [] then [] else Updated(Replay(calls[..|calls| - 1]), calls[|calls| - 1])
  }

  // ---------------------------------------------------------------- growth

  function Age(s: Sample, ts: real): real { ts - s.at }

  function Gap(s: Sample, ts: real, w: Window): real {
    var d := Age(s, ts) - Seconds(w);
    if d < 0.0 then -d else d
  }

  predicate Eligible(s: Sample, ts: real, f: Field, w: Window) {
    Ok(s.Get(f)) && Seconds(w) * 0.85 <= Age(s, ts) <= Seconds(w) * 1.6
  }

  /** hist[i] is the eligible sample closest in age to the window, the oldest of those that tie. */
  predicate Nearest(hist: seq<Sample>, i: int, ts: real, f: Field, w: Window) {
    && 0 <= i < |hist| && Eligible(hist[i], ts, f, w)
    && forall j :: 0 <= j < |hist| && Eligible(hist[j], ts, f, w) ==>
         Gap(hist[i], ts, w) <= Gap(hist[j], ts, w) && (j < i ==> Gap(hist[i], ts, w) < Gap(hist[j], ts, w))
  }

  function PercentChange(before: real, now: real): (change: real)
    requires before > 0.0
    ensures before * (1.0 + change / 100.0) == now
  {
    ChangeLeadsBack(before, now);
    (now / before - 1.0) * 100.0
  }

  lemma ChangeLeadsBack(before: real, now: real)
    requires before > 0.0
    ensures before * (1.0 + (now / before - 1.0) * 100.0 / 100.0) == now
  {
    assert (now / before - 1.0) * 100.0 / 100.0 == now / before - 1.0;
    assert before * (now / before) == now;
  }

  /** What a reported window goes back to: a sample with a value whose age is 85 to 160 percent of one hour, six hours or a day,
      and no other such sample is nearer to that age. */
  lemma NearestInHours(hist: seq<Sample>, i: int, ts: real, f: Field, w: Window)
    requires Nearest(hist, i, ts, f, w)
    ensures var hours := match w case H1 => 1.0 case H6 => 6.0 case H24 => 24.0;
            && 3060.0 * hours <= ts - hist[i].at <= 5760.0 * hours && hist[i].Get(f).Some? && hist[i].Get(f).value > 0.0
            && forall j :: 0 <= j < |hist| && hist[j].Get(f).Some? && hist[j].Get(f).value > 0.0
                 && 3060.0 * hours <= ts - hist[j].at <= 5760.0 * hours
                 ==> Away(ts - hist[i].at, 3600.0 * hours) <= Away(ts - hist[j].at, 3600.0 * hours)
  {
    forall j | 0 <= j < |hist| && Eligible(hist[j], ts, f, w) ensures Gap(hist[i], ts, w) <= Gap(hist[j], ts, w) {}
  }

  function Away(x: real, y: real): real { if x < y then y - x else x - y }

  class TokenHistory {
    var hist: seq<Sample>

    constructor ()
      ensures hist == []
    {
      hist := [];
    }

    method Update(ts: real, liquidity: Option<real>, marketCap: Option<real>, price: Option<real>)
      modifies this
      ensures hist == Updated(old(hist), Sample(ts, liquidity, marketCap, price))
    {
      if !(Ok(liquidity) || Ok(marketCap) || Ok(price)) { return; }
      if hist == [] || ts - hist[|hist| - 1].at >= MIN_SPACING {
        hist := hist + [Sample(ts, Clean(liquidity), Clean(marketCap), Clean(price))];
      }
      Prune(ts - MAX_AGE);
    }

    method Prune(cutoff: real)
      modifies this
      ensures hist == Pruned(old(hist), cutoff)
    {
      while hist != [] && hist[0].at < cutoff
        invariant Pruned(hist, cutoff) == Pruned(old(hist), cutoff)
        decreases |hist|
      {
        hist := hist[1..];
      }
    }

    /** A window is reported exactly when an eligible sample exists, as the change since the nearest one. */
    method Growth(ts: real, f: Field, current: Option<real>) returns (out: map<Window, real>)
      ensures !Ok(current) ==> out == map[]
      ensures Ok(current) ==> forall w :: w in out <==> !Missing(w, ts, f)
      ensures Ok(current) ==> forall w :: w in out ==> Reported(out, w, ts, f, current.value)
    {
      out := map[];
      if !Ok(current) { return; }
      var windows := [H1, H6, H24];
      for n := 0 to 3
        invariant forall w :: w in out ==> Reported(out, w, ts, f, current.value)
        invariant forall k :: 0 <= k < n && windows[k] !in out ==> Missing(windows[k], ts, f)
      {
        var w := windows[n];
        var best := ClosestTo(w, ts, f);
        if best >= 0 {
          out := out[w := PercentChange(hist[best].Get(f).value, current.value)];
          assert Reported(out, w, ts, f, current.value);
        }
      }
      forall w | w !in out ensures Missing(w, ts, f) {
        assert w == windows[match w case H1 => 0 case H6 => 1 case H24 => 2];
      }
    }

    ghost predicate Missing(w: Window, ts: real, f: Field)
      reads this
    {
      forall i :: 0 <= i < |hist| ==> !Eligible(hist[i], ts, f, w)
    }

    ghost predicate Reported(out: map<Window, real>, w: Window, ts: real, f: Field, now: real)
      reads this
    {
      w in out && exists i :: Nearest(hist, i, ts, f, w) && out[w] == PercentChange(hist[i].Get(f).value, now)
    }

    /** The inner loop: the index of the nearest eligible sample, or -1. */
    method ClosestTo(w: Window, ts: real, f: Field) returns (best: int)
      ensures best >= 0 ==> Nearest(hist, best, ts, f, w)
      ensures best < 0 ==> forall i :: 0 <= i < |hist| ==> !Eligible(hist[i], ts, f, w)
    {
      best := -1;
      for i := 0 to |hist|
        invariant -1 <= best < i
        invariant best >= 0 ==> Nearest(hist[..i], best, ts, f, w)
        invariant best < 0 ==> forall k :: 0 <= k < i ==> !Eligible(hist[k], ts, f, w)
      {
        assert hist[..i + 1] == hist[..i] + [hist[i]];
        if Eligible(hist[i], ts, f, w) && (best < 0 || Gap(hist[i], ts, w) < Gap(hist[best], ts, w)) {
          best := i;
        }
      }
      assert hist[..|hist|] == hist;
    }
  }

  // ---------------------------------------------------------------- bounded whatever the clock does

  ghost predicate Spaced(hist: seq<Sample>) {
    forall i, j :: 0 <= i < |hist| && 0 <= j < |hist| && j == i + 1 ==> hist[j].at - hist[i].at >= MIN_SPACING
  }

  ghost predicate WellSpaced(hist: seq<Sample>) {
    Spaced(hist) && (hist != [] ==> hist[|hist| - 1].at - hist[0].at <= MAX_AGE)
  }

  /** Timestamps may go backwards between calls: the samples still increase, at least ten minutes apart, over at most
      26 hours. */
  lemma {:induction false} AlwaysWellSpaced(calls: seq<Sample>)
    ensures WellSpaced(Replay(calls))
  {
    if calls != [] {
      AlwaysWellSpaced(calls[..|calls| - 1]);
      UpdateKeepsSpacing(Replay(calls[..|calls| - 1]), calls[|calls| - 1]);
    }
  }

  lemma UpdateKeepsSpacing(hist: seq<Sample>, x: Sample)
    requires WellSpaced(hist)
    ensures WellSpaced(Updated(hist, x))
  {
    if x.Useful() {
      var grown := Grown(hist, x);
      assert Spaced(grown);
      if Due(hist, x.at) {
        PruneBoundsSpan(grown, x.at);
      } else {
        PruneKeepsSpan(grown, x.at - MAX_AGE);
      }
    }
  }

  lemma {:induction false} PruneBoundsSpan(hist: seq<Sample>, ts: real)
    requires Spaced(hist) && hist != [] && hist[|hist| - 1].at == ts
    ensures WellSpaced(Pruned(hist, ts - MAX_AGE))
  {
    if hist[0].at < ts - MAX_AGE {
      PruneBoundsSpan(hist[1..], ts);
    }
  }

  lemma {:induction false} PruneKeepsSpan(hist: seq<Sample>, cutoff: real)
    requires WellSpaced(hist)
    ensures WellSpaced(Pruned(hist, cutoff))
  {
    if hist != [] && hist[0].at < cutoff {
      assert |hist| > 1 ==> hist[1].at - hist[0].at >= MIN_SPACING;
      PruneKeepsSpan(hist[1..], cutoff);
    }
  }

  lemma {:induction false} SpacingAddsUp(hist: seq<Sample>, i: nat)
    requires Spaced(hist)
    ensures i < |hist| ==> hist[i].at - hist[0].at >= MIN_SPACING * i as real
  {
    if 0 < i < |hist| {
      SpacingAddsUp(hist, i - 1);
    }
  }

  /** Pruning removes exactly the samples older than the cutoff. */
  lemma {:induction false} PrunedContents(hist: seq<Sample>, cutoff: real, s: Sample)
    requires Spaced(hist)
    ensures s in Pruned(hist, cutoff) <==> s in hist && s.at >= cutoff
  {
    if hist != [] && hist[0].at < cutoff {
      PrunedContents(hist[1..], cutoff, s);
      assert hist == [hist[0]] + hist[1..];
    } else if s in hist {
      var i :| 0 <= i < |hist| && hist[i] == s;
      SpacingAddsUp(hist, i);
    }
  }

  /** A useful call keeps exactly the samples of the last 26 hours, plus its own reading if one was due. */
  lemma UpdateContents(hist: seq<Sample>, x: Sample, s: Sample)
    requires WellSpaced(hist) && x.Useful()
    ensures s in Updated(hist, x) <==> (s in hist || (Due(hist, x.at) && s == x.Cleaned())) && s.at >= x.at - MAX_AGE
  {
    assert Spaced(Grown(hist, x));
    PrunedContents(Grown(hist, x), x.at - MAX_AGE, s);
  }

  /** So the list never holds more than 157 samples. */
  lemma AtMost157Samples(calls: seq<Sample>)
    ensures |Replay(calls)| <= 157
  {
    var h := Replay(calls);
    AlwaysWellSpaced(calls);
    if |h| > 157 {
      SpacingAddsUp(h, |h| - 1);
    }
  }

  // ---------------------------------------------------------------- fed often enough, every window is answered

  /** Calls in time order, at most `every` seconds apart, each with a usable value of the field. */
  ghost predicate Regular(calls: seq<Sample>, f: Field, every: real) {
    && (forall i :: 0 <= i < |calls| ==> Ok(calls[i].Get(f)))
    && (forall i, j :: 0 <= i < |calls| && 0 <= j < |calls| && j == i + 1 ==> 0.0 <= calls[j].at - calls[i].at <= every)
  }

  /** What regular feeding keeps: every sample has the field, neighbours are under 2700 seconds apart, and the newest one
      is under ten minutes older than the latest call. */
  ghost predicate Dense(hist: seq<Sample>, f: Field, latest: real) {
    && hist != []
    && (forall i :: 0 <= i < |hist| ==> Ok(hist[i].Get(f)))
    && (forall i, j :: 0 <= i < |hist| && 0 <= j < |hist| && j == i + 1 ==> hist[j].at - hist[i].at < 2700.0)
    && 0.0 <= latest - hist[|hist| - 1].at < MIN_SPACING
  }

  lemma {:induction false} RegularIsDense(calls: seq<Sample>, f: Field)
    requires calls != [] && Regular(calls, f, 2100.0)
    ensures Dense(Replay(calls), f, calls[|calls| - 1].at)
  {
    var n := |calls| - 1;
    var before := calls[..n];
    if n > 0 {
      RegularIsDense(before, f);
      assert calls[n].at - calls[n - 1].at <= 2100.0;
    } else {
      assert Replay(before) == [];
    }
    UpdateKeepsDense(Replay(before), f, if n > 0 then calls[n - 1].at else calls[n].at, calls[n]);
  }

  lemma UpdateKeepsDense(hist: seq<Sample>, f: Field, latest: real, x: Sample)
    requires hist == [] || Dense(hist, f, latest)
    requires Ok(x.Get(f)) && 0.0 <= x.at - latest <= 2100.0
    ensures Dense(Updated(hist, x), f, x.at)
  {
    UsableField(x, f);
    GrownIsDense(hist, f, latest, x);
    PrunedIsDense(hist, f, x, Grown(hist, x));
  }

  lemma PrunedIsDense(hist: seq<Sample>, f: Field, x: Sample, grown: seq<Sample>)
    requires x.Useful() && grown == Grown(hist, x) && Dense(grown, f, x.at)
    ensures Dense(Updated(hist, x), f, x.at)
  {
    PruneKeepsDense(grown, f, x.at, x.at - MAX_AGE);
  }

  lemma UsableField(x: Sample, f: Field)
    requires Ok(x.Get(f))
    ensures x.Useful() && Ok(x.Cleaned().Get(f))
  {
  }

  lemma GrownIsDense(hist: seq<Sample>, f: Field, latest: real, x: Sample)
    requires hist == [] || Dense(hist, f, latest)
    requires Ok(x.Cleaned().Get(f)) && 0.0 <= x.at - latest <= 2100.0
    ensures Dense(Grown(hist, x), f, x.at)
  {
    if hist != [] && Due(hist, x.at) {
      assert x.at - hist[|hist| - 1].at < 2700.0;
    }
  }

  lemma {:induction false} PruneKeepsDense(hist: seq<Sample>, f: Field, latest: real, cutoff: real)
    requires Dense(hist, f, latest) && cutoff <= latest - MIN_SPACING
    ensures Dense(Pruned(hist, cutoff), f, latest)
  {
    if hist[0].at < cutoff {
      PruneKeepsDense(hist[1..], f, latest, cutoff);
    }
  }

  /** The newest sample that is at least x seconds old. */
  lemma {:induction false} NewestThatOld(hist: seq<Sample>, ts: real, x: real) returns (i: nat)
    requires hist != [] && Age(hist[0], ts) >= x
    ensures i < |hist| && Age(hist[i], ts) >= x && (i + 1 < |hist| ==> Age(hist[i + 1], ts) < x)
  {
    if |hist| == 1 || Age(hist[1], ts) < x {
      i := 0;
    } else {
      var k := NewestThatOld(hist[1..], ts, x);
      i := k + 1;
    }
  }

  /** If the history is fed at least every 2100 seconds, then from the moment its oldest sample reaches 0.85 of a window,
      that window can be answered. */
  lemma GrowthIsReported(calls: seq<Sample>, f: Field, ts: real, w: Window)
    requires calls != [] && Regular(calls, f, 2100.0)
    requires 0.0 <= ts - calls[|calls| - 1].at <= 2100.0
    requires var h := Replay(calls); h != [] && Age(h[0], ts) >= 0.85 * Seconds(w)
    ensures exists i :: 0 <= i < |Replay(calls)| && Eligible(Replay(calls)[i], ts, f, w)
  {
    var h := Replay(calls);
    RegularIsDense(calls, f);
    var i := NewestThatOld(h, ts, 0.85 * Seconds(w));
    if i + 1 < |h| {
      assert h[i + 1].at - h[i].at < 2700.0;
    }
    assert Eligible(h[i], ts, f, w);
  }

  /** The interval is sharp: for any longer one there is a regular feed after which the one-hour window is not answered
      although the oldest sample is old enough. */
  lemma LongerIntervalsFail(every: real) returns (calls: seq<Sample>, ts: real)
    requires every > 2100.0
    ensures calls != [] && Regular(calls, Price, every) && 0.0 <= ts - calls[|calls| - 1].at <= 2100.0
    ensures var h := Replay(calls); h != [] && Age(h[0], ts) >= 0.85 * Seconds(H1)
    ensures forall i :: 0 <= i < |Replay(calls)| ==> !Eligible(Replay(calls)[i], ts, Price, H1)
  {
    var d := if every >= 2102.0 then 1.0 else (every - 2100.0) / 2.0;
    var a, b, c, e := Priced(0.0), Priced(600.0 - d), Priced(2700.0 + d), Priced(4800.0 + d);
    calls, ts := [a, b, c, e], 5760.0 + d / 2.0;
    ReplayFour(a, b, c, e);
  }

  lemma ReplayFour(a: Sample, b: Sample, c: Sample, e: Sample)
    requires a == Priced(a.at) && b == Priced(b.at) && c == Priced(c.at) && e == Priced(e.at)
    requires b.at - a.at < MIN_SPACING <= c.at - a.at && e.at - c.at >= MIN_SPACING
    requires b.at - a.at <= MAX_AGE && c.at - a.at <= MAX_AGE && e.at - a.at <= MAX_AGE
    ensures Replay([a, b, c, e]) == [a, c, e]
  {
    var s1, s2, s3 := [a], [a] + [b], [a] + [b] + [c];
    assert [] + [a] == s1;
    ReplayExtends([], a, []);
    ReplayExtends(s1, b, [a]);
    ReplayExtends(s2, c, [a]);
    ReplayExtends(s3, e, [a] + [c]);
    assert s3 + [e] == [a, b, c, e] && [a] + [c] + [e] == [a, c, e];
  }

  function Priced(at: real): Sample { Sample(at, None, None, Some(1.0)) }

  /** One more call within 26 hours of the oldest sample: nothing is pruned. */
  lemma ReplayExtends(calls: seq<Sample>, x: Sample, hist: seq<Sample>)
    requires Replay(calls) == hist && x == Priced(x.at)
    requires hist != [] ==> x.at - hist[0].at <= MAX_AGE
    ensures Replay(calls + [x]) == if Due(hist, x.at) then hist + [x] else hist
  {
    assert (calls + [x])[..|calls|] == calls;
    assert x.Cleaned() == x;
  }
}
