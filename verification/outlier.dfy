/**
 The outlier filter of the refresh pipeline. It runs over a feed's samples in
 chronological order. A sample whose parsed value is implausible for the feed
 gets its predecessor's raw value (as that predecessor stands after its own
 filtering), so a run of implausible samples collapses onto the last plausible
 one. Index 0 is never replaced.

 Parsing is the host's `parseFloat`, passed in as `parse`; `None` stands for
 NaN, and every comparison with NaN is false, so an unparseable sample is never
 out of range.
 */
module Outlier {
  import opened Wrappers
  import opened Feeds

  /** `v < c` with JavaScript semantics: NaN compares false. */
  predicate Below(v: Option<real>, c: real) {
    v.Some? && v.value < c
  }

  /** `v > c` with JavaScript semantics: NaN compares false. */
  predicate Above(v: Option<real>, c: real) {
    v.Some? && v.value > c
  }

  /** The per-feed plausibility bounds: oxygen below 80, pulse below 50,
      body temperature below 30 or above 50. Any other feed is never filtered. */
  predicate OutOfRange(key: string, v: Option<real>): (b: bool)
    ensures v.None? ==> !b
    ensures key != "oxigeno" && key != "pulso" && key != "temperatura" ==> !b
    ensures b && key == "temperatura" ==> !(30.0 <= v.value <= 50.0)
  {
    || (key == "oxigeno" && Below(v, 80.0))
    || (key == "pulso" && Below(v, 50.0))
    || (key == "temperatura" && (Below(v, 30.0) || Above(v, 50.0)))
  }

  /** True when the raw value of `s` is implausible for the feed `key`. */
  predicate Implausible(key: string, parse: string -> Option<real>, s: Sample) {
    OutOfRange(key, parse(s.value))
  }

  /** The filter over a chronological series, defined by the prefix it has
      already processed. The contract is the step rule of the scan: position 0
      is kept, and position i takes the already-filtered value at i-1 exactly
      when the ORIGINAL sample at i is implausible; timestamps never move. */
  function Filter(key: string, parse: string -> Option<real>, h: seq<Sample>): (r: seq<Sample>)
    decreases |h|
    ensures |r| == |h|
    ensures forall i :: 0 <= i < |h| ==> r[i].createdAt == h[i].createdAt
    ensures |h| > 0 ==> r[0] == h[0]
    ensures forall i :: 0 < i < |h| && Implausible(key, parse, h[i]) ==>
      r[i] == h[i].(value := r[i - 1].value)
    ensures forall i :: 0 <= i < |h| && !Implausible(key, parse, h[i]) ==> r[i] == h[i]
  {
    if |h| <= 1 then h
    else
      var pre := Filter(key, parse, h[..|h| - 1]);
      var last := h[|h| - 1];
      pre + [if Implausible(key, parse, last) then last.(value := pre[|pre| - 1].value) else last]
  }

  /** The index whose raw value ends up at position i: the nearest index at or
      before i that is either 0 or plausible. Every index after it, up to i,
      is implausible. */
  function Anchor(key: string, parse: string -> Option<real>, h: seq<Sample>, i: nat): (j: nat)
    requires i < |h|
    ensures j <= i
    ensures j == 0 || !Implausible(key, parse, h[j])
    ensures forall k :: j < k <= i ==> Implausible(key, parse, h[k])
  {
    if i == 0 || !Implausible(key, parse, h[i]) then i else Anchor(key, parse, h, i - 1)
  }

  /** Reference reading of the filter: position i keeps its own timestamp and
      carries the raw value of its anchor. */
  lemma {:induction false} FilterTakesAnchorValue(key: string, parse: string -> Option<real>, h: seq<Sample>, i: nat)
    requires i < |h|
    ensures Filter(key, parse, h)[i] == h[i].(value := h[Anchor(key, parse, h, i)].value)
    decreases i
  {
    if i > 0 && Implausible(key, parse, h[i]) {
      FilterTakesAnchorValue(key, parse, h, i - 1);
    }
  }

  /** Run collapse: when sample g is plausible (or is the first one) and the
      samples g+1 .. g+n are all implausible, the whole stretch g .. g+n carries
      the raw value of sample g. */
  lemma RunCollapse(key: string, parse: string -> Option<real>, h: seq<Sample>, g: nat, n: nat)
    requires g + n < |h|
    requires g == 0 || !Implausible(key, parse, h[g])
    requires forall k :: g < k <= g + n ==> Implausible(key, parse, h[k])
    ensures forall k :: g <= k <= g + n ==> Filter(key, parse, h)[k].value == h[g].value
  {
    forall k | g <= k <= g + n
      ensures Filter(key, parse, h)[k].value == h[g].value
    {
      FilterTakesAnchorValue(key, parse, h, k);
    }
  }

  /** The values the filter can emit all come from the input: every output
      value is the raw value of some input sample at or before it. */
  lemma FilterValuesComeFromInput(key: string, parse: string -> Option<real>, h: seq<Sample>, i: nat)
    requires i < |h|
    ensures exists j :: 0 <= j <= i && Filter(key, parse, h)[i].value == h[j].value
  {
    FilterTakesAnchorValue(key, parse, h, i);
    var j := Anchor(key, parse, h, i);
    assert Filter(key, parse, h)[i].value == h[j].value;
  }

  /** A feed without bounds (any key other than oxygen, pulse or body
      temperature) passes through the filter unchanged. */
  lemma UnboundedFeedIsIdentity(key: string, parse: string -> Option<real>, h: seq<Sample>)
    requires key != "oxigeno" && key != "pulso" && key != "temperatura"
    ensures Filter(key, parse, h) == h
  {
    assert forall i :: 0 <= i < |h| ==> !Implausible(key, parse, h[i]);
  }

  /** A series with no implausible sample after index 0 (in range or
      unparseable) is left as it is. */
  lemma PlausibleSeriesIsFixed(key: string, parse: string -> Option<real>, h: seq<Sample>)
    requires forall i :: 0 < i < |h| ==> !Implausible(key, parse, h[i])
    ensures Filter(key, parse, h) == h
  {
    var r := Filter(key, parse, h);
    assert forall i :: 0 <= i < |h| ==> r[i] == h[i];
  }

  /** A series is stable when every implausible sample after index 0 already
      repeats its predecessor's value: the filter has nothing left to do. */
  predicate Stable(key: string, parse: string -> Option<real>, h: seq<Sample>) {
    forall i :: 0 < i < |h| && Implausible(key, parse, h[i]) ==> h[i].value == h[i - 1].value
  }

  /** The filter leaves its output stable. */
  lemma FilterOutputIsStable(key: string, parse: string -> Option<real>, h: seq<Sample>)
    ensures Stable(key, parse, Filter(key, parse, h))
  {
  }

  /** Position-wise: the filter fixes every position of a stable series. */
  lemma {:induction false} StableFixedAt(key: string, parse: string -> Option<real>, h: seq<Sample>, i: nat)
    requires Stable(key, parse, h)
    requires i < |h|
    ensures Filter(key, parse, h)[i] == h[i]
    decreases i
  {
    if i > 0 && Implausible(key, parse, h[i]) {
      StableFixedAt(key, parse, h, i - 1);
    }
  }

  /** Stable series are exactly the fixed points of the filter. */
  lemma StableIffFixed(key: string, parse: string -> Option<real>, h: seq<Sample>)
    ensures Stable(key, parse, h) <==> Filter(key, parse, h) == h
  {
    if Stable(key, parse, h) {
      forall i | 0 <= i < |h| ensures Filter(key, parse, h)[i] == h[i] {
        StableFixedAt(key, parse, h, i);
      }
    } else if Filter(key, parse, h) == h {
      FilterOutputIsStable(key, parse, h);
    }
  }

  /** The filter is idempotent: filtering an already-filtered series changes nothing. */
  lemma FilterIdempotent(key: string, parse: string -> Option<real>, h: seq<Sample>)
    ensures Filter(key, parse, Filter(key, parse, h)) == Filter(key, parse, h)
  {
    FilterOutputIsStable(key, parse, h);
    StableIffFixed(key, parse, Filter(key, parse, h));
  }

  /** The filter as the dashboard runs it: one pass over a mutable array, with
      one guarded replacement per bounded feed kind. */
  method FilterInPlace(key: string, parse: string -> Option<real>, data: seq<Sample>) returns (out: seq<Sample>)
    ensures out == Filter(key, parse, data)
  {
    ghost var r := Filter(key, parse, data);
    var history := new Sample[|data|](j requires 0 <= j < |data| => data[j]);
    var i := 0;
    while i < history.Length
      invariant 0 <= i <= history.Length == |data|
      invariant forall j :: 0 <= j < i ==> history[j] == r[j]
      invariant forall j :: i <= j < history.Length ==> history[j] == data[j]
    {
      var val := parse(history[i].value);
      assert val == parse(data[i].value) && history[i] == data[i];
      if key == "oxigeno" {
        if Below(val, 80.0) && i > 0 {
          history[i] := history[i].(value := history[i - 1].value);
        }
      }
      if key == "pulso" {
        if Below(val, 50.0) && i > 0 {
          history[i] := history[i].(value := history[i - 1].value);
        }
      }
      if key == "temperatura" {
        if (Below(val, 30.0) || Above(val, 50.0)) && i > 0 {
          history[i] := history[i].(value := history[i - 1].value);
        }
      }
      i := i + 1;
    }
    out := history[..];
  }
}
