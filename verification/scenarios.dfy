/**
 Concrete runs of the pipeline on a few example readings. `ExampleParse`
 plays `parseFloat` for the handful of strings that occur; anything else
 reads as NaN.
 */
module Scenarios {
  import opened Wrappers
  import opened Feeds
  import opened Outlier
  import opened Pipeline

  function ExampleParse(s: string): Option<real> {
    if s == "99" then Some(99.0)
    else if s == "72" then Some(72.0)
    else if s == "10" then Some(10.0)
    else if s == "5" then Some(5.0)
    else if s == "60" then Some(60.0)
    else if s == "36.5" then Some(36.5)
    else if s == "36.2" then Some(36.2)
    else if s == "200" then Some(200.0)
    else None
  }

  function ExampleHost(): Host {
    Host(ExampleParse, (t: string) => t)
  }

  /** Oxygen readings 99, 72, 10, 5, 60 (chronological). Every reading after
      the first is below 80, 72 included, so the whole run collapses onto 99. */
  lemma OxygenRunCollapses()
    ensures var h := [Sample("99", "t0"), Sample("72", "t1"), Sample("10", "t2"),
                      Sample("5", "t3"), Sample("60", "t4")];
      var r := Filter("oxigeno", ExampleParse, h);
      [r[0].value, r[1].value, r[2].value, r[3].value, r[4].value] == ["99", "99", "99", "99", "99"]
  {
    var h := [Sample("99", "t0"), Sample("72", "t1"), Sample("10", "t2"),
              Sample("5", "t3"), Sample("60", "t4")];
    assert ExampleParse(h[1].value) == Some(72.0);
    assert ExampleParse(h[2].value) == Some(10.0);
    assert ExampleParse(h[3].value) == Some(5.0);
    assert ExampleParse(h[4].value) == Some(60.0);
    RunCollapse("oxigeno", ExampleParse, h, 0, 4);
  }

  /** Body temperature as the API returns it (newest first: 36.5, 200, 36.2).
      Reversed it reads 36.2, 200, 36.5; 200 is above 50 and takes 36.2; the
      record's newest value is 36.5 and its date the first sample's. */
  lemma TemperatureEndToEnd()
    ensures var data := [Sample("36.5", "t2"), Sample("200", "t1"), Sample("36.2", "t0")];
      var r := Process("temperatura", data, ExampleHost());
      && r.Some?
      && r.value.values == ["36.2", "36.2", "36.5"]
      && r.value.lastValue == "36.5"
      && r.value.lastDate == "t2"
  {
    var data := [Sample("36.5", "t2"), Sample("200", "t1"), Sample("36.2", "t0")];
    var r := Process("temperatura", data, ExampleHost());
    assert Implausible("temperatura", ExampleParse, data[1]);
    assert !Implausible("temperatura", ExampleParse, data[0]);
  }

  /** The same readings as a pulse feed (bound: below 50): 72 and 60 are
      plausible, so only 10 and 5 are replaced, by 72. */
  lemma PulseRunCollapses()
    ensures var h := [Sample("99", "t0"), Sample("72", "t1"), Sample("10", "t2"),
                      Sample("5", "t3"), Sample("60", "t4")];
      var r := Filter("pulso", ExampleParse, h);
      [r[0].value, r[1].value, r[2].value, r[3].value, r[4].value] == ["99", "72", "72", "72", "60"]
  {
    var h := [Sample("99", "t0"), Sample("72", "t1"), Sample("10", "t2"),
              Sample("5", "t3"), Sample("60", "t4")];
    assert ExampleParse(h[1].value) == Some(72.0);
    assert ExampleParse(h[2].value) == Some(10.0);
    assert ExampleParse(h[3].value) == Some(5.0);
    assert ExampleParse(h[4].value) == Some(60.0);
    RunCollapse("pulso", ExampleParse, h, 1, 2);
  }

  /** A first sample that is itself implausible is kept; an unparseable one
      is never replaced. */
  lemma PulseEdgeCases()
    ensures var h := [Sample("10", "t0"), Sample("5", "t1"), Sample("n/a", "t2")];
      var r := Filter("pulso", ExampleParse, h);
      [r[0].value, r[1].value, r[2].value] == ["10", "10", "n/a"]
  {
    var h := [Sample("10", "t0"), Sample("5", "t1"), Sample("n/a", "t2")];
    assert Implausible("pulso", ExampleParse, h[1]);
    assert !Implausible("pulso", ExampleParse, h[2]);
  }
}
