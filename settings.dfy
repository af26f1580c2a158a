/**
 * The lookback choices the sidebar offers (time_range in app.py) and the
 * number of hours a choice stands for.
 */
module Settings {
  import opened Wrappers

  /** The choices in the order the select box lists them: name and hours. */
  const TimeRange: seq<(string, int)> :=
    [("1時間", 1), ("6時間", 6), ("12時間", 12), ("24時間", 24), ("48時間", 48), ("96時間", 96)]

  /** The select box starts on its fourth entry. */
  const DefaultChoice: nat := 3

  /** `time_range[name]` over some of the choices. */
  function HoursIn(choices: seq<(string, int)>, name: string): (r: Option<int>)
    ensures r.Some? <==> exists i :: 0 <= i < |choices| && choices[i].0 == name
    ensures r.Some? ==> exists i :: 0 <= i < |choices| && choices[i] == (name, r.value)
    decreases |choices|
  {
    if |choices| == 0 then None
    else if choices[0].0 == name then Some(choices[0].1)
    else HoursIn(choices[1..], name)
  }

  /** `time_range[select_range]`: the hours of the chosen entry, defined
      exactly for the offered names, and between one hour and four days. */
  function LookbackHours(name: string): (r: Option<int>)
    ensures r.Some? <==> exists i :: 0 <= i < |TimeRange| && TimeRange[i].0 == name
    ensures r.Some? ==> 1 <= r.value <= 96
  {
    TimeRangeShape();
    HoursIn(TimeRange, name)
  }

  /** Each choice is offered once, the choices grow strictly, every one is
      at least an hour, and the default is a day. */
  lemma TimeRangeShape()
    ensures forall i, j :: 0 <= i < j < |TimeRange| ==> TimeRange[i].0 != TimeRange[j].0
    ensures forall i, j :: 0 <= i < j < |TimeRange| ==> TimeRange[i].1 < TimeRange[j].1
    ensures forall i :: 0 <= i < |TimeRange| ==> TimeRange[i].1 >= 1
    ensures DefaultChoice < |TimeRange| && TimeRange[DefaultChoice] == ("24時間", 24)
  {
  }

  /** Every name the select box offers has its hours, and the default
      choice means 24 hours. */
  lemma OfferedLabelsResolve()
    ensures forall i :: 0 <= i < |TimeRange| ==> LookbackHours(TimeRange[i].0).Some?
    ensures LookbackHours(TimeRange[DefaultChoice].0) == Some(24)
  {
  }
}
