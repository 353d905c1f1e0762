/** The state of the two user-side treatment forms (`AddTreatment` and
    `EditTreatmentDialog`), the handlers they share, and the `HH:MM`
    normalisation `AddTreatment` applies before storing. */
module TreatmentForm {
  import opened Common
  import Clock
  import Seqs
  import UseNotifications

  /** A JavaScript `Date`, by its epoch milliseconds. */
  datatype Date = Date(epochMillis: int)

  /** What the form fields hold: the medicine name, the slider's frequency,
      one time input per dose, and the two date pickers (`null` is `None`). */
  datatype FormState = FormState(medicineName: string, frequency: int, times: seq<string>,
                                 startDate: Option<Date>, endDate: Option<Date>)

  /** A `treatments` document as the user-side forms write it (`addDoc`). */
  datatype TreatmentDoc = TreatmentDoc(userId: Option<string>, medicineName: string, frequency: int,
                                       times: seq<string>, startDate: Date, endDate: Date)

  /** One time input per dose. */
  predicate Consistent(s: FormState) {
    |s.times| == s.frequency
  }

  /** `handleFrequencyChange`: the slider sets the frequency and replaces the
      times by as many empty inputs. */
  function HandleFrequencyChange(s: FormState, n: nat): (r: FormState)
    ensures r.frequency == n && Consistent(r)
    ensures forall i :: 0 <= i < |r.times| ==> r.times[i] == ""
    ensures r.medicineName == s.medicineName && r.startDate == s.startDate && r.endDate == s.endDate
  {
    s.(frequency := n, times := Seqs.EmptyTimes(n))
  }

  /** `handleTimeChange`: the input at `index` (one of the rendered inputs)
      takes `value`; every other input and every other field is kept. */
  method HandleTimeChange(s: FormState, index: nat, value: string) returns (r: FormState)
    requires index < |s.times|
    ensures r.medicineName == s.medicineName && r.frequency == s.frequency &&
            r.startDate == s.startDate && r.endDate == s.endDate
    ensures |r.times| == |s.times| && r.times[index] == value
    ensures forall j :: 0 <= j < |s.times| && j != index ==> r.times[j] == s.times[j]
    ensures Consistent(s) ==> Consistent(r)
  {
    var times := Seqs.SetAt(s.times, index, value);
    r := s.(times := times);
  }

  /** The submit guard `!medicineName || !startDate || !endDate ||
      times.some(time => time === '')`, negated. */
  predicate AllFilled(medicineName: string, startDate: Option<Date>, endDate: Option<Date>, times: seq<string>): (filled: bool)
    ensures filled ==> |medicineName| > 0 && forall i :: 0 <= i < |times| ==> |times[i]| > 0
    ensures (medicineName == "" || startDate.None? || endDate.None?) ==> !filled
  {
    medicineName != "" && startDate.Some? && endDate.Some? && "" !in times
  }

  /** `time.slice(0, 5)`: the first five characters, or all of a shorter string. */
  function Truncate5(s: string): (r: string)
    ensures |r| == if |s| < 5 then |s| else 5
    ensures r == s[..|r|]
  {
    if |s| <= 5 then s else s[..5]
  }

  /** `times.map(time => time.slice(0, 5))`: each time cut to at most five
      characters, keeping its beginning. */
  function NormalizeTimes(times: seq<string>): (r: seq<string>)
    ensures |r| == |times|
    ensures forall i :: 0 <= i < |r| ==> |r[i]| <= 5 && |r[i]| <= |times[i]| && r[i] == times[i][..|r[i]|]
    ensures forall i :: 0 <= i < |r| ==> |times[i]| <= 5 ==> r[i] == times[i]
  {
    seq(|times|, i requires 0 <= i < |times| => Truncate5(times[i]))
  }

  /** A time input's value with seconds (`"08:00:00"`) is cut back to the
      minute the reminder ticks render. */
  lemma TruncateKeepsMinute(hour: nat, minute: nat, suffix: string)
    requires hour < 24 && minute < 60
    ensures Truncate5(Clock.FormatHHMM(hour, minute) + suffix) == Clock.FormatHHMM(hour, minute)
  {
    var t := Clock.FormatHHMM(hour, minute);
    assert (t + suffix)[..5] == t;
  }

  /** Normalising twice is normalising once. */
  lemma NormalizeIdempotent(times: seq<string>)
    ensures NormalizeTimes(NormalizeTimes(times)) == NormalizeTimes(times)
  {
  }

  /** Truncation never empties a filled input, so a form that passed the guard
      stores no empty time. */
  lemma NormalizeKeepsFilled(times: seq<string>)
    requires "" !in times
    ensures "" !in NormalizeTimes(times)
  {
    var r := NormalizeTimes(times);
    forall i | 0 <= i < |r| ensures r[i] != "" {
      assert times[i] != "";
      assert |r[i]| > 0;
    }
  }

  /** A dose entered as `HH:MM` followed by anything is matched, once stored,
      by the reminder tick at that minute. */
  lemma StoredTimeFires(times: seq<string>, i: nat, hour: nat, minute: nat, suffix: string)
    requires i < |times| && hour < 24 && minute < 60
    requires times[i] == Clock.FormatHHMM(hour, minute) + suffix
    ensures UseNotifications.Matches(NormalizeTimes(times), Clock.FormatHHMM(hour, minute))
  {
    TruncateKeepsMinute(hour, minute, suffix);
    assert NormalizeTimes(times)[i] == Clock.FormatHHMM(hour, minute);
  }
}
