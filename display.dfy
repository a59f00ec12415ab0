/**
 * The small display rules of a search-result card and of the rate slider.
 */
module Display {
  import opened Wrappers
  import opened Text
  import opened Booking

  /** The badge on a result card: its label and its style variant. */
  function Badge(w: Worker): (b: (string, string))
    ensures b.0 == "Broker Managed" <==> IsBrokerManaged(w)
    ensures b.0 == "Independent" <==> !IsBrokerManaged(w)
    ensures b.1 == (if b.0 == "Broker Managed" then "outline" else "secondary")
  {
    if IsBrokerManaged(w) then ("Broker Managed", "outline") else ("Independent", "secondary")
  }

  /** The phone line: only an independent worker with a phone number shows one. */
  function ShowsPhone(w: Worker): (shown: bool)
    ensures shown ==> !IsBrokerManaged(w) && Truthy(w.phone)
    ensures !IsBrokerManaged(w) && Truthy(w.phone) ==> shown
  {
    !IsBrokerManaged(w) && Truthy(w.phone)
  }

  /** `parts.filter(Boolean)`: the parts that are present and non-empty, in order. */
  function KeepTruthy(parts: seq<Option<string>>): (kept: seq<string>)
    ensures |kept| <= |parts|
    ensures forall i :: 0 <= i < |kept| ==> kept[i] != ""
    ensures forall i :: 0 <= i < |kept| ==> Some(kept[i]) in parts
    ensures forall i :: 0 <= i < |parts| && Truthy(parts[i]) ==> parts[i].value in kept
  {
    if parts == [] then []
    else if Truthy(parts[0]) then [parts[0].value] + KeepTruthy(parts[1..])
    else KeepTruthy(parts[1..])
  }

  /**
   * Filtering distributes over concatenation: the truthy parts of `a + b` are
   * those of `a` followed by those of `b`, so order and repetitions are kept.
   */
  lemma {:induction false} KeepTruthyAppend(a: seq<Option<string>>, b: seq<Option<string>>)
    ensures KeepTruthy(a + b) == KeepTruthy(a) + KeepTruthy(b)
  {
    if a == [] {
      assert a + b == b;
    } else {
      assert (a + b)[0] == a[0];
      assert (a + b)[1..] == a[1..] + b;
      KeepTruthyAppend(a[1..], b);
    }
  }

  /** `parts.join(sep)`. */
  function Join(parts: seq<string>, sep: string): string {
    if parts == [] then "" else if |parts| == 1 then parts[0] else parts[0] + sep + Join(parts[1..], sep)
  }

  /** `[city, state].filter(Boolean).join(', ')` on a worker's address. */
  function AddressLine(a: Address): string {
    Join(KeepTruthy([a.city, a.state]), ", ")
  }

  /**
   * The address line is "city, state" when both are given, one of them alone
   * when only that one is, and empty when neither is: no dangling separator.
   */
  lemma AddressLineCases(a: Address)
    ensures Truthy(a.city) && Truthy(a.state) ==> AddressLine(a) == a.city.value + ", " + a.state.value
    ensures Truthy(a.city) && !Truthy(a.state) ==> AddressLine(a) == a.city.value
    ensures !Truthy(a.city) && Truthy(a.state) ==> AddressLine(a) == a.state.value
    ensures !Truthy(a.city) && !Truthy(a.state) ==> AddressLine(a) == ""
  {
    var parts := [a.city, a.state];
    assert parts[1..] == [a.state];
    assert parts[1..][1..] == [];
    var kept := KeepTruthy(parts);
    var rest := KeepTruthy([a.state]);
    assert rest == if Truthy(a.state) then [a.state.value] else [];
    assert kept == if Truthy(a.city) then [a.city.value] + rest else rest;
    if Truthy(a.city) && Truthy(a.state) {
      assert Join(kept, ", ") == kept[0] + ", " + Join(kept[1..], ", ");
      assert kept[1..] == [a.state.value];
    }
  }

  /** "1 year experience", "3 years experience": singular exactly for one year. */
  function ExperienceLabel(years: int): (r: string)
    ensures years == 1 ==> r == IntToString(years) + " year experience"
    ensures years != 1 ==> r == IntToString(years) + " years experience"
  {
    IntToString(years) + " " + (if years == 1 then "year" else "years") + " experience"
  }

  /**
   * What a JSX `{value && <element/>}` puts on the page: nothing for a
   * missing value, the element for a truthy one, and, for the number 0 (a
   * falsy value that React still renders), the bare text "0".
   */
  datatype Rendered = Nothing | StrayText(text: string) | Element(content: string)

  /** The experience line of a result card as written: `{worker.yearsOfExperience && (...)}`. */
  function ExperienceLineAsWritten(w: Worker): (r: Rendered)
    ensures r == StrayText("0") <==> w.yearsOfExperience == Some(0)
    ensures r.Element? <==> w.yearsOfExperience.Some? && w.yearsOfExperience.value != 0
    ensures r.Element? ==> r.content == ExperienceLabel(w.yearsOfExperience.value)
  {
    match w.yearsOfExperience
    case None => Nothing
    case Some(years) => if years == 0 then StrayText("0") else Element(ExperienceLabel(years))
  }

  /** A worker with zero years of experience gets a stray "0" on its card. */
  lemma ZeroYearsShowsStrayZero()
    ensures ExperienceLineAsWritten(Worker("w1", "Ann", None, None, None, Some(0))) == StrayText("0")
  {
  }

  /** The experience line as evidently intended: shown for present, non-zero years, and nothing otherwise. */
  function ExperienceLine(w: Worker): (r: Option<string>)
    ensures r.Some? <==> w.yearsOfExperience.Some? && w.yearsOfExperience.value != 0
    ensures r.Some? ==> r.value == ExperienceLabel(w.yearsOfExperience.value)
  {
    if w.yearsOfExperience.Some? && w.yearsOfExperience.value != 0
    then Some(ExperienceLabel(w.yearsOfExperience.value))
    else None
  }

  /** The intended line differs from the written one only where the written one leaves a stray "0". */
  lemma ExperienceLineFixesOnlyZero(w: Worker)
    ensures ExperienceLine(w).Some? ==> ExperienceLineAsWritten(w) == Element(ExperienceLine(w).value)
    ensures ExperienceLine(w).None? ==>
      ExperienceLineAsWritten(w) == Nothing || ExperienceLineAsWritten(w) == StrayText("0")
  {
  }

  /** The two labels under the rate slider; the upper one reads "$100+ " at the top of the range. */
  function RateLabels(lo: int, hi: int): (r: (string, string))
    ensures r.0 == "$" + IntToString(lo)
    ensures |r.1| > |IntToString(hi)| && r.1[..|IntToString(hi)| + 1] == "$" + IntToString(hi)
    ensures |r.1| == |IntToString(hi)| + (if hi == 100 then 3 else 1)
    ensures |r.1| >= 2 && (r.1[|r.1| - 2..] == "+ " <==> hi == 100)
  {
    IntToStringRoundTrip(hi);
    var upper := "$" + IntToString(hi) + (if hi == 100 then "+ " else "");
    assert hi != 100 ==> upper[|upper| - 1] == IntToString(hi)[|IntToString(hi)| - 1];
    ("$" + IntToString(lo), upper)
  }
}
