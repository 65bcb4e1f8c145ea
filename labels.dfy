/**
 * The marker label of `drawSat`: `satname.match(/\d+/g).join("")`, the
 * concatenation of every run of decimal digits in the satellite's name.
 * When the name holds no digit, `match` yields null and `join` throws.
 */
module Labels {
  import opened Wrappers

  /** `\d` without the unicode flag: the ten ASCII digits. */
  predicate IsDigit(c: char) {
    '0' <= c <= '9'
  }

  /** Length of the longest all-digit prefix of `s` (the greedy `\d+`). */
  function RunLength(s: string): (n: nat)
    ensures n <= |s|
    ensures forall j :: 0 <= j < n ==> IsDigit(s[j])
    ensures n < |s| ==> !IsDigit(s[n])
  {
    if s == [] || !IsDigit(s[0]) then 0 else 1 + RunLength(s[1..])
  }

  /** The match list of the global regular expression `/\d+/g`, in order. */
  function DigitRuns(s: string): (runs: seq<string>)
    ensures forall k :: 0 <= k < |runs| ==> |runs[k]| > 0
    ensures forall k, j :: 0 <= k < |runs| && 0 <= j < |runs[k]| ==> IsDigit(runs[k][j])
    decreases |s|
  {
    if s == [] then []
    else if !IsDigit(s[0]) then DigitRuns(s[1..])
    else
      var n := RunLength(s);
      [s[..n]] + DigitRuns(s[n..])
  }

  /** `Array.prototype.join("")`. */
  function Join(runs: seq<string>): (r: string)
    ensures forall c :: c in r ==> exists j :: 0 <= j < |runs| && c in runs[j]
    ensures forall j, c :: 0 <= j < |runs| && c in runs[j] ==> c in r
  {
    if runs == [] then [] else runs[0] + Join(runs[1..])
  }

  /** Reference definition: the digits of `s`, in order, everything else dropped. */
  function Digits(s: string): string {
    if s == [] then []
    else (if IsDigit(s[0]) then [s[0]] else []) + Digits(s[1..])
  }

  /** Some label, or None where the source throws a TypeError. */
  function NameLabel(satname: string): (r: Option<string>)
    ensures r.Some? <==> exists j :: 0 <= j < |satname| && IsDigit(satname[j])
    ensures r == if Digits(satname) == [] then None else Some(Digits(satname))
  {
    JoinedRunsAreDigits(satname);
    NoRunsIffNoDigits(satname);
    DigitsEmptyIff(satname);
    var runs := DigitRuns(satname);
    if runs == [] then None else Some(Join(runs))
  }

  lemma {:induction false} DigitsSplitAtRun(s: string, n: nat)
    requires n <= |s|
    requires forall j :: 0 <= j < n ==> IsDigit(s[j])
    ensures Digits(s) == s[..n] + Digits(s[n..])
    decreases n
  {
    if n > 0 {
      DigitsSplitAtRun(s[1..], n - 1);
      assert s[1..][n - 1..] == s[n..];
      assert s[..n] == [s[0]] + s[1..][..n - 1];
    }
  }

  /** Joining the regular-expression matches gives exactly the digits of the name. */
  lemma {:induction false} JoinedRunsAreDigits(s: string)
    ensures Join(DigitRuns(s)) == Digits(s)
    decreases |s|
  {
    if s == [] {
    } else if !IsDigit(s[0]) {
      JoinedRunsAreDigits(s[1..]);
    } else {
      var n := RunLength(s);
      JoinedRunsAreDigits(s[n..]);
      DigitsSplitAtRun(s, n);
      assert DigitRuns(s) == [s[..n]] + DigitRuns(s[n..]);
      assert ([s[..n]] + DigitRuns(s[n..]))[1..] == DigitRuns(s[n..]);
    }
  }

  /** `match` returns null exactly when the name holds no digit. */
  lemma {:induction false} NoRunsIffNoDigits(s: string)
    ensures DigitRuns(s) == [] <==> forall j :: 0 <= j < |s| ==> !IsDigit(s[j])
    decreases |s|
  {
    if s != [] {
      NoRunsIffNoDigits(s[1..]);
      if !IsDigit(s[0]) {
        assert forall j :: 1 <= j < |s| ==> s[j] == s[1..][j - 1];
      }
    }
  }

  /** The label is empty exactly when the name holds no digit. */
  lemma {:induction false} DigitsEmptyIff(s: string)
    ensures Digits(s) == [] <==> forall j :: 0 <= j < |s| ==> !IsDigit(s[j])
    decreases |s|
  {
    if s != [] {
      DigitsEmptyIff(s[1..]);
      assert forall j :: 1 <= j < |s| ==> s[j] == s[1..][j - 1];
    }
  }

  /** A Starlink name keeps its number. */
  lemma StarlinkLabel()
    ensures NameLabel("STARLINK-24") == Some("24")
  {
    assert "STARLINK-24"[1..] == "TARLINK-24";
    assert Digits("STARLINK-24") == "24";
  }

  /** Separate digit runs are concatenated. */
  lemma JoinedLabel()
    ensures NameLabel("NOAA 15 (A2)") == Some("152")
  {
    assert "NOAA 15 (A2)"[1..] == "OAA 15 (A2)";
    assert Digits("NOAA 15 (A2)") == "152";
  }

  /** A name without digits makes `drawSat` throw. */
  lemma DigitFreeLabel()
    ensures NameLabel("ISS (ZARYA)") == None
  {
    assert "ISS (ZARYA)"[1..] == "SS (ZARYA)";
    assert Digits("ISS (ZARYA)") == "";
  }
}
