/**
 * The check runner: every registered check runs on the same font, and their
 * diagnostics are concatenated in registration order.
 */
module Runner {
  import opened Diagnostics
  import opened WinMetrics

  /** A check rule: a font in, its diagnostics out. */
  type Check = Font -> seq<Diagnostic>

  /** The checks run on every font, in order. */
  const RegisteredChecks: seq<Check> := [Report]

  /** The concatenation of the checks' outputs, in the order of `checks`. */
  function Outputs(checks: seq<Check>, font: Font): seq<Diagnostic>
  {
    if checks == [] then [] else Outputs(checks[..|checks| - 1], font) + checks[|checks| - 1](font)
  }

  /** The loop over the check array, extending one vector with each check's output. */
  method RunChecks(checks: seq<Check>, font: Font) returns (diagnostics: seq<Diagnostic>)
    ensures diagnostics == Outputs(checks, font)
  {
    diagnostics := [];
    var i := 0;
    while i < |checks|
      invariant 0 <= i <= |checks|
      invariant diagnostics == Outputs(checks[..i], font)
    {
      var checkDiagnostics := checks[i](font);
      assert checks[..i + 1][..i] == checks[..i];
      diagnostics := diagnostics + checkDiagnostics;
      i := i + 1;
    }
    assert checks[..i] == checks;
  }

  /** All diagnostics for one font: those of the registered checks, in order. */
  method CheckFont(font: Font) returns (diagnostics: seq<Diagnostic>)
    ensures diagnostics == Report(font)
  {
    diagnostics := RunChecks(RegisteredChecks, font);
    assert Outputs(RegisteredChecks, font) == Outputs([], font) + Report(font);
  }

  /** Running a sequence of checks is running its two halves one after the other. */
  lemma {:induction false} OutputsAppend(first: seq<Check>, second: seq<Check>, font: Font)
    ensures Outputs(first + second, font) == Outputs(first, font) + Outputs(second, font)
    decreases |second|
  {
    if second == [] {
      assert first + second == first;
    } else {
      var last := |second| - 1;
      assert (first + second)[..|first + second| - 1] == first + second[..last];
      OutputsAppend(first, second[..last], font);
    }
  }

  /**
   * Nothing is dropped, reordered or merged: check `i`'s output appears
   * whole, after the outputs of the checks before it and before those after it.
   */
  lemma OutputsSplit(checks: seq<Check>, font: Font, i: nat)
    requires i < |checks|
    ensures Outputs(checks, font)
         == Outputs(checks[..i], font) + checks[i](font) + Outputs(checks[i + 1..], font)
  {
    assert checks == checks[..i] + [checks[i]] + checks[i + 1..];
    OutputsAppend(checks[..i] + [checks[i]], checks[i + 1..], font);
    OutputsAppend(checks[..i], [checks[i]], font);
    assert Outputs([checks[i]], font) == Outputs([], font) + checks[i](font);
  }

  /** The runner's output holds exactly the diagnostics some check produced. */
  lemma {:induction false} OutputsMembers(checks: seq<Check>, font: Font, d: Diagnostic)
    ensures d in Outputs(checks, font) <==> exists i :: 0 <= i < |checks| && d in checks[i](font)
    decreases |checks|
  {
    if checks != [] {
      var init := checks[..|checks| - 1];
      OutputsMembers(init, font, d);
      if d in Outputs(checks, font) && d !in Outputs(init, font) {
        assert d in checks[|checks| - 1](font);
      }
      if exists i :: 0 <= i < |checks| && d in checks[i](font) {
        var i :| 0 <= i < |checks| && d in checks[i](font);
        if i < |checks| - 1 {
          assert init[i] == checks[i];
        }
      }
    }
  }

  /** The length of the combined output is the sum of the checks' output lengths. */
  function TotalLength(checks: seq<Check>, font: Font): nat
  {
    if checks == [] then 0 else |checks[0](font)| + TotalLength(checks[1..], font)
  }

  lemma {:induction false} OutputsLength(checks: seq<Check>, font: Font)
    ensures |Outputs(checks, font)| == TotalLength(checks, font)
    decreases |checks|
  {
    if checks != [] {
      OutputsSplit(checks, font, 0);
      OutputsLength(checks[1..], font);
      assert checks[..0] == [];
    }
  }
}
