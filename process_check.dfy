/**
 * The process-list checks of utils.go: `isProcessActive` lower-cases the
 * output of `tasklist` and looks each given image name up in it, either
 * requiring every name (`PS_ALL`) or counting the names found (`PS_ANY`);
 * `isRunnerActive` asks whether the build runner's tools are running.
 *
 * Running `tasklist` is abstracted to the `output` parameter: `None` when
 * the command failed, otherwise the text it printed.
 */
module ProcessCheck {
  import opened Wrappers
  import GoStrings

  /** Every name must be running. */
  const PsAll := 0
  /** The names are counted; see `ProcessActive`. */
  const PsAny := 1

  /** `name`, lower-cased, occurs in the already lower-cased output `lowered`. */
  predicate Listed(lowered: string, name: string)
  {
    GoStrings.Contains(lowered, GoStrings.ToLower(name))
  }

  /** How many of the first `n` names are listed in `lowered`, each entry of `names` counted on its own. */
  function HitCount(lowered: string, names: seq<string>, n: nat): (c: nat)
    requires n <= |names|
    ensures c <= n
  {
    if n == 0 then 0 else HitCount(lowered, names, n - 1) + (if Listed(lowered, names[n - 1]) then 1 else 0)
  }

  /**
   * What `isProcessActive(check, names...)` answers, given what `tasklist`
   * printed: in all-mode, whether every name occurs in the output; in
   * any-mode, whether more than one entry of `names` does; false for an
   * empty `names`, a failed `tasklist` or any other `check`.
   */
  function ProcessActive(check: int, names: seq<string>, output: Option<string>): bool
  {
    if |names| == 0 || output.None? then false
    else
      var lowered := GoStrings.ToLower(output.value);
      if check == PsAll then forall k :: 0 <= k < |names| ==> Listed(lowered, names[k])
      else if check == PsAny then HitCount(lowered, names, |names|) > 1
      else false
  }

  /** `isProcessActive`: the loop over `names` with its early returns and its `found` counter. */
  method IsProcessActive(check: int, names: seq<string>, output: Option<string>) returns (active: bool)
    ensures active == ProcessActive(check, names, output)
  {
    if |names| == 0 {
      return false;
    }
    var res := true;
    if output.None? {
      return false;
    }
    var out := output.value;
    if check == PsAll {
      var lowered := GoStrings.ToLower(out);
      var i := 0;
      while i < |names|
        invariant 0 <= i <= |names|
        invariant forall k :: 0 <= k < i ==> Listed(lowered, names[k])
      {
        if !GoStrings.Contains(lowered, GoStrings.ToLower(names[i])) {
          return false;
        }
        i := i + 1;
      }
    } else if check == PsAny {
      var lowered := GoStrings.ToLower(out);
      var found := 0;
      var i := 0;
      while i < |names|
        invariant 0 <= i <= |names|
        invariant found == HitCount(lowered, names, i)
      {
        if GoStrings.Contains(lowered, GoStrings.ToLower(names[i])) {
          found := found + 1;
        }
        i := i + 1;
      }
      if found > 1 {
        return true;
      } else {
        res := false;
      }
    } else {
      return false;
    }
    return res;
  }

  /** The two tools whose processes mark the build runner as active. */
  const RunnerTools := ["git.exe", "msbuild.exe"]

  /** `isRunnerActive`: an any-mode check for git.exe and msbuild.exe. */
  method IsRunnerActive(output: Option<string>) returns (active: bool)
    ensures active == ProcessActive(PsAny, RunnerTools, output)
  {
    active := IsProcessActive(PsAny, RunnerTools, output);
  }

  /**
   * The runner counts as active only when both git.exe and msbuild.exe
   * appear in the output, ignoring case: one of them alone is not enough.
   */
  lemma RunnerNeedsBothTools(output: Option<string>)
    ensures ProcessActive(PsAny, RunnerTools, output) <==>
      output.Some? &&
      GoStrings.Contains(GoStrings.ToLower(output.value), "git.exe") &&
      GoStrings.Contains(GoStrings.ToLower(output.value), "msbuild.exe")
  {
    if output.Some? {
      var lowered := GoStrings.ToLower(output.value);
      assert GoStrings.ToLower("git.exe") == "git.exe";
      assert GoStrings.ToLower("msbuild.exe") == "msbuild.exe";
      TwoHits(lowered, RunnerTools);
    }
  }

  /** The count over two names, spelled out. */
  lemma TwoHits(lowered: string, names: seq<string>)
    requires |names| == 2
    ensures HitCount(lowered, names, 2) > 1 <==> Listed(lowered, names[0]) && Listed(lowered, names[1])
  {
    assert HitCount(lowered, names, 1) == (if Listed(lowered, names[0]) then 1 else 0);
  }

  /** Counting entries that are lower-case equal gives equal counts. */
  lemma {:induction false} HitCountIgnoresCase(lowered: string, names: seq<string>, others: seq<string>, n: nat)
    requires n <= |names| == |others|
    requires forall k :: 0 <= k < |names| ==> GoStrings.ToLower(names[k]) == GoStrings.ToLower(others[k])
    ensures HitCount(lowered, names, n) == HitCount(lowered, others, n)
  {
    if n > 0 {
      HitCountIgnoresCase(lowered, names, others, n - 1);
    }
  }

  /**
   * The check ignores case on both sides: outputs that agree once
   * lower-cased, and names that agree entry by entry once lower-cased,
   * give the same answer.
   */
  lemma CaseInsensitive(check: int, names: seq<string>, others: seq<string>, out: string, out': string)
    requires |names| == |others|
    requires forall k :: 0 <= k < |names| ==> GoStrings.ToLower(names[k]) == GoStrings.ToLower(others[k])
    requires GoStrings.ToLower(out) == GoStrings.ToLower(out')
    ensures ProcessActive(check, names, Some(out)) == ProcessActive(check, others, Some(out'))
  {
    HitCountIgnoresCase(GoStrings.ToLower(out), names, others, |names|);
  }

  /** The count reaches the number of entries exactly when every entry is listed. */
  lemma {:induction false} HitCountFull(lowered: string, names: seq<string>, n: nat)
    requires n <= |names|
    ensures HitCount(lowered, names, n) == n <==> forall k :: 0 <= k < n ==> Listed(lowered, names[k])
  {
    if n > 0 {
      HitCountFull(lowered, names, n - 1);
    }
  }

  /** With two or more names, all-mode success implies any-mode success. */
  lemma AllImpliesAny(names: seq<string>, output: Option<string>)
    requires |names| >= 2 && ProcessActive(PsAll, names, output)
    ensures ProcessActive(PsAny, names, output)
  {
    HitCountFull(GoStrings.ToLower(output.value), names, |names|);
  }

  /** In any-mode a single name never suffices, however it appears in the output. */
  lemma AnyModeNeedsTwoHits(name: string, output: Option<string>)
    ensures !ProcessActive(PsAny, [name], output)
  {
  }

  /** In any-mode a name listed twice counts twice: it alone makes the check succeed when it is running. */
  lemma AnyModeCountsDuplicates(name: string, out: string)
    ensures ProcessActive(PsAny, [name, name], Some(out)) <==> Listed(GoStrings.ToLower(out), name)
  {
    TwoHits(GoStrings.ToLower(out), [name, name]);
  }

  /** An empty list of names, a failed `tasklist`, or an unknown check mode all answer false. */
  lemma FalseByDefault(check: int, names: seq<string>, output: Option<string>)
    requires |names| == 0 || output.None? || (check != PsAll && check != PsAny)
    ensures !ProcessActive(check, names, output)
  {
  }
}
