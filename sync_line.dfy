/**
 * The `sync = ...` line tokenizer of the agent's scheduling pass
 * (`handleMainExecute` in service.go). A configuration line is trimmed and
 * split on single spaces; if its first two pieces are `sync` and `=`, the
 * pieces are re-assembled into an argument list in which every quoted run of
 * pieces becomes one argument (quote characters kept), and the list minus its
 * first two elements is what the pass hands to the process launcher.
 *
 * Each step is first stated as a function (the specification) and then
 * carried out by a method with the loop the agent runs; the methods are
 * proved equal to the functions, and the lemmas at the end state what the
 * functions mean.
 */
module SyncLine {
  import opened GoStrings
  import opened Wrappers

  /** The run-time panics a single line can raise inside the pass. */
  datatype PanicReason =
    | EmptyLineIndex        // s[0] on a non-empty line made of white space only
    | MissingOperand        // items[1] on the one-piece line `sync`
    | UnclosedQuote         // end[i] when there are fewer closing pieces than opening ones
    | ClosingBeforeOpening  // items[start[i]:end[i]+1] with start[i] > end[i] + 1

  /** What the pass does with one line. */
  datatype LineAction =
    | Ignored
    | Launch(args: seq<string>)
    | Panic(reason: PanicReason)

  /** A piece that starts with a double quote. */
  predicate Opens(e: string) { |e| > 0 && e[0] == '\"' }

  /** A piece that ends with a double quote. */
  predicate Closes(e: string) { |e| > 0 && e[|e| - 1] == '\"' }

  /** A piece that takes no part in quoting. */
  predicate Plain(e: string) { !Opens(e) && !Closes(e) }

  predicate IsMark(e: string, closing: bool) { if closing then Closes(e) else Opens(e) }

  /** Indices, in ascending order, of the pieces that open (or, with `closing`, close) a quoted run. */
  function Marks(items: seq<string>, closing: bool): (r: seq<nat>)
    ensures forall t :: 0 <= t < |r| ==> r[t] < |items| && IsMark(items[r[t]], closing)
    ensures forall t, u :: 0 <= t < u < |r| ==> r[t] < r[u]
    ensures forall i :: 0 <= i < |items| && IsMark(items[i], closing) ==> i in r
  {
    if items == [] then []
    else
      var n := |items| - 1;
      Marks(items[..n], closing) + (if IsMark(items[n], closing) then [n] else [])
  }

  /** Both quote characters of a run appear in order: every opening index has a closing partner not left of it. */
  predicate RunsPaired(start: seq<nat>, end: seq<nat>)
  {
    |start| <= |end| && forall i :: 0 <= i < |start| ==> start[i] <= end[i] + 1
  }

  /**
   * The joined quoted runs: the i-th opening piece is paired with the i-th
   * closing piece and the pieces between them, both included, are joined with
   * single spaces. Fails with the panic of the first index that has no usable
   * partner.
   */
  function JoinRuns(items: seq<string>, start: seq<nat>, end: seq<nat>): (r: Result<seq<string>, PanicReason>)
    requires forall t :: 0 <= t < |start| ==> start[t] < |items|
    requires forall t :: 0 <= t < |end| ==> end[t] < |items|
    ensures r.Ok? <==> RunsPaired(start, end)
    ensures r.Ok? ==> |r.value| == |start|
    ensures r.Ok? ==> forall i :: 0 <= i < |start| ==> r.value[i] == Join(items[start[i]..end[i] + 1], " ")
  {
    if start == [] then Ok([])
    else
      var i := |start| - 1;
      match JoinRuns(items, start[..i], end)
      case Err(p) => Err(p)
      case Ok(runs) =>
        if i >= |end| then Err(UnclosedQuote)
        else if start[i] > end[i] + 1 then Err(ClosingBeforeOpening)
        else Ok(runs + [Join(items[start[i]..end[i] + 1], " ")])
  }

  /** Number of pieces that open a quoted run. */
  function CountOpen(items: seq<string>): nat
  {
    if items == [] then 0
    else CountOpen(items[..|items| - 1]) + (if Opens(items[|items| - 1]) then 1 else 0)
  }

  /** The state of the argument re-assembly loop: the arguments so far, the `skip` flag and the run counter `j`. */
  datatype Rebuild = Rebuild(out: seq<string>, skip: bool, j: nat)

  /** One iteration of the re-assembly loop over piece `e`. */
  function RebuildStep(runs: seq<string>, st: Rebuild, e: string): Rebuild
    requires Opens(e) ==> st.j < |runs|
  {
    if |e| == 0 then st
    else if e[0] == '\"' then Rebuild(st.out + [runs[st.j]], true, st.j + 1)
    else if e[|e| - 1] == '\"' then st.(skip := false)
    else if !st.skip then st.(out := st.out + [e])
    else st
  }

  /** The re-assembly loop over all of `items`, from state `st`. */
  function Reassemble(runs: seq<string>, st: Rebuild, items: seq<string>): (r: Rebuild)
    requires st.j + CountOpen(items) <= |runs|
    ensures r.j == st.j + CountOpen(items)
    ensures |st.out| <= |r.out| && r.out[..|st.out|] == st.out
  {
    if items == [] then st
    else
      var n := |items| - 1;
      RebuildStep(runs, Reassemble(runs, st, items[..n]), items[n])
  }

  /** The state the re-assembly loop starts from. */
  const Start := Rebuild([], false, 0)

  /** A line of the form `sync = ...`, before any quote is looked at. */
  predicate IsSyncLine(line: string)
  {
    var s := TrimSpace(line);
    |line| > 0 && |s| > 0 && s[0] != '#' &&
    var items := Split(s, ' ');
    |items| >= 2 && TrimSpace(items[0]) == "sync" && TrimSpace(items[1]) == "="
  }

  /** What the pass does with one configuration line. */
  function Classify(line: string): LineAction
  {
    var s := TrimSpace(line);
    if |line| == 0 then Ignored
    else if |s| == 0 then Panic(EmptyLineIndex)
    else if s[0] == '#' then Ignored
    else ClassifyPieces(Split(s, ' '))
  }

  /** What the pass does with the space-separated pieces of a trimmed, non-comment line. */
  function ClassifyPieces(items: seq<string>): LineAction
    requires |items| >= 1
  {
    if TrimSpace(items[0]) != "sync" then Ignored
    else if |items| < 2 then Panic(MissingOperand)
    else if TrimSpace(items[1]) != "=" then Ignored
    else
      match JoinRuns(items, Marks(items, false), Marks(items, true))
      case Err(p) => Panic(p)
      case Ok(runs) =>
        MarksCount(items);
        KeywordsLead(runs, items);
        Launch(Reassemble(runs, Start, items).out[2..])
  }

  // ---------------------------------------------------------------------
  // The loops of the source, proved against the functions above.
  // ---------------------------------------------------------------------

  /** Collects the indices of the opening and closing pieces, as the first loop over `items` does. */
  method CollectMarks(items: seq<string>) returns (start: seq<nat>, end: seq<nat>)
    ensures start == Marks(items, false) && end == Marks(items, true)
  {
    start, end := [], [];
    var i := 0;
    while i < |items|
      invariant 0 <= i <= |items|
      invariant start == Marks(items[..i], false) && end == Marks(items[..i], true)
    {
      var e := items[i];
      assert items[..i + 1][..i] == items[..i];
      if |e| > 0 {
        if e[0] == '\"' {
          start := start + [i];
        }
        if e[|e| - 1] == '\"' {
          end := end + [i];
        }
      }
      i := i + 1;
    }
    assert items[..i] == items;
  }

  /** Joins every quoted run, as the loop that fills `s2` does; a missing partner is the panic it raises. */
  method JoinQuotedRuns(items: seq<string>, start: seq<nat>, end: seq<nat>) returns (r: Result<seq<string>, PanicReason>)
    requires forall t :: 0 <= t < |start| ==> start[t] < |items|
    requires forall t :: 0 <= t < |end| ==> end[t] < |items|
    ensures r == JoinRuns(items, start, end)
  {
    var s2 := [];
    var i := 0;
    while i < |start|
      invariant 0 <= i <= |start|
      invariant JoinRuns(items, start[..i], end) == Ok(s2)
    {
      assert start[..i + 1][..i] == start[..i];
      if i >= |end| {
        JoinRunsErrorSticks(items, start, end, i + 1);
        return Err(UnclosedQuote);
      }
      if start[i] > end[i] + 1 {
        JoinRunsErrorSticks(items, start, end, i + 1);
        return Err(ClosingBeforeOpening);
      }
      s2 := s2 + [Join(items[start[i]..end[i] + 1], " ")];
      i := i + 1;
    }
    assert start[..i] == start;
    r := Ok(s2);
  }

  /** Rebuilds the argument list with the `skip` flag and the counter `j`, as the third loop does. */
  method RebuildArguments(items: seq<string>, runs: seq<string>) returns (items2: seq<string>)
    requires CountOpen(items) <= |runs|
    ensures items2 == Reassemble(runs, Start, items).out
  {
    items2 := [];
    var skip := false;
    var j := 0;
    var i := 0;
    while i < |items|
      invariant 0 <= i <= |items|
      invariant CountOpen(items[..i]) <= CountOpen(items)
      invariant Reassemble(runs, Start, items[..i]) == Rebuild(items2, skip, j)
    {
      var e := items[i];
      assert items[..i + 1][..i] == items[..i];
      assert items[..|items|] == items;
      CountOpenMonotone(items, i + 1, |items|);
      if |e| > 0 {
        if e[0] == '\"' {
          items2 := items2 + [runs[j]];
          j := j + 1;
          skip := true;
        } else {
          if e[|e| - 1] == '\"' {
            skip := false;
          } else {
            if !skip {
              items2 := items2 + [e];
            }
          }
        }
      }
      i := i + 1;
    }
    assert items[..i] == items;
  }

  /** Handles one configuration line as the body of the pass's line loop does. */
  method ProcessLine(line: string) returns (a: LineAction)
    ensures a == Classify(line)
  {
    var s := TrimSpace(line);
    if |line| > 0 {
      if |s| == 0 {
        return Panic(EmptyLineIndex);
      }
      if s[0] != '#' {
        var items := Split(s, ' ');
        if TrimSpace(items[0]) == "sync" {
          if |items| < 2 {
            return Panic(MissingOperand);
          }
          if TrimSpace(items[1]) == "=" {
            var start, end := CollectMarks(items);
            var joined := JoinQuotedRuns(items, start, end);
            if joined.Err? {
              return Panic(joined.error);
            }
            var s2 := joined.value;
            MarksCount(items);
            var items2 := RebuildArguments(items, s2);
            KeywordsLead(s2, items);
            items2 := items2[2..];
            return Launch(items2);
          }
        }
      }
    }
    return Ignored;
  }

  // ---------------------------------------------------------------------
  // Lemmas.
  // ---------------------------------------------------------------------

  /** Once a prefix of the opening indices fails to pair, the whole join fails with the same panic. */
  lemma {:induction false} JoinRunsErrorSticks(items: seq<string>, start: seq<nat>, end: seq<nat>, k: nat)
    requires forall t :: 0 <= t < |start| ==> start[t] < |items|
    requires forall t :: 0 <= t < |end| ==> end[t] < |items|
    requires k <= |start| && JoinRuns(items, start[..k], end).Err?
    ensures JoinRuns(items, start, end) == JoinRuns(items, start[..k], end)
    decreases |start| - k
  {
    if k < |start| {
      var n := |start| - 1;
      assert start[..n][..k] == start[..k];
      JoinRunsErrorSticks(items, start[..n], end, k);
    } else {
      assert start[..k] == start;
    }
  }

  /** The number of opening indices is the number of opening pieces. */
  lemma {:induction false} MarksCount(items: seq<string>)
    ensures |Marks(items, false)| == CountOpen(items)
  {
    if items != [] {
      MarksCount(items[..|items| - 1]);
    }
  }

  /** Opening pieces only accumulate along a longer prefix. */
  lemma {:induction false} CountOpenMonotone(items: seq<string>, i: nat, k: nat)
    requires i <= k <= |items|
    ensures CountOpen(items[..i]) <= CountOpen(items[..k])
    decreases k - i
  {
    if i < k {
      CountOpenMonotone(items, i, k - 1);
      assert items[..k][..k - 1] == items[..k - 1];
    }
  }

  /** Opening pieces of a concatenation add up. */
  lemma {:induction false} CountOpenAppend(a: seq<string>, b: seq<string>)
    ensures CountOpen(a + b) == CountOpen(a) + CountOpen(b)
  {
    if b == [] {
      assert a + b == a;
    } else {
      var n := |b| - 1;
      assert (a + b)[..|a + b| - 1] == a + b[..n];
      CountOpenAppend(a, b[..n]);
    }
  }

  /** Re-assembling a concatenation is re-assembling the second part from where the first left off. */
  lemma {:induction false} ReassembleAppend(runs: seq<string>, st: Rebuild, a: seq<string>, b: seq<string>)
    requires st.j + CountOpen(a + b) <= |runs|
    ensures CountOpen(a + b) == CountOpen(a) + CountOpen(b)
    ensures Reassemble(runs, st, a + b) == Reassemble(runs, Reassemble(runs, st, a), b)
  {
    CountOpenAppend(a, b);
    if b == [] {
      assert a + b == a;
    } else {
      var n := |b| - 1;
      assert (a + b)[..|a + b| - 1] == a + b[..n];
      assert (a + b)[|a + b| - 1] == b[n];
      ReassembleAppend(runs, st, a, b[..n]);
    }
  }

  /**
   * The two keyword pieces are always the first two arguments: they trim to
   * `sync` and `=`, so they neither start nor end with a quote. Dropping the
   * first two arguments therefore drops exactly them and can never fail.
   */
  lemma KeywordsLead(runs: seq<string>, items: seq<string>)
    requires |items| >= 2 && TrimSpace(items[0]) == "sync" && TrimSpace(items[1]) == "="
    requires CountOpen(items) <= |runs|
    ensures |Reassemble(runs, Start, items).out| >= 2
    ensures Reassemble(runs, Start, items).out[..2] == items[..2]
  {
    KeywordIsPlain(items[0], "sync");
    KeywordIsPlain(items[1], "=");
    var head := items[..2];
    assert head[..1][..0] == [];
    assert Reassemble(runs, Start, head[..1]) == Rebuild([items[0]], false, 0);
    assert Reassemble(runs, Start, head) == Rebuild([items[0], items[1]], false, 0);
    assert head + items[2..] == items;
    ReassembleAppend(runs, Start, head, items[2..]);
  }

  /** A piece that trims to a word without quotes at its ends is non-empty and takes no part in quoting. */
  lemma KeywordIsPlain(e: string, word: string)
    requires TrimSpace(e) == word && |word| > 0 && word[0] != '\"' && word[|word| - 1] != '\"'
    ensures |e| > 0 && Plain(e)
  {
    if |e| > 0 && e[0] == '\"' {
      TrimSpaceFirst(e);
    }
    if |e| > 0 && e[|e| - 1] == '\"' {
      TrimSpaceLast(e);
    }
  }

  /** The pieces of `items` that are not empty, in their order. */
  function NonEmpty(items: seq<string>): seq<string>
  {
    if items == [] then []
    else NonEmpty(items[..|items| - 1]) + (if items[|items| - 1] == "" then [] else [items[|items| - 1]])
  }

  /**
   * Outside quoted runs, the pieces pass through unchanged and in order, and
   * the empty pieces left by consecutive spaces are dropped.
   */
  lemma {:induction false} PlainPiecesPassThrough(runs: seq<string>, out: seq<string>, j: nat, items: seq<string>)
    requires forall k :: 0 <= k < |items| ==> Plain(items[k])
    requires j <= |runs|
    ensures CountOpen(items) == 0
    ensures Reassemble(runs, Rebuild(out, false, j), items) == Rebuild(out + NonEmpty(items), false, j)
  {
    if items != [] {
      var n := |items| - 1;
      PlainPiecesPassThrough(runs, out, j, items[..n]);
    }
  }

  /**
   * While `skip` is set and no piece closes a run without also opening one,
   * no plain piece is emitted: only the next joined runs are, one per opening
   * piece, and `skip` stays set. This is what a piece that both opens and
   * closes a quote (`"C:\tool.exe"`) leaves behind.
   */
  lemma {:induction false} SkipSuppressesPlainPieces(runs: seq<string>, st: Rebuild, items: seq<string>)
    requires st.skip
    requires forall k :: 0 <= k < |items| && Closes(items[k]) ==> Opens(items[k])
    requires st.j + CountOpen(items) <= |runs|
    ensures Reassemble(runs, st, items) == Rebuild(st.out + runs[st.j..st.j + CountOpen(items)], true, st.j + CountOpen(items))
  {
    if items != [] {
      var n := |items| - 1;
      SkipSuppressesPlainPieces(runs, st, items[..n]);
      var c := CountOpen(items[..n]);
      if Opens(items[n]) {
        assert runs[st.j..st.j + c] + [runs[st.j + c]] == runs[st.j..st.j + c + 1];
      }
    } else {
      assert runs[st.j..st.j] == [];
    }
  }

  /** A piece that opens and closes a quote at once sets `skip`. */
  lemma SelfClosedPieceSetsSkip(runs: seq<string>, st: Rebuild, e: string)
    requires Opens(e) && Closes(e) && st.j < |runs|
    ensures RebuildStep(runs, st, e).skip
    ensures RebuildStep(runs, st, e).out == st.out + [runs[st.j]]
  {
  }

  /** With `skip` set, plain and empty pieces change nothing. */
  lemma {:induction false} SkipOverPlainPieces(runs: seq<string>, st: Rebuild, items: seq<string>)
    requires st.skip && st.j <= |runs|
    requires forall k :: 0 <= k < |items| ==> Plain(items[k])
    ensures CountOpen(items) == 0
    ensures Reassemble(runs, st, items) == st
  {
    if items != [] {
      SkipOverPlainPieces(runs, st, items[..|items| - 1]);
    }
  }

  /** Re-assembling a lone opening piece emits the next joined run and sets `skip`. */
  lemma OneOpeningPiece(runs: seq<string>, st: Rebuild, o: string)
    requires Opens(o) && st.j < |runs|
    ensures CountOpen([o]) == 1
    ensures Reassemble(runs, st, [o]) == Rebuild(st.out + [runs[st.j]], true, st.j + 1)
  {
    assert [o][..0] == [];
  }

  /** Re-assembling a lone piece that only closes a run clears `skip` and emits nothing. */
  lemma ClosingPiece(runs: seq<string>, st: Rebuild, c: string)
    requires Closes(c) && !Opens(c) && st.j <= |runs|
    ensures CountOpen([c]) == 0
    ensures Reassemble(runs, st, [c]) == st.(skip := false)
  {
    assert [c][..0] == [];
  }

  /**
   * A run spread over several pieces (an opener, plain or empty pieces, a
   * closer) contributes exactly one argument, the joined run, and clears
   * `skip` again.
   */
  lemma QuotedRunCollapses(runs: seq<string>, st: Rebuild, o: string, mids: seq<string>, c: string)
    requires Opens(o) && !Closes(o)
    requires forall k :: 0 <= k < |mids| ==> Plain(mids[k])
    requires Closes(c) && !Opens(c)
    requires st.j < |runs|
    ensures CountOpen([o] + mids + [c]) == 1
    ensures Reassemble(runs, st, [o] + mids + [c]) == Rebuild(st.out + [runs[st.j]], false, st.j + 1)
  {
    var st1 := Rebuild(st.out + [runs[st.j]], true, st.j + 1);
    OneOpeningPiece(runs, st, o);
    SkipOverPlainPieces(runs, st1, mids);
    CountOpenAppend([o], mids);
    ReassembleAppend(runs, st, [o], mids);
    ClosingPiece(runs, st1, c);
    CountOpenAppend([o] + mids, [c]);
    ReassembleAppend(runs, st, [o] + mids, [c]);
  }

  /** Every emitted argument is a joined run or a non-empty plain piece of the line. */
  lemma {:induction false} ArgumentsComeFromLine(runs: seq<string>, st: Rebuild, items: seq<string>, line: seq<string>)
    requires st.j + CountOpen(items) <= |runs|
    requires forall x :: x in items ==> x in line
    requires forall x :: x in st.out ==> x in runs || (x in line && x != "" && Plain(x))
    ensures forall x :: x in Reassemble(runs, st, items).out ==> x in runs || (x in line && x != "" && Plain(x))
  {
    if items != [] {
      var n := |items| - 1;
      assert forall x :: x in items[..n] ==> x in items;
      ArgumentsComeFromLine(runs, st, items[..n], line);
    }
  }

  /** Only `sync = ...` lines are launched; blank, comment and other lines never are. */
  lemma LaunchOnlySyncLines(line: string)
    ensures Classify(line).Launch? <==>
      IsSyncLine(line) && RunsPaired(Marks(Split(TrimSpace(line), ' '), false), Marks(Split(TrimSpace(line), ' '), true))
  {
  }

  /** A line whose first non-space character is `#` is ignored. */
  lemma CommentLinesIgnored(line: string)
    requires TrimSpace(line) != [] && TrimSpace(line)[0] == '#'
    ensures Classify(line) == Ignored
  {
  }
}
