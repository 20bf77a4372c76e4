/** The two string transforms of the plotting tool in app.py:
    `extract_python_code`, which takes the first fenced block matched by the
    regular expression ```` ```python\s(.*?)``` ```` (with DOTALL) and strips
    it, and the rewrite of the extracted code that deletes every `fig.show()`
    and appends the Streamlit display line. */
module PlotCode {
  import opened Wrappers
  import opened Text

  /** The opening fence, without the whitespace character the pattern
      demands right after it. */
  const PythonFence: string := "```python"
  const Fence: string := "```"

  /** The call the rewrite deletes and the line it appends. */
  const FigShow: string := "fig.show()"
  const PlotlyChartLine: string := "\nst.plotly_chart(fig, theme='streamlit', use_container_width=True)"

  /** ```` ```python ```` followed by one whitespace character starts at `i`;
      the captured group would start at `i + 10`. */
  predicate OpensAt(t: string, i: int)
  {
    OccursAt(t, PythonFence, i) && i + 10 <= |t| && IsSpace(t[i + 9])
  }

  predicate FenceAt(t: string, j: int)
  {
    OccursAt(t, Fence, j)
  }

  /** The first closing fence at or after `from`: where the non-greedy
      `(.*?)` stops. */
  function FirstFence(t: string, from: nat): (r: Option<nat>)
    ensures r.Some? ==> from <= r.value && FenceAt(t, r.value)
                        && forall k :: from <= k < r.value ==> !FenceAt(t, k)
    ensures r.None? ==> forall k :: from <= k ==> !FenceAt(t, k)
    decreases |t| - from
  {
    if from + 3 > |t| then None
    else if FenceAt(t, from) then Some(from)
    else FirstFence(t, from + 1)
  }

  /** The regular expression matches at `i`: an opening fence, one whitespace
      character, and a closing fence somewhere after them. */
  predicate MatchAt(t: string, i: int)
  {
    OpensAt(t, i) && FirstFence(t, i + 10).Some?
  }

  /** The text the group `(.*?)` captures for a match at `i`. */
  function Body(t: string, i: int): string
    requires MatchAt(t, i)
  {
    t[i + 10..FirstFence(t, i + 10).value]
  }

  /** The leftmost match at or after `from`; `re.findall` lists matches from
      left to right, so `matches[0]` is this one. */
  function FirstMatch(t: string, from: nat): (r: Option<nat>)
    ensures r.Some? ==> from <= r.value && MatchAt(t, r.value)
                        && forall k :: from <= k < r.value ==> !MatchAt(t, k)
    ensures r.None? ==> forall k :: from <= k ==> !MatchAt(t, k)
    decreases |t| - from
  {
    if from + 10 > |t| then None
    else if MatchAt(t, from) then Some(from)
    else FirstMatch(t, from + 1)
  }

  /** `extract_python_code(text)`: `None` exactly when the pattern matches
      nowhere; otherwise a stripped text that holds no fence. */
  function ExtractPythonCode(text: string): (r: Option<string>)
    ensures r.None? <==> forall i :: 0 <= i ==> !MatchAt(text, i)
    ensures r.Some? ==> r.value == [] || (!IsSpace(r.value[0]) && !IsSpace(r.value[|r.value| - 1]))
    ensures r.Some? ==> !Contains(r.value, Fence)
  {
    match FirstMatch(text, 0)
    case None => None
    case Some(i) =>
      BodyHasNoFence(text, i);
      StripKeepsNoFence(Body(text, i));
      Some(Strip(Body(text, i)))
  }

  /** The match is non-greedy: the captured body never holds a fence. */
  lemma BodyHasNoFence(t: string, i: int)
    requires MatchAt(t, i)
    ensures !Contains(Body(t, i), Fence)
  {
    var e := FirstFence(t, i + 10).value;
    if Contains(Body(t, i), Fence) {
      var p :| 0 <= p <= |Body(t, i)| - 3 && OccursAt(t[i + 10..e], Fence, p);
      OccursInSlice(t, Fence, i + 10, e, p);
      assert FenceAt(t, i + 10 + p);
    }
  }

  /** Stripping cuts a slice out, so it cannot create a fence. */
  lemma StripKeepsNoFence(b: string)
    requires !Contains(b, Fence)
    ensures !Contains(Strip(b), Fence)
  {
    var r := Strip(b);
    var i :| SliceWithin(r, b, i);
    if Contains(r, Fence) {
      ContainsInSlice(b, Fence, i, i + |r|);
    }
  }

  /** Only the first block counts: whatever follows the leftmost match,
      the result is that match's stripped body. */
  lemma ExtractTakesFirstBlock(text: string, i: nat)
    requires MatchAt(text, i)
    requires forall k :: 0 <= k < i ==> !MatchAt(text, k)
    ensures ExtractPythonCode(text) == Some(Strip(Body(text, i)))
  {
    assert FirstMatch(text, 0) == Some(i);
  }

  /** `"```pythonx"` opens no block: the pattern needs whitespace after
      `python`. */
  lemma NoBlockWithoutWhitespace()
    ensures ExtractPythonCode(PythonFence + "x" + Fence) == None
  {
    var t := PythonFence + "x" + Fence;
    forall i | 0 <= i
      ensures !MatchAt(t, i)
    {
      if i == 0 {
        assert t[9] == 'x';
      } else if i == 1 {
        NotOccursAt(t, PythonFence, 1, 2);
      } else if i == 2 {
        NotOccursAt(t, PythonFence, 2, 1);
      } else if i == 3 {
        NotOccursAt(t, PythonFence, 3, 0);
      }
    }
  }

  /** The closing fence is the first one at or after `from`. */
  lemma {:induction false} FirstFenceIs(t: string, from: nat, e: nat)
    requires from <= e && FenceAt(t, e)
    requires forall k :: from <= k < e ==> !FenceAt(t, k)
    ensures FirstFence(t, from) == Some(e)
    decreases e - from
  {
    if from < e {
      FirstFenceIs(t, from + 1, e);
    }
  }

  /** With DOTALL the body may run over several lines; it is stripped. */
  lemma BodySpansLines()
    ensures ExtractPythonCode(PythonFence + "\nx\ny\n" + Fence) == Some("x\ny")
  {
    var t := PythonFence + "\nx\ny\n" + Fence;
    MultiLineBody(t);
    StripMultiLine("x\ny\n");
    ExtractTakesFirstBlock(t, 0);
  }

  lemma MultiLineBody(t: string)
    requires t == PythonFence + "\nx\ny\n" + Fence
    ensures MatchAt(t, 0) && Body(t, 0) == "x\ny\n"
  {
    assert t[..9] == PythonFence && t[9] == '\n';
    assert t[10] == 'x' && t[11] == '\n' && t[12] == 'y' && t[13] == '\n';
    assert t[14..] == Fence;
    forall k | 10 <= k < 14
      ensures !FenceAt(t, k)
    {
      NotOccursAt(t, Fence, k, 0);
    }
    FirstFenceIs(t, 10, 14);
  }

  lemma StripMultiLine(b: string)
    requires b == "x\ny\n"
    ensures Strip(b) == "x\ny"
  {
    assert SkipSpace(b, 0) == 0;
    assert SkipSpaceBack(b, 0, |b|) == 3;
    assert b[0..3] == "x\ny";
  }

  /** Python's `s.replace(pat, "")`: scanning left to right, every
      non-overlapping occurrence of `pat` is deleted; what remains is the
      input with characters deleted and nothing added. */
  function DeleteAll(s: string, pat: string): (r: string)
    requires |pat| > 0
    ensures IsSubsequence(r, s)
    decreases |s|
  {
    if |s| < |pat| then
      SubsequenceRefl(s);
      s
    else if s[..|pat|] == pat then
      var rest := DeleteAll(s[|pat|..], pat);
      SubsequenceUnderPrefix(rest, s[|pat|..], s[..|pat|]);
      assert s[..|pat|] + s[|pat|..] == s;
      rest
    else
      var rest := DeleteAll(s[1..], pat);
      assert IsSubsequence([s[0]] + rest, s) by {
        assert ([s[0]] + rest)[1..] == rest;
      }
      [s[0]] + rest
  }

  /** Text without an occurrence of `pat` comes back unchanged. */
  lemma {:induction false} DeleteAllAbsent(s: string, pat: string)
    requires |pat| > 0 && !Contains(s, pat)
    ensures DeleteAll(s, pat) == s
    decreases |s|
  {
    if |s| >= |pat| {
      assert !OccursAt(s, pat, 0);
      if Contains(s[1..|s|], pat) {
        ContainsInSlice(s, pat, 1, |s|);
      }
      assert s[1..|s|] == s[1..];
      DeleteAllAbsent(s[1..], pat);
    }
  }

  /** An occurrence at the front is deleted and scanning resumes right
      after it. */
  lemma DeleteAllLeading(pat: string, s: string)
    requires |pat| > 0
    ensures DeleteAll(pat + s, pat) == DeleteAll(s, pat)
  {
    assert (pat + s)[..|pat|] == pat;
    assert (pat + s)[|pat|..] == s;
  }

  /** Characters at which no occurrence starts are kept, in order. */
  lemma {:induction false} DeleteAllKeepsPrefix(a: string, b: string, pat: string)
    requires |pat| > 0
    requires forall k :: 0 <= k < |a| ==> !OccursAt(a + b, pat, k)
    ensures DeleteAll(a + b, pat) == a + DeleteAll(b, pat)
    decreases |a|
  {
    if a == [] {
      assert a + b == b;
    } else {
      NoOccurrenceInTail(a, b, pat);
      DeleteAllKeepsPrefix(a[1..], b, pat);
      DeleteAllKeep(a + b, pat);
      assert (a + b)[1..] == a[1..] + b;
      assert [a[0]] + a[1..] == a;
      ConcatAssoc([a[0]], a[1..], DeleteAll(b, pat));
    }
  }

  lemma NoOccurrenceInTail(a: string, b: string, pat: string)
    requires a != []
    requires forall k :: 0 <= k < |a| ==> !OccursAt(a + b, pat, k)
    ensures forall k :: 0 <= k < |a| - 1 ==> !OccursAt(a[1..] + b, pat, k)
  {
    var s := a + b;
    assert s[1..|s|] == a[1..] + b;
    forall k | 0 <= k < |a| - 1
      ensures !OccursAt(a[1..] + b, pat, k)
    {
      if OccursAt(s[1..|s|], pat, k) {
        OccursInSlice(s, pat, 1, |s|, k);
      }
    }
  }

  /** A character at which no occurrence starts is kept. */
  lemma DeleteAllKeep(s: string, pat: string)
    requires |pat| > 0 && |s| > 0 && !OccursAt(s, pat, 0)
    ensures DeleteAll(s, pat) == [s[0]] + DeleteAll(s[1..], pat)
  {
    if |s| < |pat| {
      DeleteAllShort(s[1..], pat);
    }
  }

  lemma DeleteAllShort(s: string, pat: string)
    requires 0 < |pat| && |s| < |pat|
    ensures DeleteAll(s, pat) == s
  {
  }

  /** The rewrite at app.py:92-93: the result always ends with the
      `st.plotly_chart` line, what precedes it is the code with characters
      deleted only, and code without `fig.show()` is kept whole. */
  function RewritePlotCode(code: string): (r: string)
    ensures EndsWith(r, PlotlyChartLine)
    ensures IsSubsequence(r[..|r| - |PlotlyChartLine|], code)
    ensures !Contains(code, FigShow) ==> r == code + PlotlyChartLine
  {
    var kept := DeleteAll(code, FigShow);
    assert !Contains(code, FigShow) ==> kept == code by {
      if !Contains(code, FigShow) {
        DeleteAllAbsent(code, FigShow);
      }
    }
    assert (kept + PlotlyChartLine)[..|kept|] == kept;
    kept + PlotlyChartLine
  }

  /** A `fig.show()` on its own line is removed and the line break before
      it stays. */
  lemma RewriteDropsShowCall()
    ensures RewritePlotCode("fig = px.line(df)\n" + FigShow)
            == "fig = px.line(df)\n" + PlotlyChartLine
  {
    var a := "fig = px.line(df)\n";
    var s := a + FigShow;
    forall k | 0 <= k < |a|
      ensures !OccursAt(s, FigShow, k)
    {
      if k == 0 {
        NotOccursAt(s, FigShow, 0, 3);
      } else if k == 15 {
        NotOccursAt(s, FigShow, 15, 1);
      } else {
        assert s[k] != 'f';
        NotOccursAt(s, FigShow, k, 0);
      }
    }
    DeleteAllKeepsPrefix(a, FigShow, FigShow);
    DeleteAllLeading(FigShow, "");
    assert FigShow + "" == FigShow;
  }

  /** One pass of deletion can leave a `fig.show()` behind when deleting an
      inner occurrence joins the two halves of another one. */
  lemma DeletionCanReassemble()
    ensures DeleteAll("fig.s" + FigShow + "how()", FigShow) == FigShow
  {
    var s := "fig.s" + FigShow + "how()";
    assert s == "fig.s" + (FigShow + "how()");
    forall k | 0 <= k < 5
      ensures !OccursAt(s, FigShow, k)
    {
      if k == 0 {
        NotOccursAt(s, FigShow, 0, 5);
      } else {
        NotOccursAt(s, FigShow, k, 0);
      }
    }
    DeleteAllKeepsPrefix("fig.s", FigShow + "how()", FigShow);
    DeleteAllLeading(FigShow, "how()");
    DeleteAllShort("how()", FigShow);
  }

  /** The code `generate_plot_tool` hands to `exec`: the rewritten first
      block, or `None` when the reply holds no block, in which case the tool
      answers with its fixed message instead. */
  function PlotToolCode(reply: string): (r: Option<string>)
    ensures r.None? <==> ExtractPythonCode(reply).None?
    ensures r.Some? ==> EndsWith(r.value, PlotlyChartLine)
  {
    match ExtractPythonCode(reply)
    case None => None
    case Some(code) => Some(RewritePlotCode(code))
  }
}
