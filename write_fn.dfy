/** The older string-returning generators (sourceWriter/writeFn.ts). They interpolate option
    objects into template literals directly, so an object is written as `[object Object]`.
    The source closes the runWith segment with `}` rather than `)`: `MaybeRunWith` and the
    generators keep that as written, and `MaybeRunWithClosed` is the corrected segment. */
module WriteFn {
  import opened Wrappers
  import opened Strings
  import SourceWriterCommon
  import V1Https
  import V1Tasks
  import SourceWriterIndex

  type RuntimeOptions = SourceWriterCommon.RuntimeOptions
  type TaskQueueOptions = V1Tasks.TaskQueueOptions

  /** What a template literal writes for a plain object. */
  const ObjectText: string := "[object Object]"

  /** `.runWith` without its opening parenthesis. */
  const RunWithHead: string := ".runWith"

  /** This file's own `maybeRunWith` as written: nothing without options; with options,
      `.runWith(`, the object as a template literal writes it, and a closing brace, so the
      call's parenthesis is never closed. */
  function MaybeRunWith(opts: Option<RuntimeOptions>): (s: string)
    ensures opts.None? <==> s == ""
    ensures opts.Some? ==>
      && |s| == 25
      && SourceWriterCommon.StartsWithRunWith(s)
      && s[9] == '['
      && s[9..24] == ObjectText
      && s[|s| - 1] == '}'
      && ')' !in s
  {
    if opts.Some? then
      var s := RunWithHead + "(" + ObjectText + "}";
      assert ')' !in RunWithHead && ')' !in ObjectText;
      assert s[..9] == ".runWith(";
      assert s[9..24] == ObjectText;
      s
    else ""
  }

  /** As written, the segment opens one parenthesis and closes none. */
  lemma RunWithUnclosed(opts: RuntimeOptions)
    ensures Count(MaybeRunWith(Some(opts)), '(') == 1
    ensures Count(MaybeRunWith(Some(opts)), ')') == 0
  {
    assert '(' !in RunWithHead && ')' !in RunWithHead && '(' !in ObjectText && ')' !in ObjectText;
    ParenCounts(RunWithHead, ObjectText, '}');
  }

  /** `maybeRunWith` with the call closed by `)`, as the other writers close it. */
  function MaybeRunWithClosed(opts: Option<RuntimeOptions>): (s: string)
    ensures opts.None? <==> s == ""
    ensures opts.Some? ==>
      && |s| == 25
      && SourceWriterCommon.StartsWithRunWith(s)
      && s[9] == '['
      && s[9..24] == ObjectText
      && s[|s| - 1] == ')'
  {
    if opts.Some? then
      var s := RunWithHead + "(" + ObjectText + ")";
      assert s[..9] == ".runWith(";
      assert s[9..24] == ObjectText;
      s
    else ""
  }

  /** The corrected segment closes the one parenthesis it opens. */
  lemma RunWithBalanced(opts: RuntimeOptions)
    ensures Count(MaybeRunWithClosed(Some(opts)), '(') == 1
    ensures Count(MaybeRunWithClosed(Some(opts)), ')') == 1
  {
    assert '(' !in RunWithHead && ')' !in RunWithHead && '(' !in ObjectText && ')' !in ObjectText;
    ParenCounts(RunWithHead, ObjectText, ')');
  }

  /** Parentheses in `head(body` followed by a one-character closing text, when neither
      `head` nor `body` holds one. */
  lemma ParenCounts(head: string, body: string, close: char)
    requires '(' !in head && ')' !in head && '(' !in body && ')' !in body && close != '('
    ensures Count(head + "(" + body + [close], '(') == 1
    ensures Count(head + "(" + body + [close], ')') == (if close == ')' then 1 else 0)
  {
    CountParts(head, "(", body, [close], '(');
    CountParts(head, "(", body, [close], ')');
    CountAbsent(head, '(');
    CountAbsent(head, ')');
    CountAbsent(body, '(');
    CountAbsent(body, ')');
    assert Count([close], ')') == (if close == ')' then 1 else 0) + Count([], ')');
  }

  /** `exprt(id)`: the export declaration; the name can be read back after its fixed head. */
  function Exprt(id: string): (s: string)
    ensures |s| == 13 + |id| && s[..13] == "export const " && s[13..] == id
  {
    var s := "export const " + id;
    assert s[..13] == "export const ";
    s
  }

  /** `httpsOnCall(id, opts)`. */
  function HttpsOnCall(id: string, opts: Option<RuntimeOptions>): (s: string)
    ensures |s| == 23 + |id| + |MaybeRunWith(opts)| + |V1Https.CallSuffix|
    ensures s[..13 + |id|] == Exprt(id)
    ensures s[13 + |id|..23 + |id|] == "=functions"
    ensures s[23 + |id|..|s| - |V1Https.CallSuffix|] == MaybeRunWith(opts)
    ensures SourceWriterCommon.StartsWithRunWith(s[23 + |id|..]) <==> opts.Some?
    ensures EndsWith(s, V1Https.CallSuffix)
  {
    var trigger := V1Https.CallSuffix;
    ExportShape(id, MaybeRunWith(opts), trigger);
    RunWithAsWrittenPresentIffOptions(opts, trigger);
    Exprt(id) + "=functions" + MaybeRunWith(opts) + trigger
  }

  /** Where the parts of a generated export line sit. */
  lemma ExportShape(id: string, runWith: string, trigger: string)
    ensures var s := Exprt(id) + "=functions" + runWith + trigger;
      && |s| == 23 + |id| + |runWith| + |trigger|
      && s[..13 + |id|] == Exprt(id)
      && s[13 + |id|..23 + |id|] == "=functions"
      && s[23 + |id|..] == runWith + trigger
      && s[23 + |id|..|s| - |trigger|] == runWith
      && EndsWith(s, trigger)
  {
    var s := Exprt(id) + "=functions" + runWith + trigger;
    assert s[..13 + |id|] == Exprt(id);
    assert s[13 + |id|..23 + |id|] == "=functions";
    assert s[23 + |id|..] == runWith + trigger;
    assert s[23 + |id|..|s| - |trigger|] == runWith;
    assert s[|s| - |trigger|..] == trigger;
  }

  /** Followed by a trigger segment, this file's runWith segment is present exactly when
      options are given. */
  lemma RunWithAsWrittenPresentIffOptions(opts: Option<RuntimeOptions>, rest: string)
    requires |rest| >= 2 && rest[1] != 'r'
    ensures SourceWriterCommon.StartsWithRunWith(MaybeRunWith(opts) + rest) <==> opts.Some?
  {
    var x := MaybeRunWith(opts);
    if opts.Some? {
      assert (x + rest)[..9] == x[..9];
    } else if |rest| >= 9 {
      assert (x + rest)[..9][1] == rest[1];
    }
  }

  /** The queue options as a template literal writes them: `[object Object]`, or nothing. */
  function QueueText(tqOpts: Option<TaskQueueOptions>): (s: string)
    ensures tqOpts.None? <==> s == ""
    ensures tqOpts.Some? ==> s == ObjectText
  {
    if tqOpts.Some? then ObjectText else ""
  }

  /** The queue segment and the dispatch handler that end a `tqOnDispatch` line. */
  function DispatchTrigger(tqOpts: Option<TaskQueueOptions>): string
  {
    V1Tasks.QueueHead + QueueText(tqOpts) + ")" + V1Tasks.DispatchSuffix
  }

  /** `tqOnDispatch(id, tqOpts, opts)`: the queue options come first here, the reverse of
      `onDispatch`; the runWith segment still follows the runtime options. */
  function TqOnDispatch(id: string, tqOpts: Option<TaskQueueOptions>, opts: Option<RuntimeOptions>): (s: string)
    ensures |s| == 23 + |id| + |MaybeRunWith(opts)| + |DispatchTrigger(tqOpts)|
    ensures s[..13 + |id|] == Exprt(id)
    ensures s[13 + |id|..23 + |id|] == "=functions"
    ensures s[23 + |id|..|s| - |DispatchTrigger(tqOpts)|] == MaybeRunWith(opts)
    ensures SourceWriterCommon.StartsWithRunWith(s[23 + |id|..]) <==> opts.Some?
    ensures EndsWith(s, DispatchTrigger(tqOpts))
  {
    var trigger := DispatchTrigger(tqOpts);
    ExportShape(id, MaybeRunWith(opts), trigger);
    assert trigger[1] == V1Tasks.QueueHead[1] == 't';
    RunWithAsWrittenPresentIffOptions(opts, trigger);
    Exprt(id) + "=functions" + MaybeRunWith(opts) + trigger
  }

  /** Without options, `httpsOnCall` writes the same line as the module writer does for an
      `onCall()` fragment. */
  lemma HttpsOnCallAgreesWithoutOptions(id: string)
    ensures HttpsOnCall(id, None)
         == SourceWriterIndex.ExportLine(SourceWriterIndex.FnEntry(id, SourceWriterIndex.Https(V1Https.OnCall(None))))
  {
  }

  /** With options the two writers part: where the module writer serialises the options
      (`{`), this one writes `[object Object]`. */
  lemma HttpsOnCallDiffersWithOptions(id: string, opts: RuntimeOptions)
    ensures var mine := HttpsOnCall(id, Some(opts));
      var theirs := SourceWriterIndex.ExportLine(SourceWriterIndex.FnEntry(id, SourceWriterIndex.Https(V1Https.OnCall(Some(opts)))));
      && |mine| > |id| + 32 && |theirs| > |id| + 32
      && mine[|id| + 32] == '[' && theirs[|id| + 32] == '{'
      && mine[|id| + 32..|id| + 47] == ObjectText
      && mine != theirs
  {
    MineWritesObjectText(id, opts);
    TheirsWritesObject(id, opts);
  }

  lemma MineWritesObjectText(id: string, opts: RuntimeOptions)
    ensures var mine := HttpsOnCall(id, Some(opts));
      |mine| >= |id| + 47 && mine[|id| + 32] == '[' && mine[|id| + 32..|id| + 47] == ObjectText
  {
    var mine := HttpsOnCall(id, Some(opts));
    var r := MaybeRunWith(Some(opts));
    var m := mine[23 + |id|..|mine| - |V1Https.CallSuffix|];
    assert m == r;
    assert mine[|id| + 32..|id| + 47] == m[9..24];
  }

  lemma TheirsWritesObject(id: string, opts: RuntimeOptions)
    ensures var theirs := SourceWriterIndex.ExportLine(SourceWriterIndex.FnEntry(id, SourceWriterIndex.Https(V1Https.OnCall(Some(opts)))));
      |theirs| > |id| + 32 && theirs[|id| + 32] == '{'
  {
    var trigger := V1Https.TriggerSegment(V1Https.Callable);
    var runWith := SourceWriterCommon.MaybeRunWith(Some(opts));
    SourceWriterCommon.MaybeRunWithShape(Some(opts));
    var v1 := V1Https.AsString(V1Https.OnCall(Some(opts)));
    MiddleChar("functions", runWith, trigger, 9);
    var head := "export const " + id + "=";
    MiddleChar(head, v1, "", 18);
    assert v1 + "" == v1;
  }

  lemma MiddleChar(a: string, b: string, c: string, i: nat)
    requires i < |b|
    ensures |a + b + c| > |a| + i && (a + b + c)[|a| + i] == b[i]
  {
  }

  /** Without any options, `tqOnDispatch` writes the same line as the module writer does for
      an `onDispatch()` fragment. */
  lemma TqOnDispatchAgreesWithoutOptions(id: string)
    ensures TqOnDispatch(id, None, None)
         == SourceWriterIndex.ExportLine(SourceWriterIndex.FnEntry(id, SourceWriterIndex.Tasks(V1Tasks.OnDispatch(None, None))))
  {
    assert QueueText(None) == "";
    assert V1Tasks.TaskQueueSegment(None) == V1Tasks.QueueHead + "" + ")";
  }
}
