/** Task-queue fragments of the v1 generator (sourceWriter/v1/tasks.ts). */
module V1Tasks {
  import opened Wrappers
  import opened Strings
  import opened SourceWriterCommon

  /** `functions.tasks.TaskQueueOptions`, a flat object like the runtime options. */
  type TaskQueueOptions = JsObject

  datatype TaskQueueFragment = TaskQueueFragment(opts: Option<RuntimeOptions>, tqOpts: Option<TaskQueueOptions>)

  const QueueHead: string := ".tasks.taskQueue("

  const DispatchSuffix: string := ".onDispatch(() => {});"

  /** `onDispatch(opts, tqOpts)`: the runtime options, given first, decide the runWith
      segment; the queue options, given second, fill the queue segment before the dispatch
      handler. */
  function OnDispatch(opts: Option<RuntimeOptions>, tqOpts: Option<TaskQueueOptions>): (f: TaskQueueFragment)
    ensures f.opts == opts && f.tqOpts == tqOpts
    ensures var s := AsString(f);
      && s[..9] == "functions"
      && (StartsWithRunWith(s[9..]) <==> opts.Some?)
      && EndsWith(s, TaskQueueSegment(tqOpts) + DispatchSuffix)
  {
    var f := TaskQueueFragment(opts, tqOpts);
    AsStringShape(f);
    EndsWithRest("functions" + MaybeRunWith(opts), "", TaskQueueSegment(tqOpts) + DispatchSuffix);
    assert "" + TriggerSegment(tqOpts) == TriggerSegment(tqOpts);
    f
  }

  /** `.tasks.taskQueue(...)`: empty parentheses without queue options, otherwise the queue
      options as plain `JSON.stringify` writes them. */
  function TaskQueueSegment(tqOpts: Option<TaskQueueOptions>): string
  {
    QueueHead + (if tqOpts.Some? then Stringify(tqOpts.value) else "") + ")"
  }

  /** The queue segment is exactly `.tasks.taskQueue()` without queue options; with them, the
      serialised options sit between the parentheses. */
  lemma TaskQueueSegmentShape(tqOpts: Option<TaskQueueOptions>)
    ensures var s := TaskQueueSegment(tqOpts);
      && |s| >= 18 && s[..17] == QueueHead && s[|s| - 1] == ')'
      && (tqOpts.None? <==> |s| == 18)
      && (tqOpts.Some? ==> s[17..|s| - 1] == Stringify(tqOpts.value))
  {
    var s := TaskQueueSegment(tqOpts);
    assert s[..17] == QueueHead;
    if tqOpts.Some? {
      assert s[17..|s| - 1] == Stringify(tqOpts.value);
    }
  }

  /** The queue segment followed by the dispatch handler. */
  function TriggerSegment(tqOpts: Option<TaskQueueOptions>): string
  {
    TaskQueueSegment(tqOpts) + DispatchSuffix
  }

  /** `asString()`. */
  function AsString(f: TaskQueueFragment): string
  {
    "functions" + MaybeRunWith(f.opts) + TriggerSegment(f.tqOpts)
  }

  /** The text is `functions`, then a runWith segment exactly when the fragment has runtime
      options, then the queue segment and the dispatch handler. */
  lemma AsStringShape(f: TaskQueueFragment)
    ensures var s := AsString(f);
      && |s| == 9 + |MaybeRunWith(f.opts)| + |TriggerSegment(f.tqOpts)|
      && s[..9] == "functions"
      && (StartsWithRunWith(s[9..]) <==> f.opts.Some?)
      && s[9 + |MaybeRunWith(f.opts)|..] == TaskQueueSegment(f.tqOpts) + DispatchSuffix
  {
    var t := TriggerSegment(f.tqOpts);
    assert t[1] == QueueHead[1];
    ComposedShape(f.opts, t);
  }

  /** Unlike the runWith segment, the queue options drop a key whose value is undefined,
      wherever it sits. */
  lemma QueueOptionsDropUndefined(before: TaskQueueOptions, key: string, after: TaskQueueOptions)
    ensures TaskQueueSegment(Some(before + [Property(key, Undefined)] + after)) == TaskQueueSegment(Some(before + after))
  {
    StringifyDropsUndefined(before, key, after);
  }
}
