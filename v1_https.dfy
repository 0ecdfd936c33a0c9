/** HTTPS fragments of the v1 generator (sourceWriter/v1/https.ts): a callable or a request
    handler, with optional runtime options. */
module V1Https {
  import opened Wrappers
  import opened Strings
  import opened SourceWriterCommon

  datatype HttpsTrigger = Callable | Request

  /** The fragment object: the options it was created with and which trigger it writes. */
  datatype HttpsFragment = HttpsFragment(trigger: HttpsTrigger, opts: Option<RuntimeOptions>)

  const CallSuffix: string := ".https.onCall(() => {});"

  const RequestSuffix: string := ".https.onRequest(() => {});"

  /** `onCall(opts)`: a fragment that keeps its options and whose text is a callable
      handler, with a runWith segment exactly when options are given. */
  function OnCall(opts: Option<RuntimeOptions>): (f: HttpsFragment)
    ensures f.opts == opts
    ensures var s := AsString(f);
      && s[..9] == "functions"
      && (StartsWithRunWith(s[9..]) <==> opts.Some?)
      && EndsWith(s, CallSuffix)
  {
    var f := HttpsFragment(Callable, opts);
    AsStringShape(f);
    f
  }

  /** `onRequest(opts)`: a fragment that keeps its options and whose text is a request
      handler, with a runWith segment exactly when options are given. */
  function OnRequest(opts: Option<RuntimeOptions>): (f: HttpsFragment)
    ensures f.opts == opts
    ensures var s := AsString(f);
      && s[..9] == "functions"
      && (StartsWithRunWith(s[9..]) <==> opts.Some?)
      && EndsWith(s, RequestSuffix)
  {
    var f := HttpsFragment(Request, opts);
    AsStringShape(f);
    f
  }

  function TriggerSegment(t: HttpsTrigger): string
  {
    match t
    case Callable => CallSuffix
    case Request => RequestSuffix
  }

  /** `asString()`: reads the fragment's options when it is called. */
  function AsString(f: HttpsFragment): string
  {
    "functions" + MaybeRunWith(f.opts) + TriggerSegment(f.trigger)
  }

  /** The text is `functions`, then a runWith segment exactly when the fragment has options,
      then the trigger. */
  lemma AsStringShape(f: HttpsFragment)
    ensures var s := AsString(f);
      && |s| == 9 + |MaybeRunWith(f.opts)| + |TriggerSegment(f.trigger)|
      && s[..9] == "functions"
      && (StartsWithRunWith(s[9..]) <==> f.opts.Some?)
      && s[9 + |MaybeRunWith(f.opts)|..] == TriggerSegment(f.trigger)
      && EndsWith(s, TriggerSegment(f.trigger))
  {
    ComposedShape(f.opts, TriggerSegment(f.trigger));
  }

  /** Without options the text holds no `.runWith(` anywhere. */
  lemma NoOptionsNoRunWith(f: HttpsFragment)
    requires f.opts.None?
    ensures Absent(AsString(f), ".runWith(")
  {
    var s := AsString(f);
    assert ".runWith("[4] == 'W';
    assert 'W' !in "functions";
    assert 'W' !in TriggerSegment(f.trigger);
    assert s == "functions" + TriggerSegment(f.trigger);
    AbsentByChar(s, ".runWith(", 4);
  }

  /** With the same options, a callable and a request handler never write the same text. */
  lemma CallAndRequestDiffer(opts: Option<RuntimeOptions>)
    ensures AsString(OnCall(opts)) != AsString(OnRequest(opts))
  {
    AsStringShape(OnCall(opts));
    AsStringShape(OnRequest(opts));
    assert |CallSuffix| != |RequestSuffix|;
  }

  /** Setting the fragment's options after creation changes its text exactly as passing them
      to the factory would. */
  lemma AsStringReadsCurrentOptions(opts: Option<RuntimeOptions>, later: Option<RuntimeOptions>)
    ensures AsString(OnCall(opts).(opts := later)) == AsString(OnCall(later))
    ensures AsString(OnRequest(opts).(opts := later)) == AsString(OnRequest(later))
  {
  }
}
