/** Firestore document-write fragments of the v1 generator (sourceWriter/v1/firestore.ts).
    The path is written between double quotes as it is, without escaping. */
module V1Firestore {
  import opened Wrappers
  import opened Strings
  import opened SourceWriterCommon

  datatype FirestoreFragment = FirestoreFragment(documentPath: string, opts: Option<RuntimeOptions>)

  const PathHead: string := ".firestore.document(\""

  const WriteSuffix: string := "\").onWrite(() => {});"

  /** `onWrite(documentPath, opts)`: a fragment whose text has a runWith segment exactly when
      options are given, ends with the write handler, and gives the path back. */
  function OnWrite(documentPath: string, opts: Option<RuntimeOptions>): (f: FirestoreFragment)
    ensures f.documentPath == documentPath && f.opts == opts
    ensures var s := AsString(f);
      && s[..9] == "functions"
      && (StartsWithRunWith(s[9..]) <==> opts.Some?)
      && EndsWith(s, WriteSuffix)
      && PathOf(s, opts) == documentPath
  {
    var f := FirestoreFragment(documentPath, opts);
    AsStringShape(f);
    f
  }

  /** `asString()`. */
  function AsString(f: FirestoreFragment): string
  {
    "functions" + MaybeRunWith(f.opts) + (PathHead + f.documentPath + WriteSuffix)
  }

  /** The text is `functions`, then a runWith segment exactly when the fragment has options,
      then the path, verbatim, between the fixed head and the fixed suffix. */
  lemma AsStringShape(f: FirestoreFragment)
    ensures var s := AsString(f);
      && |s| == 9 + |MaybeRunWith(f.opts)| + |PathHead| + |f.documentPath| + |WriteSuffix|
      && s[..9] == "functions"
      && (StartsWithRunWith(s[9..]) <==> f.opts.Some?)
      && EndsWith(s, WriteSuffix)
      && var start := 9 + |MaybeRunWith(f.opts)|;
      && s[start..start + |PathHead|] == PathHead
      && s[start + |PathHead|..|s| - |WriteSuffix|] == f.documentPath
  {
    var t := PathHead + f.documentPath + WriteSuffix;
    assert t[1] == PathHead[1];
    ComposedShape(f.opts, t);
    FramedPath("functions" + MaybeRunWith(f.opts), PathHead, f.documentPath, WriteSuffix);
  }

  /** Reads the path back from a fragment's text, given the options it was written with. */
  function PathOf(s: string, opts: Option<RuntimeOptions>): string
  {
    var start := 9 + |MaybeRunWith(opts)| + |PathHead|;
    if start <= |s| - |WriteSuffix| then s[start..|s| - |WriteSuffix|] else ""
  }

  /** The path is recovered from the text, so fragments with the same options and different
      paths never write the same source. */
  lemma PathRoundTrip(f: FirestoreFragment, g: FirestoreFragment)
    ensures PathOf(AsString(f), f.opts) == f.documentPath
    ensures f.opts == g.opts && AsString(f) == AsString(g) ==> f.documentPath == g.documentPath
  {
    AsStringShape(f);
    AsStringShape(g);
  }
}
