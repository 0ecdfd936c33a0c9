/** Realtime Database write fragments of the v1 generator (sourceWriter/v1/database.ts).
    The path is written between double quotes as it is, without escaping. */
module V1Database {
  import opened Wrappers
  import opened Strings
  import opened SourceWriterCommon

  datatype DatabaseFragment = DatabaseFragment(nodePath: string, opts: Option<RuntimeOptions>)

  const PathHead: string := ".database.ref(\""

  const WriteSuffix: string := "\").onWrite(() => {});"

  /** `onWrite(nodePath, opts)`: a fragment whose text has a runWith segment exactly when
      options are given, ends with the write handler, and gives the path back. */
  function OnWrite(nodePath: string, opts: Option<RuntimeOptions>): (f: DatabaseFragment)
    ensures f.nodePath == nodePath && f.opts == opts
    ensures var s := AsString(f);
      && s[..9] == "functions"
      && (StartsWithRunWith(s[9..]) <==> opts.Some?)
      && EndsWith(s, WriteSuffix)
      && PathOf(s, opts) == nodePath
  {
    var f := DatabaseFragment(nodePath, opts);
    AsStringShape(f);
    f
  }

  /** `asString()`. */
  function AsString(f: DatabaseFragment): string
  {
    "functions" + MaybeRunWith(f.opts) + (PathHead + f.nodePath + WriteSuffix)
  }

  /** The text is `functions`, then a runWith segment exactly when the fragment has options,
      then the path, verbatim, between the fixed head and the fixed suffix. */
  lemma AsStringShape(f: DatabaseFragment)
    ensures var s := AsString(f);
      && |s| == 9 + |MaybeRunWith(f.opts)| + |PathHead| + |f.nodePath| + |WriteSuffix|
      && s[..9] == "functions"
      && (StartsWithRunWith(s[9..]) <==> f.opts.Some?)
      && EndsWith(s, WriteSuffix)
      && var start := 9 + |MaybeRunWith(f.opts)|;
      && s[start..start + |PathHead|] == PathHead
      && s[start + |PathHead|..|s| - |WriteSuffix|] == f.nodePath
  {
    var t := PathHead + f.nodePath + WriteSuffix;
    assert t[1] == PathHead[1];
    ComposedShape(f.opts, t);
    FramedPath("functions" + MaybeRunWith(f.opts), PathHead, f.nodePath, WriteSuffix);
  }

  /** Reads the path back from a fragment's text, given the options it was written with. */
  function PathOf(s: string, opts: Option<RuntimeOptions>): string
  {
    var start := 9 + |MaybeRunWith(opts)| + |PathHead|;
    if start <= |s| - |WriteSuffix| then s[start..|s| - |WriteSuffix|] else ""
  }

  /** The path is recovered from the text, so fragments with the same options and different
      paths never write the same source. */
  lemma PathRoundTrip(f: DatabaseFragment, g: DatabaseFragment)
    ensures PathOf(AsString(f), f.opts) == f.nodePath
    ensures f.opts == g.opts && AsString(f) == AsString(g) ==> f.nodePath == g.nodePath
  {
    AsStringShape(f);
    AsStringShape(g);
  }
}
