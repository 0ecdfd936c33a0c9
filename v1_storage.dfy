/** Storage fragments of the v1 generator (sourceWriter/v1/storage.ts): an object-finalize
    handler, optionally bound to a bucket. */
module V1Storage {
  import opened Wrappers
  import opened Strings
  import opened SourceWriterCommon

  datatype StorageFragment = StorageFragment(bucket: Option<string>, opts: Option<RuntimeOptions>)

  const StorageHead: string := ".storage"

  const FinalizeSuffix: string := ".object().onFinalize(() => {});"

  /** `maybeBucket(bucket)`: nothing for an absent or empty bucket, otherwise `.bucket(` and the
      bucket name as it is, unquoted, and `)`. */
  function MaybeBucket(bucket: Option<string>): (s: string)
    ensures s == "" <==> !Truthy(bucket)
    ensures Truthy(bucket) ==>
      && |s| == |bucket.value| + 9
      && s[..8] == ".bucket("
      && s[8..|s| - 1] == bucket.value
      && s[|s| - 1] == ')'
  {
    if Truthy(bucket) then
      var s := ".bucket(" + bucket.value + ")";
      assert s[8..|s| - 1] == bucket.value;
      s
    else ""
  }

  /** `onFinalize(opts, bucket)`: a fragment that keeps both, whose text has a runWith
      segment exactly when options are given and ends with the bucket segment and the
      finalize handler. */
  function OnFinalize(opts: Option<RuntimeOptions>, bucket: Option<string>): (f: StorageFragment)
    ensures f.bucket == bucket && f.opts == opts
    ensures var s := AsString(f);
      && s[..9] == "functions"
      && (StartsWithRunWith(s[9..]) <==> opts.Some?)
      && EndsWith(s, MaybeBucket(bucket) + FinalizeSuffix)
  {
    var f := StorageFragment(bucket, opts);
    AsStringShape(f);
    EndsWithLastTwo("functions" + MaybeRunWith(opts), StorageHead, MaybeBucket(bucket), FinalizeSuffix);
    f
  }

  function TriggerSegment(bucket: Option<string>): string
  {
    StorageHead + MaybeBucket(bucket) + FinalizeSuffix
  }

  /** `asString()`. */
  function AsString(f: StorageFragment): string
  {
    "functions" + MaybeRunWith(f.opts) + TriggerSegment(f.bucket)
  }

  /** The text is `functions`, then a runWith segment exactly when the fragment has options,
      then `.storage`, the bucket segment and the finalize handler. */
  lemma AsStringShape(f: StorageFragment)
    ensures var s := AsString(f);
      && |s| == 9 + |MaybeRunWith(f.opts)| + |TriggerSegment(f.bucket)|
      && s[..9] == "functions"
      && (StartsWithRunWith(s[9..]) <==> f.opts.Some?)
      && s[9 + |MaybeRunWith(f.opts)|..] == TriggerSegment(f.bucket)
      && EndsWith(s, FinalizeSuffix)
  {
    var t := TriggerSegment(f.bucket);
    assert t[1] == StorageHead[1];
    ComposedShape(f.opts, t);
    var s := AsString(f);
    assert s[|s| - |FinalizeSuffix|..] == t[|t| - |FinalizeSuffix|..];
  }

  /** The bucket name can be read back from the trigger segment, and its absence is seen
      directly after `.storage`. */
  lemma BucketRecoverable(f: StorageFragment)
    ensures var t := TriggerSegment(f.bucket);
      && t[..8] == StorageHead
      && (Truthy(f.bucket) <==> t[8] == '.' && t[9] == 'b')
      && (Truthy(f.bucket) ==> t[16..16 + |f.bucket.value|] == f.bucket.value)
  {
    var t := TriggerSegment(f.bucket);
    var mb := MaybeBucket(f.bucket);
    assert t[..8] == StorageHead;
    if Truthy(f.bucket) {
      assert t[8..8 + |mb|] == mb;
      assert t[16..16 + |f.bucket.value|] == mb[8..|mb| - 1];
    } else {
      assert t[8..] == FinalizeSuffix;
      assert t[9] == FinalizeSuffix[1] == 'o';
    }
  }
}
