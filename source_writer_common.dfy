/** Options serialisation and the `.runWith(...)` segment shared by the generated function
    sources (scripts/functions-deploy-tests/sourceWriter/common.ts).

    `JSON.stringify` is modelled for the flat objects the generators receive: the object's
    own properties in insertion order, each key quoted as it is, and each defined value
    rendered by its JSON text, which is given (the serialisation of a nested value is not
    modelled). What the model decides is how `undefined` values come out. */
module SourceWriterCommon {
  import opened Wrappers
  import opened Strings
  import opened Sequences

  /** The value of one property: `undefined`, or a value given by its JSON text. */
  datatype OptionValue = Undefined | Defined(json: string)

  datatype Property = Property(key: string, value: OptionValue)

  /** A flat JavaScript object, as its properties in insertion order. */
  type JsObject = seq<Property>

  /** `functions.RuntimeOptions`. */
  type RuntimeOptions = JsObject

  /** The string the replacer puts in place of `undefined`, as it appears in JSON text. */
  const Marker: string := "\"" + MarkerKey + "\""

  const MarkerKey: string := "__undefined"

  /** What each quoted marker is replaced by. */
  const UndefinedText: string := "undefined"

  /** A value's text; an undefined value is written as `undefinedAs`. */
  function ValueText(v: OptionValue, undefinedAs: string): string
  {
    match v
    case Undefined => undefinedAs
    case Defined(json) => json
  }

  /** `"key":value`. */
  function Member(p: Property, undefinedAs: string): string
  {
    "\"" + p.key + "\":" + ValueText(p.value, undefinedAs)
  }

  /** The members joined by commas. */
  function Members(o: JsObject, undefinedAs: string): string
    decreases |o|
  {
    if |o| == 0 then ""
    else if |o| == 1 then Member(o[0], undefinedAs)
    else Member(o[0], undefinedAs) + "," + Members(o[1..], undefinedAs)
  }

  /** The object's text with undefined values written as `undefinedAs`. */
  function Render(o: JsObject, undefinedAs: string): string
  {
    "{" + Members(o, undefinedAs) + "}"
  }

  /** `JSON.stringify(o, (k, v) => (v === undefined ? "__undefined" : v))`. */
  function StringifyMarkingUndefined(o: JsObject): string
  {
    Render(o, Marker)
  }

  predicate IsDefined(p: Property)
  {
    p.value.Defined?
  }

  /** `JSON.stringify(o)`: properties whose value is undefined are left out. */
  function Stringify(o: JsObject): string
  {
    Render(Filter(o, IsDefined), Marker)
  }

  /** `maybeRunWith(opts)`: nothing without options, otherwise `.runWith(` and the serialised
      options, with every quoted marker replaced by a bare `undefined`, closed by `)`. */
  function MaybeRunWith(opts: Option<RuntimeOptions>): string
  {
    match opts
    case None => ""
    case Some(o) => ".runWith(" + ReplaceAll(StringifyMarkingUndefined(o), Marker, UndefinedText) + ")"
  }

  /** The segment is empty exactly without options; otherwise it is a `.runWith(...)` call
      whose argument is an object literal. */
  lemma MaybeRunWithShape(opts: Option<RuntimeOptions>)
    ensures opts.None? <==> MaybeRunWith(opts) == ""
    ensures opts.Some? ==> var s := MaybeRunWith(opts);
      && |s| >= 11 && s[..9] == ".runWith(" && s[9] == '{' && s[|s| - 1] == ')'
  {
    if opts.Some? {
      var o := opts.value;
      var tail := Members(o, Marker) + "}";
      MismatchAt("{" + tail, Marker, 0, 0);
      ReplaceAllKeepsPrefix("{", tail, Marker, UndefinedText);
      assert StringifyMarkingUndefined(o) == "{" + tail;
      var s := MaybeRunWith(opts);
      assert s[..9] == ".runWith(";
    }
  }

  /** A key JSON writes as it is and that is not itself the marker's text. */
  predicate PlainKey(k: string)
  {
    '"' !in k && k != MarkerKey
  }

  predicate PlainProperty(p: Property)
  {
    PlainKey(p.key) && (p.value.Defined? ==> Absent(p.value.json, Marker))
  }

  /** Options whose keys are plain and whose values' JSON holds no quoted marker. */
  predicate PlainOptions(o: JsObject)
  {
    forall k :: 0 <= k < |o| ==> PlainProperty(o[k])
  }

  /** For plain options, the `.runWith(...)` segment is the options object with every
      undefined value written as a bare `undefined`: such keys are kept, not dropped, and no
      quoted marker is left behind. */
  lemma RunWithShowsUndefined(o: RuntimeOptions)
    requires PlainOptions(o)
    ensures MaybeRunWith(Some(o)) == ".runWith(" + Render(o, UndefinedText) + ")"
    ensures Absent(MaybeRunWith(Some(o)), Marker)
  {
    var tail := Members(o, Marker) + "}";
    MismatchAt("{" + tail, Marker, 0, 0);
    assert Render(o, Marker) == "{" + tail;
    ReplaceAllKeepsPrefix("{", tail, Marker, UndefinedText);
    MembersReplaced(o);
    RenderedHasNoMarker(o);
  }

  /** The rewritten segment holds no quoted marker: every `"` in it opens or closes a plain
      key, or sits in a value's JSON text, which holds no marker and is followed by a comma
      or the closing brace. */
  lemma RenderedHasNoMarker(o: RuntimeOptions)
    requires PlainOptions(o)
    ensures Absent(".runWith(" + Render(o, UndefinedText) + ")", Marker)
  {
    MarkerShape();
    var closing := "})";
    AbsentByChar(closing, Marker, 0);
    MembersHaveNoMarker(o, closing);
    var body := Members(o, UndefinedText) + closing;
    NoneStartsInside("{", body, Marker);
    AbsentJoin("{", body, Marker);
    NoneStartsInside(".runWith(", "{" + body, Marker);
    AbsentJoin(".runWith(", "{" + body, Marker);
    assert ".runWith(" + Render(o, UndefinedText) + ")" == ".runWith(" + ("{" + body);
  }

  lemma {:induction false} MembersHaveNoMarker(o: JsObject, t: string)
    requires PlainOptions(o)
    requires |t| > 0 && (t[0] == ',' || t[0] == '}') && Absent(t, Marker)
    ensures Absent(Members(o, UndefinedText) + t, Marker)
    decreases |o|
  {
    if |o| == 0 {
      assert Members(o, UndefinedText) + t == t;
    } else if |o| == 1 {
      MemberHasNoMarker(o[0], t);
    } else {
      var tail := o[1..];
      assert PlainOptions(tail) by {
        forall k | 0 <= k < |tail| ensures PlainProperty(tail[k]) { assert tail[k] == o[k + 1]; }
      }
      var rest := Members(tail, UndefinedText) + t;
      MembersHaveNoMarker(tail, t);
      MarkerShape();
      NoneStartsInside(",", rest, Marker);
      AbsentJoin(",", rest, Marker);
      MemberHasNoMarker(o[0], "," + rest);
      AssociateMembers(Member(o[0], UndefinedText), Members(tail, UndefinedText));
      assert Members(o, UndefinedText) + t == Member(o[0], UndefinedText) + ("," + rest);
    }
  }

  /** One rewritten member, followed by a comma or the closing brace, holds no marker. */
  lemma MemberHasNoMarker(p: Property, t: string)
    requires PlainProperty(p)
    requires |t| > 0 && (t[0] == ',' || t[0] == '}') && Absent(t, Marker)
    ensures Absent(Member(p, UndefinedText) + t, Marker)
  {
    MarkerShape();
    var v := ValueText(p.value, UndefinedText);
    if p.value.Undefined? {
      assert '"' !in UndefinedText;
      NoneStartsInside(v, t, Marker);
    } else {
      DefinedValueHasNoMatch(p.value.json, t);
    }
    AbsentJoin(v, t, Marker);
    var opening := "\"" + p.key + "\":";
    KeyOpeningHasNoMatch(p.key, v + t);
    AbsentJoin(opening, v + t, Marker);
    assert Member(p, UndefinedText) + t == opening + (v + t);
  }

  lemma {:induction false} MembersReplaced(o: JsObject)
    requires PlainOptions(o)
    ensures ReplaceAll(Members(o, Marker) + "}", Marker, UndefinedText) == Members(o, UndefinedText) + "}"
    decreases |o|
  {
    assert ReplaceAll("}", Marker, UndefinedText) == "}";
    if |o| == 1 {
      MemberReplaced(o[0], "}");
    } else if |o| > 1 {
      var tail := o[1..];
      assert PlainOptions(tail) by {
        forall k | 0 <= k < |tail| ensures PlainProperty(tail[k]) { assert tail[k] == o[k + 1]; }
      }
      MembersReplaced(tail);
      CommaReplaced(Members(tail, Marker) + "}");
      MemberReplaced(o[0], "," + (Members(tail, Marker) + "}"));
      AssociateMembers(Member(o[0], Marker), Members(tail, Marker));
      AssociateMembers(Member(o[0], UndefinedText), Members(tail, UndefinedText));
    }
  }

  lemma CommaReplaced(rest: string)
    ensures ReplaceAll("," + rest, Marker, UndefinedText) == "," + ReplaceAll(rest, Marker, UndefinedText)
  {
    MismatchAt("," + rest, Marker, 0, 0);
    ReplaceAllKeepsPrefix(",", rest, Marker, UndefinedText);
  }

  lemma AssociateMembers(first: string, others: string)
    ensures first + "," + others + "}" == first + ("," + (others + "}"))
  {
  }

  /** One member is rewritten on its own when a comma or the closing brace follows it. */
  lemma MemberReplaced(p: Property, t: string)
    requires PlainProperty(p)
    requires |t| > 0 && (t[0] == ',' || t[0] == '}')
    ensures ReplaceAll(Member(p, Marker) + t, Marker, UndefinedText)
         == Member(p, UndefinedText) + ReplaceAll(t, Marker, UndefinedText)
  {
    var v := ValueText(p.value, Marker);
    var rt := ReplaceAll(t, Marker, UndefinedText);
    OpeningReplaced(p.key, v + t);
    ValueReplaced(p.value, t);
    Reassociate("\"" + p.key + "\":", v, t, ValueText(p.value, UndefinedText), rt);
  }

  lemma Reassociate(opening: string, v: string, t: string, v': string, rt: string)
    requires ReplaceAll(opening + (v + t), Marker, UndefinedText) == opening + ReplaceAll(v + t, Marker, UndefinedText)
    requires ReplaceAll(v + t, Marker, UndefinedText) == v' + rt
    ensures ReplaceAll(opening + v + t, Marker, UndefinedText) == opening + v' + rt
  {
    assert opening + v + t == opening + (v + t);
    assert opening + v' + rt == opening + (v' + rt);
  }

  /** `"key":` is copied unchanged for a plain key. */
  lemma OpeningReplaced(k: string, rest: string)
    requires PlainKey(k)
    ensures ReplaceAll("\"" + k + "\":" + rest, Marker, UndefinedText)
         == "\"" + k + "\":" + ReplaceAll(rest, Marker, UndefinedText)
  {
    KeyOpeningHasNoMatch(k, rest);
    ReplaceAllKeepsPrefix("\"" + k + "\":", rest, Marker, UndefinedText);
  }

  /** A value is rewritten on its own when a comma or the closing brace follows it. */
  lemma ValueReplaced(v: OptionValue, t: string)
    requires v.Defined? ==> Absent(v.json, Marker)
    requires |t| > 0 && (t[0] == ',' || t[0] == '}')
    ensures ReplaceAll(ValueText(v, Marker) + t, Marker, UndefinedText)
         == ValueText(v, UndefinedText) + ReplaceAll(t, Marker, UndefinedText)
  {
    match v
    case Undefined =>
      ReplaceAllAtFront(t, Marker, UndefinedText);
    case Defined(json) =>
      DefinedValueHasNoMatch(json, t);
      ReplaceAllKeepsPrefix(json, t, Marker, UndefinedText);
  }

  lemma MarkerShape()
    ensures |Marker| == 13 && Marker[0] == '"' && Marker[12] == '"' && Marker[1..12] == MarkerKey
    ensures forall j :: 1 <= j < 12 ==> Marker[j] != '"'
  {
    assert Marker[1..12] == MarkerKey;
    assert forall j :: 1 <= j < 12 ==> Marker[j] == MarkerKey[j - 1];
  }

  /** No marker starts inside `"key":` for a plain key. */
  lemma KeyOpeningHasNoMatch(k: string, rest: string)
    requires PlainKey(k)
    ensures NoneStartsBefore("\"" + k + "\":" + rest, Marker, |k| + 3)
  {
    var s := "\"" + k + "\":" + rest;
    MarkerShape();
    assert s[0] == '"' && s[|k| + 1] == '"' && s[|k| + 2] == ':';
    forall i: nat | i < |k| + 3 ensures !OccursAt(s, Marker, i) {
      if i == 0 {
        if |k| < 11 {
          MismatchAt(s, Marker, 0, |k| + 1);
        } else if |k| == 11 {
          assert s[1..12] == k;
          if 13 <= |s| {
            assert s[0..13][1..12] == s[1..12];
          }
        } else {
          assert s[12] == k[11];
          MismatchAt(s, Marker, 0, 12);
        }
      } else if i <= |k| {
        assert s[i] == k[i - 1];
        MismatchAt(s, Marker, i, 0);
      } else if i == |k| + 1 {
        MismatchAt(s, Marker, i, 1);
      } else {
        MismatchAt(s, Marker, i, 0);
      }
    }
  }

  /** No marker starts inside a value's JSON text that holds none, when a comma or the
      closing brace follows it. */
  lemma DefinedValueHasNoMatch(json: string, t: string)
    requires Absent(json, Marker)
    requires |t| > 0 && (t[0] == ',' || t[0] == '}')
    ensures NoneStartsBefore(json + t, Marker, |json|)
  {
    var s := json + t;
    assert ',' !in Marker && '}' !in Marker;
    forall i: nat | i < |json| ensures !OccursAt(s, Marker, i) {
      if i + |Marker| <= |json| {
        assert !OccursAt(json, Marker, i);
        assert s[i..i + |Marker|] == json[i..i + |Marker|];
      } else {
        assert s[|json|] == t[0];
        assert Marker[|json| - i] in Marker;
        MismatchAt(s, Marker, i, |json| - i);
      }
    }
  }

  /** Plain `JSON.stringify` drops a property whose value is undefined, wherever it sits, and
      keeps the other properties in their order. */
  lemma StringifyDropsUndefined(before: JsObject, key: string, after: JsObject)
    ensures Stringify(before + [Property(key, Undefined)] + after) == Stringify(before + after)
  {
    var u := [Property(key, Undefined)];
    FilterAppend(before + u, after, IsDefined);
    FilterAppend(before, u, IsDefined);
    FilterAppend(before, after, IsDefined);
    assert Filter(u, IsDefined) == [];
    assert Filter(before, IsDefined) + [] == Filter(before, IsDefined);
  }

  /** `x` begins with `.runWith(`. */
  predicate StartsWithRunWith(x: string)
  {
    |x| >= 9 && x[..9] == ".runWith("
  }

  /** Followed by a trigger segment that is not itself a `.runWith(` call, the runWith
      segment is present exactly when options are given. */
  lemma RunWithPresentIffOptions(opts: Option<RuntimeOptions>, rest: string)
    requires |rest| >= 2 && rest[1] != 'r'
    ensures StartsWithRunWith(MaybeRunWith(opts) + rest) <==> opts.Some?
  {
    var x := MaybeRunWith(opts);
    MaybeRunWithShape(opts);
    if opts.Some? {
      assert (x + rest)[..9] == x[..9];
    } else if |rest| >= 9 {
      assert (x + rest)[..9][1] == rest[1];
    }
  }

  /** Adding a property appends one member, after a comma unless it is the first. */
  lemma {:induction false} MembersAppend(o: JsObject, p: Property, undefinedAs: string)
    ensures Members(o + [p], undefinedAs)
         == Members(o, undefinedAs) + (if |o| == 0 then "" else ",") + Member(p, undefinedAs)
    decreases |o|
  {
    if |o| == 1 {
      assert (o + [p])[1..] == [p];
    } else if |o| > 1 {
      assert (o + [p])[1..] == o[1..] + [p];
      MembersAppend(o[1..], p, undefinedAs);
    }
  }

  /** A key whose value is undefined is kept in the runWith segment: its member
      `"key":undefined` follows the members before it, where plain `JSON.stringify` would
      drop it. */
  lemma UndefinedKeyKept(o: RuntimeOptions, key: string)
    requires PlainOptions(o) && PlainKey(key)
    ensures MaybeRunWith(Some(o + [Property(key, Undefined)]))
         == ".runWith(" + Render(o + [Property(key, Undefined)], UndefinedText) + ")"
    ensures Render(o + [Property(key, Undefined)], UndefinedText)
         == "{" + Members(o, UndefinedText) + (if |o| == 0 then "" else ",")
            + Member(Property(key, Undefined), UndefinedText) + "}"
  {
    PlainAppend(o, Property(key, Undefined));
    RunWithShowsUndefined(o + [Property(key, Undefined)]);
    RenderAppend(o, Property(key, Undefined), UndefinedText);
  }

  lemma RenderAppend(o: JsObject, p: Property, undefinedAs: string)
    ensures Render(o + [p], undefinedAs)
         == "{" + Members(o, undefinedAs) + (if |o| == 0 then "" else ",") + Member(p, undefinedAs) + "}"
  {
    var before, sep, last := Members(o, undefinedAs), (if |o| == 0 then "" else ","), Member(p, undefinedAs);
    MembersAppend(o, p, undefinedAs);
    Associate4("{", before, sep, last);
  }

  lemma Associate4(a: string, b: string, c: string, d: string)
    ensures a + (b + c + d) + "}" == a + b + c + d + "}"
  {
  }

  lemma PlainAppend(o: JsObject, p: Property)
    requires PlainOptions(o) && PlainProperty(p)
    ensures PlainOptions(o + [p])
  {
    var o' := o + [p];
    forall k | 0 <= k < |o'| ensures PlainProperty(o'[k]) {
      if k < |o| {
        assert o'[k] == o[k];
      }
    }
  }

  /** The shape every v1 fragment's text shares: `functions`, then the runWith segment,
      present exactly when options are given, then the trigger segment, kept whole at the
      end. */
  lemma ComposedShape(opts: Option<RuntimeOptions>, trigger: string)
    requires |trigger| >= 2 && trigger[1] != 'r'
    ensures var s := "functions" + MaybeRunWith(opts) + trigger;
      && s[..9] == "functions"
      && (StartsWithRunWith(s[9..]) <==> opts.Some?)
      && s[9 + |MaybeRunWith(opts)|..] == trigger
      && EndsWith(s, trigger)
  {
    var s := "functions" + MaybeRunWith(opts) + trigger;
    RunWithPresentIffOptions(opts, trigger);
    assert s[9..] == MaybeRunWith(opts) + trigger;
  }

  /** Whatever follows a fixed head at the end of a text is a suffix of that text. */
  lemma EndsWithRest(lead: string, head: string, rest: string)
    ensures EndsWith(lead + (head + rest), rest)
  {
    var s := lead + (head + rest);
    assert s[|s| - |rest|..] == rest;
  }

  /** The last two of three pieces after a lead are a suffix of the text. */
  lemma EndsWithLastTwo(lead: string, head: string, mid: string, tail: string)
    ensures EndsWith(lead + (head + mid + tail), mid + tail)
  {
    var s := lead + (head + mid + tail);
    assert s[|s| - |mid + tail|..] == mid + tail;
  }

  /** Where a path written between a fixed head and a fixed tail sits. */
  lemma FramedPath(lead: string, head: string, path: string, tail: string)
    ensures var s := lead + (head + path + tail);
      && |s| == |lead| + |head| + |path| + |tail|
      && s[|lead|..|lead| + |head|] == head
      && s[|lead| + |head|..|s| - |tail|] == path
      && EndsWith(s, tail)
  {
    var s := lead + (head + path + tail);
    assert s[|lead|..|lead| + |head|] == head;
    assert s[|lead| + |head|..|s| - |tail|] == path;
    assert s[|s| - |tail|..] == tail;
  }
}
