/** The warnings shown before installing or deploying extensions whose publisher is not
    trusted (Early Access Program, "EAP") or whose registry launch stage is experimental
    (src/extensions/warnings.ts). The trusted-publisher list is an input (it comes from
    `getTrustedPublishers`); what the functions return is what the source logs. */
module Warnings {
  import opened Wrappers
  import opened Strings
  import opened Sequences

  /** `RegistryLaunchStage`; only EXPERIMENTAL is treated specially. */
  datatype LaunchStage = Experimental | Beta | GA | Deprecated | Unspecified

  /** `i.ref`: a reference to a published extension. */
  datatype ExtensionRef = ExtensionRef(publisherId: Option<string>)

  /** The parts of a deployment's `InstanceSpec` the warnings read. `summary` is what
      `humanReadable(i)` renders; `launchStage` is the registry launch stage of the extension
      that `getExtension(i)` fetched for a published instance. */
  datatype InstanceSpec = InstanceSpec(
    summary: string,
    ref: Option<ExtensionRef>,
    launchStage: LaunchStage,
    sourceDownloadUri: Option<string>,
    sourceUrl: Option<string>)

  /** The parts of an `ExtensionVersion` the install-time warning reads. */
  datatype ExtensionVersion = ExtensionVersion(sourceDownloadUri: string, sourceUrl: Option<string>)

  const EapLegalMsg: string :=
    "\n\nIt is provided \U{201C}AS IS\U{201D}, without any warranty, express or implied, from Google."
    + " Google disclaims all liability for any damages, direct or indirect, resulting from the use of"
    + " the extension, and its functionality might change in backward - incompatible ways."

  /** The publisher as shown in the EAP warning: a markdown link when the spec has a source URL. */
  function PublisherNameLink(publisherId: string, githubLink: Option<string>): (name: string)
    ensures Truthy(githubLink) ==> name == "[" + publisherId + "](" + githubLink.value + ")"
    ensures !Truthy(githubLink) ==> name == publisherId
  {
    if Truthy(githubLink) then "[" + publisherId + "](" + githubLink.value + ")" else publisherId
  }

  /** The publisher is shown bare exactly when there is no link to show. */
  lemma PublisherShownBareIffNoLink(publisherId: string, githubLink: Option<string>)
    ensures PublisherNameLink(publisherId, githubLink) == publisherId <==> !Truthy(githubLink)
  {
    if Truthy(githubLink) {
      assert |PublisherNameLink(publisherId, githubLink)| > |publisherId|;
    }
  }

  /** The markdown text of the EAP warning that names `publisherNameLink`. */
  function EapWarningMessage(publisherNameLink: string): string
  {
    EapIntro + publisherNameLink + EapQuestions + EapLegalMsg
  }

  const EapIntro: string :=
    "This extension is in preview and is built by a developer in the [Extensions Publisher Early"
    + " Access Program](http://bit.ly/firex-provider). Its functionality might change in"
    + " backward-incompatible ways. Since this extension isn't built by Firebase, reach out to "

  const EapQuestions: string := " with questions about this extension."

  /** The warning `displayWarningPrompts` shows. */
  datatype PromptWarning =
    | EapWarning(message: string, sourceDownloadUri: string)
    | ExperimentalWarning
    | NoWarning

  /** `displayWarningPrompts(publisherId, launchStage, extensionVersion)` with the trusted
      publishers already fetched. */
  function WarningPrompt(publisherId: string, launchStage: LaunchStage, version: ExtensionVersion,
                         trusted: seq<string>): (w: PromptWarning)
    ensures w.EapWarning? <==> publisherId !in trusted
    ensures w.EapWarning? ==>
              && w.sourceDownloadUri == version.sourceDownloadUri
              && w.message == EapWarningMessage(PublisherNameLink(publisherId, version.sourceUrl))
    ensures w.ExperimentalWarning? <==> publisherId in trusted && launchStage == Experimental
    ensures w.NoWarning? <==> publisherId in trusted && launchStage != Experimental
  {
    if publisherId !in trusted then
      EapWarning(EapWarningMessage(PublisherNameLink(publisherId, version.sourceUrl)), version.sourceDownloadUri)
    else if launchStage == Experimental then ExperimentalWarning
    else NoWarning
  }

  /** A JavaScript template interpolation of an optional string. */
  function Interpolate(s: Option<string>): string
  {
    s.GetOr("undefined")
  }

  /** `toListEntry(i)`: the instance, its source code link and, when the spec names a source
      URL, a publisher contact link, on separate indented lines. */
  function ListEntry(i: InstanceSpec): string
  {
    var githubLink := if Truthy(i.sourceUrl) then "\n" + ContactLine(i.sourceUrl.value) else "";
    i.summary + "\n" + SourceCodeLine(i.sourceDownloadUri) + githubLink
  }

  function SourceCodeLine(sourceDownloadUri: Option<string>): string
  {
    "\t[Source Code](" + Interpolate(sourceDownloadUri) + ")"
  }

  function ContactLine(sourceUrl: string): string
  {
    "\t[Publisher Contact](" + sourceUrl + ")"
  }

  /** A list entry has two lines, or three when (and only when) the spec has a source URL;
      the third line is the publisher contact link. */
  lemma ListEntryLines(i: InstanceSpec)
    requires '\n' !in i.summary
    requires '\n' !in Interpolate(i.sourceDownloadUri)
    requires i.sourceUrl.Some? ==> '\n' !in i.sourceUrl.value
    ensures |Split(ListEntry(i), '\n')| == (if Truthy(i.sourceUrl) then 3 else 2)
    ensures Split(ListEntry(i), '\n')[0] == i.summary
    ensures Split(ListEntry(i), '\n')[1] == SourceCodeLine(i.sourceDownloadUri)
    ensures Truthy(i.sourceUrl) ==> Split(ListEntry(i), '\n')[2] == ContactLine(i.sourceUrl.value)
  {
    var codeLine := SourceCodeLine(i.sourceDownloadUri);
    NoNewlineIn(Interpolate(i.sourceDownloadUri), "\t[Source Code](");
    if Truthy(i.sourceUrl) {
      var contactLine := ContactLine(i.sourceUrl.value);
      NoNewlineIn(i.sourceUrl.value, "\t[Publisher Contact](");
      var lines := [i.summary, codeLine, contactLine];
      assert Join(lines[1..], "\n") == codeLine + "\n" + contactLine;
      assert ListEntry(i) == Join(lines, "\n");
      SplitJoin(lines, '\n');
    } else {
      var lines := [i.summary, codeLine];
      assert ListEntry(i) == Join(lines, "\n");
      SplitJoin(lines, '\n');
    }
  }

  /** A link line built around text without line breaks has none. */
  lemma NoNewlineIn(text: string, opening: string)
    requires opening == "\t[Source Code](" || opening == "\t[Publisher Contact]("
    requires '\n' !in text
    ensures '\n' !in opening + text + ")"
  {
    assert forall k :: 0 <= k < |opening| ==> opening[k] != '\n';
  }

  /** `i.ref?.publisherId ?? ""`. */
  function PublisherOf(i: InstanceSpec): string
  {
    if i.ref.Some? && i.ref.value.publisherId.Some? then i.ref.value.publisherId.value else ""
  }

  /** The instance's publisher is not trusted. */
  predicate IsEap(i: InstanceSpec, trusted: seq<string>)
  {
    PublisherOf(i) !in trusted
  }

  /** The instance refers to a published extension (`i.ref` is set). */
  predicate HasRef(i: InstanceSpec)
  {
    i.ref.Some?
  }

  predicate IsExperimental(i: InstanceSpec)
  {
    i.launchStage == Experimental
  }

  /** The instances of a deployment that get a warning, by kind. */
  datatype Classification = Classification(
    eap: seq<InstanceSpec>,
    nonEap: seq<InstanceSpec>,
    experimental: seq<InstanceSpec>)

  /** The classification in `displayWarningsForDeploy`: only instances with a `ref` take part;
      they split into EAP and non-EAP by whether their publisher is trusted, and the
      experimental ones are drawn from the non-EAP part only. */
  function Classify(instances: seq<InstanceSpec>, trusted: seq<string>): (c: Classification)
    ensures multiset(c.eap) + multiset(c.nonEap) == multiset(Filter(instances, HasRef))
    ensures forall k :: 0 <= k < |c.eap| ==> c.eap[k] in instances && HasRef(c.eap[k]) && IsEap(c.eap[k], trusted)
    ensures forall k :: 0 <= k < |c.nonEap| ==>
              c.nonEap[k] in instances && HasRef(c.nonEap[k]) && !IsEap(c.nonEap[k], trusted)
    ensures forall k :: 0 <= k < |instances| && HasRef(instances[k]) && IsEap(instances[k], trusted) ==>
              instances[k] in c.eap
    ensures forall k :: 0 <= k < |c.experimental| ==>
              && c.experimental[k] in c.nonEap
              && c.experimental[k] in instances && HasRef(c.experimental[k])
              && !IsEap(c.experimental[k], trusted) && IsExperimental(c.experimental[k])
    ensures forall k :: 0 <= k < |instances| && HasRef(instances[k]) && !IsEap(instances[k], trusted)
                        && IsExperimental(instances[k]) ==>
              instances[k] in c.experimental
    ensures forall k :: 0 <= k < |c.eap| ==> c.eap[k] !in c.experimental
    ensures c.experimental == Filter(c.nonEap, IsExperimental)
  {
    var published := Filter(instances, HasRef);
    var parts := Partition(published, (i: InstanceSpec) => IsEap(i, trusted));
    var experimental := Filter(parts.1, IsExperimental);
    ClassifyFindsExperimental(instances, published, parts.1, experimental, trusted);
    Classification(parts.0, parts.1, experimental)
  }

  lemma ClassifyFindsExperimental(instances: seq<InstanceSpec>, published: seq<InstanceSpec>,
                                  nonEap: seq<InstanceSpec>, experimental: seq<InstanceSpec>, trusted: seq<string>)
    requires published == Filter(instances, HasRef)
    requires forall k :: 0 <= k < |published| && !IsEap(published[k], trusted) ==> published[k] in nonEap
    requires experimental == Filter(nonEap, IsExperimental)
    ensures forall k :: 0 <= k < |instances| && HasRef(instances[k]) && !IsEap(instances[k], trusted)
                        && IsExperimental(instances[k]) ==>
              instances[k] in experimental
  {
    forall k | 0 <= k < |instances| && HasRef(instances[k]) && !IsEap(instances[k], trusted) && IsExperimental(instances[k])
      ensures instances[k] in experimental
    {
      var x := instances[k];
      InFilter(x, instances, HasRef);
      var j :| 0 <= j < |published| && published[j] == x;
      assert !IsEap(published[j], trusted);
      assert x in nonEap;
      InFilter(x, nonEap, IsExperimental);
    }
  }

  /** What `displayWarningsForDeploy` logs and returns. */
  datatype DeployWarnings = DeployWarnings(
    experimentalList: Option<string>,
    eapList: Option<string>,
    warned: bool)

  function ExperimentalLine(i: InstanceSpec): string
  {
    "\t" + i.summary
  }

  /** The experimental instances, one summary line each. */
  function ExperimentalListText(experimental: seq<InstanceSpec>): string
  {
    Join(seq(|experimental|, k requires 0 <= k < |experimental| => ExperimentalLine(experimental[k])), "\n")
  }

  /** The EAP instances, one list entry each. */
  function EapListText(eap: seq<InstanceSpec>): string
  {
    Join(seq(|eap|, k requires 0 <= k < |eap| => ListEntry(eap[k])), "\n")
  }

  /** `displayWarningsForDeploy(instancesToCreate)` after the registry lookups: the list of
      experimental instances, the list of EAP instances (each logged only when non-empty) and
      the result, which is true iff some published instance is untrusted or experimental. */
  function WarningsForDeploy(instances: seq<InstanceSpec>, trusted: seq<string>): (w: DeployWarnings)
    ensures w.warned <==> exists i :: i in instances && HasRef(i) && (IsEap(i, trusted) || IsExperimental(i))
    ensures w.warned <==> w.experimentalList.Some? || w.eapList.Some?
    ensures w.experimentalList.Some? <==> exists i :: i in instances && HasRef(i) && !IsEap(i, trusted) && IsExperimental(i)
    ensures w.eapList.Some? <==> exists i :: i in instances && HasRef(i) && IsEap(i, trusted)
  {
    var c := Classify(instances, trusted);
    var experimentalList := if |c.experimental| > 0 then Some(ExperimentalListText(c.experimental)) else None;
    var eapList := if |c.eap| > 0 then Some(EapListText(c.eap)) else None;
    ClassifyNonEmpty(instances, trusted);
    DeployWarnings(experimentalList, eapList, |c.experimental| > 0 || |c.eap| > 0)
  }

  /** Each list of the classification is non-empty exactly when some published instance
      belongs in it. */
  lemma ClassifyNonEmpty(instances: seq<InstanceSpec>, trusted: seq<string>)
    ensures |Classify(instances, trusted).experimental| > 0 <==>
              exists i :: i in instances && HasRef(i) && !IsEap(i, trusted) && IsExperimental(i)
    ensures |Classify(instances, trusted).eap| > 0 <==>
              exists i :: i in instances && HasRef(i) && IsEap(i, trusted)
  {
    var c := Classify(instances, trusted);
    if |c.experimental| > 0 {
      var i := c.experimental[0];
      assert i in instances && HasRef(i) && !IsEap(i, trusted) && IsExperimental(i);
    }
    if exists i :: i in instances && HasRef(i) && !IsEap(i, trusted) && IsExperimental(i) {
      var i :| i in instances && HasRef(i) && !IsEap(i, trusted) && IsExperimental(i);
      var k :| 0 <= k < |instances| && instances[k] == i;
      assert i in c.experimental;
    }
    if |c.eap| > 0 {
      var i := c.eap[0];
      assert i in instances && HasRef(i) && IsEap(i, trusted);
    }
    if exists i :: i in instances && HasRef(i) && IsEap(i, trusted) {
      var i :| i in instances && HasRef(i) && IsEap(i, trusted);
      var k :| 0 <= k < |instances| && instances[k] == i;
      assert i in c.eap;
    }
  }

  /** Local-source instances (without a `ref`) never cause a deploy warning. */
  lemma {:induction false} LocalInstancesNeverWarn(instances: seq<InstanceSpec>, local: seq<InstanceSpec>, trusted: seq<string>)
    requires forall k :: 0 <= k < |local| ==> local[k].ref.None?
    ensures WarningsForDeploy(instances + local, trusted).warned == WarningsForDeploy(instances, trusted).warned
  {
    var both := instances + local;
    if WarningsForDeploy(both, trusted).warned {
      var i :| i in both && HasRef(i) && (IsEap(i, trusted) || IsExperimental(i));
      assert i in instances;
    }
    if WarningsForDeploy(instances, trusted).warned {
      var i :| i in instances && HasRef(i) && (IsEap(i, trusted) || IsExperimental(i));
      assert i in both;
    }
  }
}
