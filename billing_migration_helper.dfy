/** The Node.js 10 billing notices shown when an extension is created or updated
    (src/extensions/billingMigrationHelper.ts). Logging and the confirmation prompt are
    effects: the model returns the notice text it would log and takes the user's answer
    as an input. */
module BillingMigrationHelper {
  import opened Wrappers
  import opened Errors

  /** `properties.runtime` of one resource of an extension. */
  datatype ResourceProperties = ResourceProperties(runtime: Option<string>)

  /** One resource of an extension; only its runtime property matters here. */
  datatype Resource = Resource(properties: Option<ResourceProperties>)

  /** The parts of an extension.yaml spec the notices look at. */
  datatype ExtensionSpec = ExtensionSpec(specVersion: Option<string>, resources: Option<seq<Resource>>)

  const DefaultSpecVersion: string := "v1beta"

  /** The runtime a resource gets when it names none, per spec version. */
  const DefaultRuntimes: map<string, string> := map["v1beta" := "nodejs8"]

  const UrlPricingExamples: string := "https://cloud.google.com/functions/pricing#pricing_examples"
  const UrlFaq: string := "https://firebase.google.com/support/faq/#extensions-pricing"

  const BillingMsgUpdate: string :=
    "This update includes an upgrade to Node.js 10 from Node.js 8, which is no"
    + " longer maintained. Starting with this update, you will be charged a"
    + " small amount (typically around $0.01/month) for the Firebase resources"
    + " required by this extension (even if it is not used), in addition to any"
    + " charges associated with its usage.\n\n"
    + "See pricing examples: **[" + UrlPricingExamples + "](" + UrlPricingExamples + ")**\n"
    + "See the FAQ: **[" + UrlFaq + "](" + UrlFaq + ")**\n"

  const BillingMsgCreate: string :=
    "You will be charged around $0.01/month for the Firebase resources"
    + " required by this extension (even if it is not used). Additionally,"
    + " using this extension will contribute to your project's overall usage"
    + " level of Firebase services. However, you'll only be charged for usage"
    + " that exceeds Firebase's free tier for those services.\n\n"
    + "See pricing examples: **[" + UrlPricingExamples + "](" + UrlPricingExamples + ")**\n"
    + "See the FAQ: **[" + UrlFaq + "](" + UrlFaq + ")**\n"

  /** `spec.specVersion || defaultSpecVersion`. */
  function SpecVersion(spec: ExtensionSpec): string
  {
    if Truthy(spec.specVersion) then spec.specVersion.value else DefaultSpecVersion
  }

  /** `defaultRuntimes[specVersion]`, absent for a version the table does not list. */
  function DefaultRuntime(spec: ExtensionSpec): Option<string>
  {
    var v := SpecVersion(spec);
    if v in DefaultRuntimes then Some(DefaultRuntimes[v]) else None
  }

  /** `spec.resources || []`. */
  function Resources(spec: ExtensionSpec): seq<Resource>
  {
    spec.resources.GetOr([])
  }

  /** `r.properties?.runtime || defaultRuntime`: an explicit, non-empty runtime wins. */
  function EffectiveRuntime(r: Resource, defaultRuntime: Option<string>): Option<string>
  {
    if r.properties.Some? && Truthy(r.properties.value.runtime) then r.properties.value.runtime
    else defaultRuntime
  }

  /** `resources.some(...)`: some resource's effective runtime is `runtime`. */
  function SomeHasRuntime(resources: seq<Resource>, defaultRuntime: Option<string>, runtime: string): (b: bool)
    ensures b <==> exists k :: 0 <= k < |resources| && EffectiveRuntime(resources[k], defaultRuntime) == Some(runtime)
  {
    if |resources| == 0 then false
    else
      EffectiveRuntime(resources[0], defaultRuntime) == Some(runtime)
      || SomeHasRuntime(resources[1..], defaultRuntime, runtime)
  }

  /** `hasRuntime(spec, runtime)`: true iff at least one resource of the spec runs on `runtime`. */
  function HasRuntime(spec: ExtensionSpec, runtime: string): (b: bool)
    ensures b <==> exists r :: r in Resources(spec) && EffectiveRuntime(r, DefaultRuntime(spec)) == Some(runtime)
  {
    var rs := Resources(spec);
    var b := SomeHasRuntime(rs, DefaultRuntime(spec), runtime);
    assert b ==> exists r :: r in rs && EffectiveRuntime(r, DefaultRuntime(spec)) == Some(runtime);
    assert (exists r :: r in rs && EffectiveRuntime(r, DefaultRuntime(spec)) == Some(runtime)) ==> b by {
      if r :| r in rs && EffectiveRuntime(r, DefaultRuntime(spec)) == Some(runtime) {
        var k :| 0 <= k < |rs| && rs[k] == r;
      }
    }
    b
  }

  /** A spec without resources runs on no runtime at all. */
  lemma NoResourcesNoRuntime(spec: ExtensionSpec, runtime: string)
    requires spec.resources.None? || spec.resources == Some([])
    ensures !HasRuntime(spec, runtime)
  {
  }

  /** With no spec version (or "v1beta"), a resource without an explicit runtime counts as nodejs8. */
  lemma ImplicitRuntimeIsNode8(spec: ExtensionSpec, r: Resource)
    requires !Truthy(spec.specVersion) || spec.specVersion == Some("v1beta")
    requires r in Resources(spec)
    requires r.properties.None? || !Truthy(r.properties.value.runtime)
    ensures HasRuntime(spec, "nodejs8")
  {
  }

  /** For a spec version the default table does not list, a resource without an explicit
      runtime matches no runtime string. */
  lemma UnknownSpecVersionHasNoDefault(spec: ExtensionSpec, runtime: string)
    requires Truthy(spec.specVersion) && spec.specVersion.value != "v1beta"
    requires forall r :: r in Resources(spec) ==> r.properties.None? || !Truthy(r.properties.value.runtime)
    ensures !HasRuntime(spec, runtime)
  {
  }

  /** An empty explicit runtime is the same as none: the default applies. */
  lemma EmptyRuntimeUsesDefault(defaultRuntime: Option<string>)
    ensures EffectiveRuntime(Resource(Some(ResourceProperties(Some("")))), defaultRuntime) == defaultRuntime
    ensures EffectiveRuntime(Resource(Some(ResourceProperties(None))), defaultRuntime) == defaultRuntime
    ensures EffectiveRuntime(Resource(None), defaultRuntime) == defaultRuntime
  {
  }

  /** Adding resources never turns a present runtime into an absent one. */
  lemma HasRuntimeMonotone(spec: ExtensionSpec, more: seq<Resource>, runtime: string)
    requires HasRuntime(spec, runtime)
    ensures HasRuntime(spec.(resources := Some(Resources(spec) + more)), runtime)
  {
    var r :| r in Resources(spec) && EffectiveRuntime(r, DefaultRuntime(spec)) == Some(runtime);
    assert r in Resources(spec) + more;
  }

  /** `displayNode10UpdateBillingNotice`: the message it logs, if any. */
  function UpdateBillingNotice(curSpec: ExtensionSpec, newSpec: ExtensionSpec): (notice: Option<string>)
    ensures notice.Some? <==> HasRuntime(curSpec, "nodejs8") && HasRuntime(newSpec, "nodejs10")
    ensures notice.Some? ==> notice.value == BillingMsgUpdate
  {
    if HasRuntime(curSpec, "nodejs8") && HasRuntime(newSpec, "nodejs10") then Some(BillingMsgUpdate) else None
  }

  /** What `displayNode10CreateBillingNotice` does: the message it logs, whether it asks for
      confirmation, and whether it completes or throws. */
  datatype CreateNotice = CreateNotice(notice: Option<string>, asked: bool, result: Result<(), FirebaseError>)

  /** `displayNode10CreateBillingNotice(spec, prompt)`; `confirmed` is the user's answer to
      "Do you wish to continue?", consulted only when the question is asked. */
  function CreateBillingNotice(spec: ExtensionSpec, prompt: bool, confirmed: bool): (c: CreateNotice)
    ensures c.notice.Some? <==> HasRuntime(spec, "nodejs10")
    ensures c.notice.Some? ==> c.notice.value == BillingMsgCreate
    ensures c.asked <==> HasRuntime(spec, "nodejs10") && prompt
    ensures c.result.Failure? <==> c.asked && !confirmed
    ensures c.result.Failure? ==> c.result.error == FirebaseError("Cancelled.", Some(2))
  {
    if !HasRuntime(spec, "nodejs10") then CreateNotice(None, false, Success(()))
    else if !prompt then CreateNotice(Some(BillingMsgCreate), false, Success(()))
    else if confirmed then CreateNotice(Some(BillingMsgCreate), true, Success(()))
    else CreateNotice(Some(BillingMsgCreate), true, Failure(FirebaseError("Cancelled.", Some(2))))
  }
}
