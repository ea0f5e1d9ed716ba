/**
 The values of the factory's world: the On Demand Pod record, the templates and
 Pods it works with, and the result codes (internal/factory/factory.go).
 */
module Records {
  import opened Wrappers

  const CREATING := -1
  const READY := 0
  const LDAP_ERROR := 1
  const TEMPLATE_ERROR := 2
  const TOKEN_ERROR := 3
  const K8S_ERROR := 4
  const NOT_AUTHORISED_ERROR := 5

  const ANN_USER_NAME := "com.ericsson.odp.username"
  const ANN_APPLICATION := "com.ericsson.odp.application"
  const ANN_ACCESS_GROUPS := "com.ericsson.odp.accessgroups"
  const ANN_TOKEN := "com.ericsson.odp.token"
  const LBL_POD := "com.ericsson.odp.pod"

  const NOT_AUTHORISED := "user not authorized for requested application"

  // The clock counts nanoseconds, as Go's time.Time does.
  const SECOND := 1_000_000_000
  const DELETED_TTL := 300
  const CREATE_QUEUE_SIZE := 100

  type Strings = map<string, string>

  datatype Param = Param(username: string, application: string, requestData: Strings,
                         tokenTypes: seq<string>, instanceID: string, profile: string)

  /** The record kept for one On Demand Pod. `errorTime` is None when the Go time is zero,
      `error` when the Go error is nil: the source writes and tests them separately. */
  datatype Odp = Odp(
    username: string, application: string, requestData: Strings, tokenTypes: seq<string>, profile: string,
    podName: string, tokenData: Strings, tokenName: string,
    resultCode: int, podIPs: seq<string>,
    error: Option<string>, errorTime: Option<int>)

  datatype Template = Template(configMapName: string, application: string, accessGroups: seq<string>,
                               data: Strings, podTemplate: Option<string>)

  datatype UserInfo = UserInfo(username: string, userAttr: Strings, groups: string, memberOf: seq<string>)

  datatype Token = Token(name: string, data: Strings)

  /** What a template is executed with. */
  datatype TemplateData = TemplateData(
    application: string, userName: string, tokenName: string, tokenData: Strings, configData: Strings,
    requestData: Strings, ldapUserAttr: Strings, ldapGroups: string, podName: string, profile: string)

  /** What rendering a template yields: the Pod's metadata and everything else (`body`). */
  datatype PodSpec = PodSpec(labels: Strings, annotations: Strings, body: string)

  /** The Pod handed to Kubernetes. */
  datatype NewPod = NewPod(name: string, labels: Strings, annotations: Strings, body: string)

  datatype Phase = Pending | Running | Succeeded | Failed | Unknown

  /** A Pod as the informer's store shows it. */
  datatype Pod = Pod(uid: string, annotations: Strings, phase: Phase, ips: seq<string>, failureReason: string)

  predicate Finished(pod: Pod) {
    pod.phase.Failed? || pod.phase.Succeeded?
  }

  function Requested(podName: string, p: Param): Odp {
    Odp(p.username, p.application, p.requestData, p.tokenTypes, p.profile, podName,
        map[], "", CREATING, [], None, None)
  }

  function Rediscovered(podName: string): Odp {
    Odp("", "", map[], [], "", podName, map[], "", CREATING, [], None, None)
  }

  function SetError(r: Odp, now: int, message: string, code: int): Odp {
    r.(error := Some(message), errorTime := Some(now), resultCode := code)
  }

  predicate ErrorExpired(r: Odp, now: int, errorTTL: int) {
    r.errorTime.Some? && now - r.errorTime.value > errorTTL * SECOND
  }

  predicate AccessAllowed(t: Template, u: UserInfo) {
    exists g :: g in t.accessGroups && g in u.memberOf
  }

  /** The data for a template (factory.go:423-434). */
  function DataFor(t: Template, u: UserInfo, r: Odp): TemplateData {
    TemplateData(r.application, r.username, r.tokenName, r.tokenData, t.data, r.requestData, u.userAttr, u.groups,
                 r.podName, r.profile)
  }

  /** The Pod built from a rendered template and its record (factory.go:348-370). */
  function Decorate(spec: PodSpec, r: Odp): NewPod {
    var named := spec.annotations[ANN_USER_NAME := r.username][ANN_APPLICATION := r.application];
    NewPod(r.podName, spec.labels[LBL_POD := "true"],
           if r.tokenName != "" then named[ANN_TOKEN := r.tokenName] else named, spec.body)
  }

  /** The record after its fields were read back from a Pod's annotations (factory.go:465-473). */
  function Restored(r: Odp, a: Strings): Odp {
    r.(username := if ANN_USER_NAME in a then a[ANN_USER_NAME] else r.username,
       application := if ANN_APPLICATION in a then a[ANN_APPLICATION] else r.application,
       tokenName := if ANN_TOKEN in a then a[ANN_TOKEN] else r.tokenName)
  }
}
