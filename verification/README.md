# A verified model of the ODP factory

The ODP factory hands out On Demand Pods: a user asks for an application, and the factory looks the user
up in LDAP, checks the user's groups against the application's template, obtains a token, renders the
template, and creates a Pod in Kubernetes. It then follows the Pod's events until the Pod is finished, and
after a restart it finds its Pods again from their annotations. This project models the factory's
concurrent protocol and proves what holds in every run of it, for any number of concurrent callers,
workers and events, and any outcome of LDAP, the token service, template execution and Kubernetes.

The model has two levels. `Protocol.dfy` is a transition system: one step for each critical section and
one for each external call, a clock that never goes back, and a log of external calls. The theorems about
whole runs are about that system. `Factory.dfy` is the program's own form: objects for the factory and
its records, with the fields, maps and channel that the source overwrites, and one method for each step,
proved to do to the real fields exactly what the protocol's step says. `WorkQueue.dfy` and
`Controller.dfy` do the same for the controller that feeds the events, `RollingLog.dfy` for the log
appender. The Helm merges and the LDAP group query are loops proved against specification functions.

- `Records`, `Protocol`, `Factory`: the values, the steps, and the objects.
- `Coherence`, `Retention`, `Tombstones`, `Conservation`, `CreateOnce`, `Lookups`, `Pipeline`, `Identity`,
  `EmptyUsers`, `Tokens`, `TokenLoss`, `ReloadedTokens`, `Recovery`, `StrayTokens`, `Gauges`: what holds in
  every run of the protocol.
- `Provenance`, `TemplateInputs`, `Expiry`, `Handlers`: the protocol once more, told field by field instead
  of step by step. Which step last set each field of a record, where each value a template sees comes from,
  when exactly an error has lived long enough, and what a Pod event's handler does from first to last.
- `WorkQueue`, `Retries`, `Drain`, `Convergence`, `TemplateIndex`, `TemplateHistory`, `TemplateSync`,
  `Controllers`: the event queue and the template index.
- `RunTemplates`, `StoreRecovery`: the two sides together, in which ConfigMap a create run works with, and
  what a restarted factory makes of the store.
- `RollingLog`, `Tolerations`, `AggregatedMerge`, `UserGroups`, `Text`: the smaller algorithms.

Several properties one might expect do not hold of the code. Each has a witness, and the condition under
which it holds is proved to be exact:

- A create worker can find another record than the one that queued the name, so that one record gets two
  create runs and another none (`CreateOnce.StaleNameRunsTwice`); it finds the right one if and only if no
  step displaced that record before the lookup (`Lookups.LookupIsRight`), and a record has two runs if and only
  if two lookups found it (`Lookups.RunsTwice`).
- A token can be lost, neither deleted nor carried by a Pod, in two ways: rendering fails
  (`Tokens.RenderFailureKeepsToken`), or a second run on the record overwrites the token's name
  (`TokenLoss.OverwrittenTokenIsLost`). There is no third (`Tokens.LossHasTwoCauses`). A record gets several
  tokens if and only if several of its runs hold one (`Tokens.SeveralTokens`); which of them are lost is said
  exactly, for every history, by `TokenLoss.LostExactly`, and where one run holds a token by
  `Tokens.TokenIsLeftBehind`: rendering failed and no finished event came to the release since.
- A reload can find a token name that the record never had (`StrayTokens.TemplateTokenIsFound`); it finds
  the original if and only if there was one or the template names none (`Recovery.FoundTokenIsOriginal`).
- A Pod can be created for another user than the one looked up (`EmptyUsers.EmptyUserIsLookedUp`), if and
  only if the record's reload brings a user between the two (`EmptyUsers.PodCarriesTheUserLookedUp`); then
  the one looked up was the empty user (`EmptyUsers.NoOtherUser`).
- A run can come as far as executing a template that is not there (`RunTemplates.NilTemplateIsReached`), if
  and only if the ConfigMap it works with has no template key (`RunTemplates.RunWithoutPodTemplate`).
- The two template maps can differ (`TemplateHistory.MapsMayDiffer`); they are one throughout if and only
  if no event clashes with what they held before it (`TemplateHistory.MapsAgreeThroughout`).
- Several workers can leave a handler out of date (`Convergence.SeveralWorkersMayEndOutOfDate`); a drained
  queue is sure to be in sync if and only if there is one worker (`Convergence.OneWorkerExactly`).
- Two tolerations that differ can have one identifier if a value holds a comma
  (`Tolerations.CommaHidesAField`); without commas they have one if and only if they agree on effect, key,
  operator and value (`Tolerations.IdentifierIsFaithful`).
- Two users can get one Pod name (`Factory.InstanceTakesUsersName`), if and only if user and instance
  concatenate to one text for one application (`Factory.PodNamesAgree`).
- The group text of an empty search names one empty group (`UserGroups.TextAgreesWithList`), and merging
  service tolerations again multiplies items that share an identifier (`Tolerations.MergeAgain`); both
  conditions are exact.

`dafny verify dfyconfig.toml` checks the whole project.

## Model

| member | source | states |
|---|---|---|
| Factory.OdpFactory.constructor | internal/factory/factory.go:170-241 | a new factory has no records, tombstones or templates and an empty channel |
| Factory.PodNamesAgree | internal/factory/helpers.go:17-25 | two requests get one Pod name if and only if their applications are the same and user and instance concatenate to the same text, for a hash of fixed length that tells the two texts apart |
| Factory.InstanceTakesUsersName | internal/factory/helpers.go:17-25 | so one user's instance can have the name of another user's Pod |
| Factory.OnDemandPod.SetOdpError | internal/factory/helpers.go:27-33 | error, its time and the code are overwritten together, nothing else |
| Factory.OnDemandPod.IsOdpErrorExpired | internal/factory/helpers.go:35-49 | true exactly if an error was set more than errorTTL seconds before now |
| Factory.OnDemandPod.ReloadFields | internal/factory/factory.go:465-473 | in whatever order the annotations come, user, application and token name are those annotated, and stay where an annotation is missing |
| Factory.OdpFactory.GetOnDemandPod | internal/factory/factory.go:249-273 | hands out the record of the name if it is usable, else files exactly one fresh Creating record; nothing else changes |
| Factory.OdpFactory.CheckError | internal/factory/factory.go:276-289 | the name is to be sent exactly if this call made the record and it has no error yet |
| Factory.OdpFactory.SendName | internal/factory/factory.go:283 | the record's name joins the end of the channel, which holds at most 100 |
| Factory.OdpFactory.ReceiveName | internal/factory/factory.go:513 | a create worker takes the oldest name |
| Factory.OdpFactory.FindOdp | internal/factory/factory.go:514-522 | a create run starts on the record now filed under the name, or not at all |
| Factory.OdpFactory.FindOdpTemplate | internal/factory/factory.go:304-309 | the run takes the template of the record's application, or fails with TemplateError |
| Factory.OdpFactory.IsAccessAllowed | internal/factory/factory.go:387-415 | true exactly if an access group of the template is among the user's groups |
| Factory.OdpFactory.LookupUser | internal/factory/factory.go:311-331 | the run goes on only for a user found and allowed, and otherwise fails with LdapError or NotAuthorisedError |
| Factory.OdpFactory.CreateOdpToken | internal/factory/factory_token.go:11-25 | the record takes the token's name and data, or TokenError |
| Factory.OdpFactory.GetPodSpec | internal/factory/factory.go:417-461 | the template is executed with the data of its own ConfigMap, of the user looked up and of the record; the run goes on exactly if it rendered, and otherwise fails with TemplateError and keeps its token |
| Factory.OdpFactory.BuildPod | internal/factory/factory.go:348-370 | the Pod is the rendered template with the factory's label and annotations |
| Factory.OdpFactory.CreateTheOdp | internal/factory/factory.go:348-379 | the Pod handed to Kubernetes; a refusal sets K8sError |
| Factory.OdpFactory.DeleteOdpToken | internal/factory/factory_token.go:27-32 | after a refused Pod the deletion of the record's token name is asked for, even of an empty one, and the name stays |
| Factory.OdpFactory.HandlePodGone | internal/factory/factory_podevents.go:23-35 | only a record with an expired error is removed |
| Factory.OdpFactory.HandlePodEvent | internal/factory/factory_podevents.go:37-62 | a known name is handled, a buried Pod ignored, and an unknown Pod gets a new record to reload |
| Factory.OdpFactory.ReloadOdp | internal/factory/factory.go:463-475 | the token is read exactly if the reloaded record names one |
| Factory.OdpFactory.ReadOdpToken | internal/factory/factory_token.go:34-42 | the data is GetToken's answer, unchanged if that failed |
| Factory.OdpFactory.HandlePhase | internal/factory/factory_podevents.go:66-102 | a failed Pod sets K8sError, a succeeded one removes the name, a running one makes the record Ready without clearing an error, and no other phase changes anything |
| Factory.OdpFactory.HandlePodUpdate | internal/factory/factory_podevents.go:123-140 | Ready and the IPs of a running Pod, nothing in other phases |
| Factory.OdpFactory.StampDeleted | internal/factory/factory_podevents.go:104-106 | the Pod's UID is stamped with the time, after and apart from the removal of the name |
| Factory.OdpFactory.ReleaseToken | internal/factory/factory_podevents.go:111-112 | DeleteToken is called exactly if the record names a token |
| Factory.OdpFactory.ClearToken | internal/factory/factory_podevents.go:113 | only the token name is cleared |
| Factory.OdpFactory.DeletePodOf | internal/factory/factory_podevents.go:116 | the deletion of the event's own Pod is asked for |
| Factory.OdpFactory.SweepDeletedPods | internal/factory/factory.go:490-499 | in whatever order, exactly the expired stamps are removed |
| Factory.OdpFactory.HandleConfigMapEvent | internal/factory/factory_templateevents.go:67-89 | the factory takes the protocol's step for the event, and nothing but the two maps changes |
| Factory.OdpFactory.CreateOnDemandPod | internal/factory/factory.go:292-385 | a whole create run: its acts are a function of the old state and the services' answers, each carrying the answer it got, from the template to the end of the run, and the final state is that of the protocol after those acts |
| Factory.OdpFactory.HandleEvent | internal/factory/factory_podevents.go:15-121 | a whole Pod event: from its critical section over reload, phase, stamp and release to the deletion of the Pod; its acts are a function of the old state, the event and GetToken's answer, and the final state is that of the protocol after those acts |
| Factory.OdpFactory.UpdateTemplates | internal/factory/factory_templateevents.go:74-88 | a delete takes the name away, a ConfigMap that cannot be loaded changes nothing, and one that can is indexed under its name and its application |
| Factory.OdpFactory.GetOdpCounts | internal/factory/metrics.go:221-235 | the loop counts exactly the names of the gauge |
| Factory.OdpFactory.ReplyTo | internal/rest/rest.go:167-175 | in every reachable state the reply can read the error whenever it looks at the error time |
| Coherence.StepGrows | internal/factory/helpers.go:27-33 | every step keeps records coherent (error and error time together, codes -1 to 5, a code above 0 only with an error), never clears or moves back an error time, and forgets nothing |
| Coherence.RunGrows | internal/factory/factory.go:304-381 | the same between any two states of any run |
| Coherence.ReachableIsCoherent | internal/rest/rest.go:173-175 | an error time never comes without an error |
| Retention.StepRetains | internal/factory/factory_podevents.go:27-35 | a step keeps the record of a name if and only if it neither handles a Succeeded event for it nor replaces or removes an expired error |
| Retention.ErrorFreeIsRetained | internal/factory/factory.go:257-273 | over any run without a Succeeded event, a record without an error is neither removed nor replaced |
| Retention.ErroredIsRetained | internal/factory/helpers.go:35-49 | nor is an errored one until more than errorTTL seconds after its error |
| Retention.ErroredAnswers | internal/factory/factory.go:276-289 | until then it answers every request for its name, and nothing is queued for it |
| Retention.FirstRequestWins | internal/factory/factory.go:257-273 | the first request that finds no usable record makes exactly one fresh record, and later requests for the name make none while it has no error |
| Expiry.RequestReplacesExactly | internal/factory/factory.go:257-273 | a request for the name of a record with an error gets a fresh record, filed in its place and made from the request field by field, if and only if the error was set more than errorTTL seconds ago, and otherwise the old record |
| Expiry.GoneRemovesExactly | internal/factory/factory_podevents.go:23-35 | when the Pod is gone the name is removed under the same condition, and otherwise stays |
| Expiry.FiledExactly | internal/factory/helpers.go:35-49 | over any run a record stays filed under its name if and only if no Succeeded event of the name was acted on and no request for it, and no news that its Pod is gone, came more than errorTTL seconds after the error it then had |
| Tombstones.TombstoneLifetime | internal/factory/factory.go:482-502 | over any run, an entry not stamped again is there if and only if no sweep found it more than the TTL old, and it keeps its stamp |
| Tombstones.TombstoneSurvives | internal/factory/factory.go:482-502 | over any run an entry survives at least the TTL |
| Tombstones.TombstoneIsGoneInTime | internal/factory/factory.go:482-502 | with the last sweep at most an interval ago, no entry is older than the TTL and that interval |
| Tombstones.SilentExactly | internal/factory/factory_podevents.go:37-62 | over any run from a state without the name, no record is made for it and no handler is started on it if and only if there is no request for it and each event of a Pod of that name finds that Pod's tombstone |
| Tombstones.TombstoneSuppresses | internal/factory/factory_podevents.go:39-58 | over any run, as long as the UID has a tombstone, no event of the Pod makes a record or starts a reload, unless a request or another Pod brings the name back |
| Tombstones.TombstoneSuppressesForTTL | internal/factory/factory.go:482-502 | so it is for at least the TTL after the stamp |
| Conservation.HistoryConserves | internal/factory/factory.go:281-285 | the channel holds the names sent and not taken, in order; each requested record has one maker and its name is sent at most once, exactly if the maker has sent it |
| Conservation.RequestsBalance | internal/factory/factory.go:249-290 | records made by requests = names sent + sends pending + sends suppressed by an error; names sent = names taken + names waiting, at most 100 |
| Conservation.SendWaitsForRoom | internal/factory/factory.go:283 | in every history a name waits to be sent exactly while the channel holds 100 names |
| Lookups.LookupFindsItsRecord | internal/factory/factory.go:513-522 | a lookup finds the record that queued the name if and only if, since any time at which that record was filed, no Succeeded event was handled for the name and no expired error of it was replaced or removed |
| Lookups.LookupIsRight | internal/factory/factory.go:504-525 | the same for the whole time from insertion to lookup |
| Lookups.UndisturbedRunsOnce | internal/factory/factory.go:504-525 | if all lookups so far were undisturbed in that sense, every create run works on the record that queued its name and no record has two create runs |
| Lookups.NameWaitsTwice | internal/factory/factory.go:257-285 | a name is in the channel twice if and only if a record waiting under it was displaced and the name of a later record of the same name was sent as well |
| Lookups.RunsTwice | internal/factory/factory.go:504-525 | a record has two create runs if and only if two lookups found it, and of any two that did at least one was disturbed |
| Lookups.DisciplineLeavesUndisturbed | internal/factory/factory_podevents.go:82-102 | it is enough that no finished Pod is handled for a name between insertion and lookup |
| CreateOnce.EachRequestRunsOnce | internal/factory/factory.go:504-525 | then also names wait at most once, every lookup finds the record that queued the name, and no record has two create runs |
| CreateOnce.StaleNameRunsTwice | internal/factory/factory_podevents.go:97-102 | without that condition one record can get two create runs and another none |
| Provenance.RecordIsMade | internal/factory/factory.go:259-272 | every record was made by one request, from that request's parameters, or by one Pod event, empty but for the name |
| Provenance.FieldIsLastSet | internal/factory/factory.go:304-379 | in every history each field of each record holds what the last step that set it gave, or what the record was made with if none did |
| Provenance.AddressesAreLastShown | internal/factory/factory_podevents.go:123-130 | a record's addresses are those of the last Running event acted on for it, and none before the first |
| Provenance.ErrorIsLastFailure | internal/factory/helpers.go:27-33 | a record has an error if and only if a step has failed on it, and then the reason and the time of the last one that did |
| Provenance.CodeIsLastOutcome | internal/factory/factory.go:304-381 | a record is ready, code 0, only if the last step that set its code acted on a Running event, and has the code 1 to 5 of the failure if that was one; before either it is being created |
| Provenance.SentUnlessFailed | internal/factory/factory.go:276-289 | the call that made a record sends its name if and only if no step had failed on the record when it checked |
| TemplateInputs.TemplateSeesRequest | internal/factory/factory.go:417-434 | in every history the request data and profile a template sees are those of the request that made the record, or empty if a Pod event did, and the Pod name is the record's |
| TemplateInputs.TemplateSeesToken | internal/factory/factory.go:417-434 | the token name it sees is the one last given to the record, and the token data are those the token service last answered with, by whatever run or event |
| TemplateInputs.TemplateSeesOwner | internal/factory/factory.go:417-434 | the user and application it sees are those last read back from a Pod, or else the request's |
| TemplateInputs.TemplateSeesLookup | internal/factory/factory.go:417-434 | the attributes and groups it sees are those that the run's own lookup answered before, and the configuration is the template's own |
| TemplateInputs.TokenIsForRequestedTypes | internal/factory/factory_token.go:11-25 | a token is asked for with the types of the request that made the record |
| Handlers.HandlerFollowsPath | internal/factory/factory_podevents.go:62-121 | in every history the handler of a Pod event takes its steps in this order: reload and token for a record it made, the phase, and for a finished Pod the stamp if it succeeded, the release, the clearing of the token name if there was one, and the deletion of the Pod |
| Handlers.FinishedPodIsCleanedUp | internal/factory/factory_podevents.go:82-121 | when the handler of a finished Pod is done, a succeeded Pod's name was taken away and then its UID stamped with the time, and after that the deletion of the Pod that the event was about was asked for |
| Handlers.ReleasedIsCleared | internal/factory/factory_podevents.go:111-114 | a handler past the release and the clearing has cleared the record's token name if and only if the record named a token at the release |
| Handlers.DeletedPodHadFinished | internal/factory/factory_podevents.go:116 | whenever the deletion of a Pod is asked for, an event had shown the Pod of that name finished |
| Handlers.ReadyHasAddresses | internal/factory/factory_podevents.go:123-130 | a ready record has the addresses of a Pod of its name that an event showed running |
| Pipeline.HistoryTraces | internal/factory/factory.go:292-381 | in every run each create run has made exactly the calls of the stages it passed, in order, and nothing after its first failure but the token's release |
| Pipeline.CallsFollowAccessCheck | internal/factory/factory.go:311-373 | a token or Pod is created only after a successful lookup and a common group with the run's template, and the Pod comes from that same template |
| Pipeline.RunEndsWithItsCode | internal/factory/factory.go:304-381 | in every run, a create run that has failed has written exactly one error, in the stage that failed, with that stage's code and the time; one that has not failed has written none |
| Pipeline.DecorateIsFaithful | internal/factory/factory.go:348-370 | the Pod keeps all labels and annotations of the template but the factory's own keys |
| Pipeline.PodIsFaithful | internal/factory/factory.go:341-373 | in every run each Pod handed to Kubernetes is such a decoration of what was just rendered |
| Identity.CreatedForTheUserLookedUp | internal/factory/factory.go:311-370 | tokens and Pods are created, and the template rendered, for the record's user, who is the user looked up, on a template of the record's application |
| EmptyUsers.NoOtherUser | internal/factory/factory.go:311-370 | for every record, whoever was looked up and whoever a token or Pod was created for is the record's user, or the empty user if a Pod event made the record |
| EmptyUsers.PodCarriesTheUserLookedUp | internal/factory/factory.go:311-373 | the Pod that a run creates carries the user that the run looked up if and only if no reload in between brought the record a user |
| EmptyUsers.EmptyUserIsLookedUp | internal/factory/factory_podevents.go:53-64 | a run can look up the empty user on a record not yet reloaded and create its Pod for the user that the reload brings |
| Tokens.SeveralTokens | internal/factory/factory_token.go:11-25 | a record has got two tokens if and only if two of its create runs hold one |
| Tokens.LossHasTwoCauses | internal/factory/factory.go:331-381 | in every run, a token that is neither deleted nor carried by a Pod once its run is over was left by a failed rendering, or two runs of its record hold tokens |
| Tokens.TokenFate | internal/factory/factory.go:331-381 | where one run of the record holds a token: once the run is over, its deletion was attempted, or a Pod carries it, or rendering failed; in that last case the run made no Pod and the record still names the token, and after a refused Pod its deletion was attempted |
| Tokens.TokenIsLeftBehind | internal/factory/factory.go:331-381 | there, once the run is over, the token is neither deleted nor carried by a Pod if and only if rendering failed and no finished event has come to the release of the record's token since the token was obtained |
| Tokens.FinishedEventDeletes | internal/factory/factory_podevents.go:82-121 | there, the release of a finished event leaves the deletion attempted of the token that the record's run created |
| Tokens.ClearedDeletesNoMore | internal/factory/factory_podevents.go:111-114 | there, once the record's token name is cleared, and while no other run obtains a token for it, no further event deletes a token for it |
| TokenLoss.LostExactly | internal/factory/factory.go:331-381 | in every history, whatever runs there are on the record: a token is neither deleted nor carried since it was obtained if and only if no later release, clean-up or Pod creation of the record came while that token's name was the last one set, and none of its Pods was made, with no token name set, from a template that names it |
| TokenLoss.OverwrittenTokenIsLost | internal/factory/factory_token.go:11-25 | two runs on one record can obtain a token each, so that the first run ends with its Pod made and its own token neither deleted nor carried |
| TokenLoss.UndisturbedHoldsOnce | internal/factory/factory.go:504-525 | if all lookups were undisturbed, every record has one run at most that holds a token |
| TokenLoss.NamelessIsNeverReleased | internal/factory/factory_podevents.go:111-112 | only create runs ask for the deletion of a token with an empty name, so a finished event never releases one |
| Tokens.RenderFailureKeepsToken | internal/factory/factory.go:344-346 | a run whose template cannot be rendered ends with the token created and no deletion asked for |
| ReloadedTokens.ReloadedTokenFate | internal/factory/factory.go:463-480 | a record made by a Pod event, once reloaded, names the token found in the annotations, or none any more and that token's deletion was attempted |
| ReloadedTokens.FinishedEventDeletesFound | internal/factory/factory_podevents.go:82-121 | every finished event handled for it after its reload leaves that token's deletion attempted, once past the release |
| ReloadedTokens.SpentDeletesNoMore | internal/factory/factory_podevents.go:111-114 | once its token name is cleared, no further step deletes a token for it |
| StrayTokens.TemplateTokenIsFound | internal/factory/factory.go:366-369 | a record without a token gets a Pod whose template names one, and the record made from that Pod after a restart names it |
| Recovery.FoundTokenIsOriginal | internal/factory/factory.go:367-369 | a reload finds the original token name if and only if there was one or the template sets no token annotation of its own |
| Recovery.HistoryRecovers | internal/factory/factory_podevents.go:39-79 | at every moment of a recovery each record belongs to one Pod shown, and holds what the stage of its handler says |
| Recovery.RecoveryIsComplete | internal/factory/factory.go:463-480 | after events of unfinished Pods in any order, any number of times, there is exactly one record for each Pod shown, with its user, application and token name, GetToken's data, no error, and Ready exactly if the Pod was shown running, then with addresses it was shown running with, and otherwise with none |
| StoreRecovery.StoreIsRecovered | internal/factory/k8swatcher.go:85-117 | after a restart, with any number of Pod workers: once the queue has drained, the handlers have finished and no event of the Pod was dropped, there is exactly one record for the name if the Pod is in the store and none if not, with the fields of the record it was created from, no error, and Ready if the stored Pod is running; a ready record has addresses with which its Pod was handled as running |
| Gauges.GaugesPartition | internal/factory/metrics.go:221-235 | in every reachable state All = Creating + Ready + Errored = the number of records known |
| Gauges.GaugesFollowOutcomes | internal/factory/metrics.go:221-235 | a name is counted as being created if no step has set its record's code, as ready if the last that did acted on a Running event, and as errored if that was a failure |
| TemplateIndex.HandleConfigMapEventLoad | internal/factory/factory_templateevents.go:16-65 | in whatever order the data comes: a template exactly if both annotations are there and the template text, if any, parses; its access groups hold no comma and join with commas to their annotation, its data are the ConfigMap's but for the template text, and its application and Pod template are the ConfigMap's |
| TemplateIndex.StandsForOnce | internal/factory/factory_templateevents.go:16-65 | one template at most fits that description |
| TemplateHistory.ByNameIsLastLoad | internal/factory/factory_templateevents.go:67-89 | the map by name holds a template if and only if it is the last successful load of the ConfigMap since its last delete |
| TemplateHistory.ByApplicationIsLastLoad | internal/factory/factory_templateevents.go:67-89 | the map by application holds one if and only if it is the last load for the application, not followed by the delete of a ConfigMap then indexed under it |
| RunTemplates.RunHasLastLoad | internal/factory/factory.go:304-309 | in every run, the template a create run works with is the last one loaded for its record's application when it looked, not followed by the delete of a ConfigMap then indexed under it |
| RunTemplates.RunWithoutPodTemplate | internal/factory/factory_templateevents.go:16-65 | a create run's template has the application, access groups, data and text of the version of the ConfigMap it works with, and no Pod template if and only if that version has no template key |
| RunTemplates.NilTemplateIsReached | internal/factory/factory.go:436-441 | any ConfigMap with both annotations and no template key can bring an allowed user's run as far as executing it |
| TemplateHistory.StepRekeys | internal/factory/factory_templateevents.go:74-88 | an event leaves the two maps each other re-keyed if and only if it neither moves its ConfigMap from another application nor takes the application of another ConfigMap |
| TemplateHistory.MapsAgreeThroughout | internal/factory/factory_templateevents.go:67-89 | over any sequence of events the maps are each other re-keyed throughout if and only if no event clashes in that way |
| TemplateHistory.MapsAgree | internal/factory/factory_templateevents.go:67-89 | in particular if each ConfigMap keeps one application and no two share one |
| TemplateHistory.MapsMayDiffer | internal/factory/factory_templateevents.go:76-87 | a moved or shared application makes them differ |
| WorkQueue.StepKeepsWF | internal/factory/k8swatcher.go:182-233 | the queue never holds an item twice, no item is processed by two workers at once, retry counters stay between 0 and 5, and every key begins with the namespace, so the prefix can be cut off |
| WorkQueue.NoOvertaking | internal/factory/k8swatcher.go:219-233 | over any run, an item in the queue moves up by exactly the items taken since, until it is taken itself |
| Retries.SixTriesAtMost | internal/factory/k8swatcher.go:200-217 | a retry counter is the number of failures in a row, and of the failed tries exactly the sixth in a row drops the item |
| Drain.StepShrinks | internal/factory/k8swatcher.go:200-233 | every step but a store change leaves less to do, by a measure over copies, retries left and positions |
| Drain.QuietRunsAreShort | internal/factory/k8swatcher.go:200-233 | with no new informer event, a run under any scheduling of failures, delays and successes has at most as many steps as there was to do at its start |
| Drain.SomethingToDo | internal/factory/k8swatcher.go:219-233 | such a step is possible if and only if the queue is not drained: it never gets stuck |
| Convergence.DrainedIsInSync | internal/factory/k8swatcher.go:85-117 | with one worker, once drained, what was handled last under a key is the object now stored, or its absence, unless the key's last event was dropped |
| Convergence.DrainedHasMetAll | internal/factory/k8swatcher.go:182-198 | with any number of workers, once drained, the object now stored was handled at some time, unless an event of its key was dropped |
| Convergence.SeveralWorkersMayEndOutOfDate | internal/factory/k8swatcher.go:24-45 | with any number of workers above one and no failure at all, an older version can be handled last, as items are pairs of key and event type |
| Convergence.OneWorkerExactly | internal/factory/k8swatcher.go:24-45 | every drained state that can be reached is in sync, but for keys whose last event was dropped, if and only if there is one worker |
| TemplateSync.IndexFollowsLog | internal/factory/factory_templateevents.go:67-89 | the map by name follows what was handled last under each ConfigMap's key |
| TemplateSync.DrainedIndexFollowsStore | internal/factory/k8swatcher.go:85-117 | with the single ConfigMap worker, once drained, the map by name holds the load of the current version of each loadable ConfigMap and nothing for absent ones |
| TemplateSync.DrainedApplicationsFollowStore | internal/factory/factory.go:304-309 | if moreover no handled event clashed, the map by application holds the load of each loadable ConfigMap, and nothing but loads of ConfigMaps that are there |
| Controllers.Controller.AddOrUpdate | internal/factory/k8swatcher.go:92-105 | the object is stored and a create or update event announced |
| Controllers.Controller.Delete | internal/factory/k8swatcher.go:106-114 | the object is gone and a delete event announced |
| Controllers.Controller.Fetch | internal/factory/k8swatcher.go:182-197 | the handler gets the object as now stored, under its local name |
| Controllers.Controller.HandleErr | internal/factory/k8swatcher.go:200-217 | a failed item is put back, or dropped after five retries |
| Controllers.Controller.ProcessNextItem | internal/factory/k8swatcher.go:219-233 | taking, reading, handling or failing, and handing back one item |
| Controllers.Controller.DrainQueue | internal/factory/k8swatcher.go:170-174 | whichever worker goes on, takes an item, fails or succeeds, and whichever delay ends first, the loop ends with the queue drained, and with one worker every key in sync but those dropped last |
| RollingLog.FailureIsForEver | cmd/eric-odp-factory/rla.go:38-63 | a Write appends or its rotation fails, and after a failed rotation every later Write fails and touches no file |
| RollingLog.InFileIsRemainder | cmd/eric-odp-factory/rla.go:42-48 | of n = m * q + k entries, 1 <= k <= m, the log holds k |
| RollingLog.FilesAfterWrites | cmd/eric-odp-factory/rla.go:38-74 | after n entries the log holds exactly the last k, byte for byte, and if n > m the backup exactly the m entries before them |
| RollingLog.FailedRotationKeepsLog | cmd/eric-odp-factory/rla.go:53-74 | a failed rotation loses nothing, whatever is written later: the log stays in its file if closing or renaming failed, and is in the backup if creating the new file did |
| RollingLog.RollingLogAppender.New | cmd/eric-odp-factory/rla.go:19-32 | a new appender with an empty log, if the file can be created; the backup is untouched |
| RollingLog.RollingLogAppender.WriteEntry | cmd/eric-odp-factory/rla.go:38-51 | what one Write does to the object and its two files, and what it returns |
| Tolerations.GetIdentifier | charts/eric-odp-factory/templates/common/_tolerations-merge.tpl:69-83 | going through an item's keys in alphabetical order gives the identifier of its effect, key, operator and value |
| Tolerations.IdentifierIsFaithful | charts/eric-odp-factory/templates/common/_tolerations-merge.tpl:69-83 | for items without a comma in a value, identifiers are the same if and only if the items agree on effect, key, operator and value, present or not |
| Tolerations.CommaHidesAField | charts/eric-odp-factory/templates/common/_tolerations-merge.tpl:69-83 | with a comma in a value, items that differ can have one identifier |
| Tolerations.MergeTolerations | charts/eric-odp-factory/templates/common/_tolerations-merge.tpl:4-62 | the nested loops, with or without global tolerations, compute the merge; for items without a comma in a value the result holds exactly the service's items for the Pod and those global ones that no such item agrees with on effect, key, operator and value |
| Tolerations.MergeCounts | charts/eric-odp-factory/templates/common/_tolerations-merge.tpl:18-53 | each service item appears max(1, number of globals with its identifier) times as often as before, a global one exactly if no service item has its identifier |
| Tolerations.GlobalIsKeptUnlessOverridden | charts/eric-odp-factory/templates/common/_tolerations-merge.tpl:28-40 | a global item is kept if and only if no service item shares its identifier |
| Tolerations.IdentifiersAreUnion | charts/eric-odp-factory/templates/common/_tolerations-merge.tpl:18-53 | the identifiers of the result are those of both sides |
| Tolerations.DistinctMerge | charts/eric-odp-factory/templates/common/_tolerations-merge.tpl:18-53 | the result's identifiers are distinct if and only if each side's are |
| Tolerations.MergeAgain | charts/eric-odp-factory/templates/common/_tolerations-merge.tpl:18-53 | merging the same service list again gives the same multiset if and only if its identifiers are distinct |
| AggregatedMerge.Merge | charts/eric-odp-factory/templates/common/_aggregated-merge.tpl:28-61 | the nested loops, with the entries of a source in any order, compute the merge or fail |
| AggregatedMerge.MergedIsTheUnion | charts/eric-odp-factory/templates/common/_aggregated-merge.tpl:33-61 | it succeeds if and only if all values are strings and all sources agree on shared keys, and then is exactly the union |
| AggregatedMerge.OrderAndRepetitionDoNotMatter | charts/eric-odp-factory/templates/common/_aggregated-merge.tpl:33-61 | permuting or repeating sources changes neither success nor result |
| UserGroups.GroupsQuery | internal/userlookup/userlookup.go:242-255 | Groups and MemberOf for any search result: MemberOf holds the first value of the first attribute of each entry, empty where there is none |
| UserGroups.TextAgreesWithList | internal/userlookup/userlookup.go:242-255 | for values free of the separators, the names read from the text are MemberOf in order, if and only if the search found an entry |
| UserGroups.TextHoldsAllValues | internal/userlookup/userlookup.go:247-254 | for clean values and at least one entry, the text cut at ';' and ':' gives back the first value of every attribute of every entry |
| UserGroups.AccessByTextAgrees | internal/factory/factory.go:392-404 | then access decided from the text is access decided from the list, except with no entry and an empty access group |
| Text.SplitJoin | internal/userlookup/userlookup.go:251-254 | splitting undoes joining for pieces free of the separator |
| Text.JoinSplit | internal/factory/factory_templateevents.go:40 | joining undoes splitting for every text, and no piece holds the separator |

## Left out

- HTTP servers, JSON, TLS and certificate reloading, directory watching, signals, configuration and startup: I/O plumbing.
- Bodies of the LDAP, token-service and Kubernetes clients: their outcomes are parameters of the steps and their calls are logged. CreateToken and GetToken without an error are taken to return a token.
- Template execution, template parsing, YAML decoding and MD5: outcomes or parameters. The empty instance needs no case of its own: appending it changes nothing.
- A template without a Pod template: executing it dereferences nil and ends the process, which is not among the model's outcomes of a rendering; `RunTemplates.RunWithoutPodTemplate` says exactly when a run works with one.
- Data races inside a step: an error's three fields, the two maps of one ConfigMap event, and the fields one external answer changes are each written in one step.
- Numbers of create and Pod workers: any number may be active; the program's five are a special case.
- client-go's queue and informer are not part of the repository: the queue is modelled by its documented behaviour, delays as items that become ready at any time, the informer as a store that changes before the change is announced. Events with an object that has no key do not occur.
- Metrics other than the gauges over the records, latency stamps, logging, and the text of failure reasons and of merge failures: easy or textual.
- The final quoting loop of the annotation merge and the remaining Helm templates: string building. A service value of tolerations without a list for the Pod counts as an empty list.
- Identity.CreatedForTheUserLookedUp: for a record made by a Pod event, only if its template is for an application with a name; `EmptyUsers.NoOtherUser` and `EmptyUsers.PodCarriesTheUserLookedUp` say what holds of all records.
- Tokens.TokenFate: for tokens with a name of records made by a request and with at most one run that holds a token, as are `Tokens.TokenIsLeftBehind`, `Tokens.FinishedEventDeletes` and `Tokens.ClearedDeletesNoMore`; a second run on the same record overwrites the first run's token name, as the source does. `Tokens.SeveralTokens` says when that is, `TokenLoss.UndisturbedHoldsOnce` what rules it out, and `TokenLoss.LostExactly` what holds of all tokens with a name. Records made by Pod events never ask for a token, and `ReloadedTokens` is about the one they find.
- StoreRecovery.StoreIsRecovered: while the queue drains, no request comes and no Pod is deleted or finishes, as in `Recovery`.
- CreateOnce.EachRequestRunsOnce: the discipline is sufficient only; `Lookups.LookupIsRight` is exact.
- TemplateHistory.MapsAgree: one way only; `TemplateHistory.MapsAgreeThroughout` is exact.
- TemplateSync.DrainedIndexFollowsStore: a stored ConfigMap that cannot be loaded keeps whatever its earlier version left in the index, as in the source, so nothing is claimed of it.
- RollingLog.RollingLogAppender.WriteEntry: what a partial write of the operating system leaves in the file is the part it reports as written.
