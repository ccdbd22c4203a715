# Call settings: a verified model

This project models the call-settings component of the oFono telephony daemon
(`src/call-settings.c`). Each modem has one such component. It caches five
caller-identification settings:

- CLIP, calling-line presentation;
- COLP, called-line presentation;
- COLR, called-line restriction;
- CLIR, the calling-line restriction status of the network;
- the user's CLIR override, which is the `HideCallerId` property.

It emits `PropertyChanged` only when a cached value really changes. It admits at
most one outstanding request (the pending message) and answers every other
request with Busy. It serves four entry points:

- `GetProperties`, an aggregate fetch colr → colp → clip → clir that skips driver
  operations the modem lacks and absorbs errors of single steps, with a CACHED flag;
- `SetProperty("HideCallerId", …)`, which sets the override and then re-queries it
  to confirm;
- the supplementary-service handler for codes "30", "76" and "77" (single-setting
  queries);
- the handler for code "31" (CLIR query, activation and deactivation). Its reply
  value combines the network status and the override.

Modules, leaves first:

- `Types` (types.dfy): the status enumerations, driver capabilities, replies and bus messages.
- `Strings` (strings.dfy): the status-to-string switches, the HideCallerId literal parser and the composite "31" value.
- `Store` (store.dfy): a snapshot of the five settings, the setter calls as values (`Apply`, `Signals`) and their properties.
- `Admission` (admission.dfy): the decision every entry point takes before any driver call (decline, immediate error, cached answer, or start), and the control codes that get bound.
- `FetchChain` (fetch.dfy): the aggregate fetch as a step-indexed state machine on values (`FetchFrom`, `Fetch`). The lemmas state its order, skipping, error absorption, CACHED rule and single reply.
- `CallSettings` (callsettings.dfy): the class `CallSettingsData`, whose fields the handlers and driver callbacks update in place. Each source callback is one method. The field `awaiting` names the callback the driver will call next. A ghost log `outbox` records every reply and signal in order. `FetchRound` runs `GetProperties` and then the fetch's driver completions one at a time, and is proved to end in `FetchChain.Fetch`.

Modelling choices:

- The enumerations come from headers that are not part of this model. They are
  datatypes whose constructors follow the numeric order the source relies on:
  status 2 is "unknown" (src/call-settings.c:227-231), and the override options
  are DEFAULT = 0, INVOCATION = 1, SUPPRESSION = 2 (779-784).
- The supplementary-service control types are assumed to be ordered activation,
  deactivation, query, registration, erasure. So the zero-initialised `ss_req_type`
  is Activation.
- The supplementary-service reply carries that type as its tag, not as a string.
  `ss_control_type_to_string` is not part of this model.
- Driver results are inputs. Each callback method takes a `DriverResult`, which is
  either an error or the reported values.
- The presence of each driver operation is a `DriverOps` record.
- The source assumes that a driver with `clir_set` also has `clir_query`
  (766-767, and 443 without a check). This is a precondition of the constructor
  and part of `Valid()`.
- The three `clip/colp/colr_status_to_string` switches are identical. They are
  one function, `StatusToString`, over one status type.
- `g_timeout_add(0, query_next)` in the fetch callbacks becomes a direct call of
  the next step.
- The `&` in the temporary-CLIR test (468) acts on 0/1 values and is modelled as `&&`.

Quirks kept exactly as the source has them:

- The "31" reply spells the unknown status `"uknown"` (398).
- The COLR reply of code "77" uses the context `"CallingLineRestriction"` (312).
- The "30"/"76"/"77" handler never writes `ss_req_type`. Its reply tag is whatever
  the last "31" request left there (Activation initially).
- It writes `call_setting_type` before it validates the arguments (346-353).
- Its busy check comes before the code match (338 vs. 345).
- The "31" handler checks busy before it declines the temporary form (460 vs. 468).
- `GetProperties` shows CLIR through `clir_status_to_string`, as "disabled",
  "permanent", "on", "off" or "unknown" (571), not through the composite table.
  A full fetch that reports temporarily-restricted with suppression therefore
  shows `CallingLineRestriction` "on" and `HideCallerId` "disabled"
  (`FetchExample`), while the "31" composite value for the same state is
  "enabled".
- When the driver has none of the four queries, the fetch replies with the cached
  values (611-619).

## Model

| member | source | states |
|---|---|---|
| Strings.StatusToString | src/call-settings.c:68-102 | provisioned is shown as "enabled", not provisioned as "disabled", unknown as "unknown", each in both directions |
| Strings.HideCallerIdToString | src/call-settings.c:104-116 | the override is shown as "default", "enabled" (invocation) or "disabled" (suppression), each in both directions |
| Strings.ParseHideCallerId | src/call-settings.c:779-787 | a HideCallerId literal is accepted exactly when it is "default", "enabled" or "disabled" |
| Strings.HideCallerIdRoundTrip | src/call-settings.c:779-787 | parsing the shown override gives it back, and an accepted literal is the override's display string |
| Strings.ClirStatusToString | src/call-settings.c:118-132 | each of the five network statuses has its own string: disabled, permanent, on, off, unknown |
| Strings.DisplayInjective | src/call-settings.c:68-132 | each display mapping gives different strings for different values |
| Strings.CompositeClirValue | src/call-settings.c:396-422 | the "31" value is "uknown" exactly for an unknown network status. It is "enabled" exactly for permanent, for temporarily restricted with suppression, and for temporarily allowed with invocation. Otherwise it is "disabled" |
| Strings.CompositeOverrideRelevance | src/call-settings.c:401-421 | the override does not matter for the three fixed network statuses. In the two temporary modes the value changes exactly when the relevant override changes |
| Store.Signals | src/call-settings.c:134-216 | a setter emits no signal exactly when the settings stay as they were. Otherwise it emits one PropertyChanged with the property's name and new display string |
| Store.ApplyChangesOneProperty | src/call-settings.c:134-216 | a setter changes what its own property shows to the new string, and no other property |
| Store.ReassertIsSilent | src/call-settings.c:134-216 | repeating a setter call with the same value changes nothing and emits nothing |
| Store.SignalAgreesWithDisplay | src/call-settings.c:134-216 | the value a signal carries is the value the properties reply would now show |
| Store.DisplayShowsUpdate | src/call-settings.c:559-576 | the properties reply shows, at a setter's property, that setter's announced pair exactly when the setter would change nothing |
| Store.Apply | src/call-settings.c:134-216 | after a setter call the field holds the value, and the settings change exactly when the field held another value |
| Store.DisplayedDeterminesSettings | src/call-settings.c:559-576 | two settings snapshots with the same properties dictionary are equal |
| Admission.SettingOfCode | src/call-settings.c:345-355 | "30" selects CLIP, "76" COLP and "77" COLR; every other code selects nothing |
| Admission.SsQueryAdmission | src/call-settings.c:338-378 | Busy exactly when busy, before the code is looked at. On an idle modem an unknown code is declined. For a known code, anything but a query with all arguments empty gives InvalidFormat. A well-formed query gives NotImplemented when its driver operation is missing, and starts exactly when it is present |
| Admission.ClirSetRequest | src/call-settings.c:490-510 | activation and registration ask for invocation with the tag Activation. Deactivation and erasure ask for suppression with the tag Deactivation |
| Admission.ClirSsAdmission | src/call-settings.c:457-513 | a code other than "31" is declined. Busy comes next, even for the temporary form. The temporary form is declined. Any other non-empty argument gives InvalidFormat. A missing clir_query (query) or clir_set (other types) gives NotImplemented. Otherwise the matching query or set starts |
| Admission.GetPropertiesAdmission | src/call-settings.c:711-722 | busy gives Busy. Otherwise CACHED means an answer from the cache, and no CACHED means the fetch starts |
| Admission.SetPropertyAdmission | src/call-settings.c:770-834 | Busy exactly when busy. On an idle modem: InvalidArgs exactly when the call is not a property name followed by a variant, or the name is not HideCallerId. InvalidFormat exactly when the variant holds no string, or clir_set is present and the literal is not accepted. NotImplemented exactly when a HideCallerId string arrives without clir_set. Otherwise the set starts, and the requested literal is the display string of the option set |
| Admission.HideCallerIdArgument | src/call-settings.c:808-828 | a value is read only from a call whose first two arguments are the name "HideCallerId" and a variant holding that string |
| Admission.HideCallerIdArgumentDecodes | src/call-settings.c:808-828 | every call of that shape, with or without further arguments, is read back as its string |
| Admission.Dispatch | src/call-settings.c:515-525 | a "31" request is decided by the CLIR handler and every other bound code by the single-setting handler |
| Admission.SsBindings | src/call-settings.c:515-525 | "30", "31" and "76" are always bound and "77" only with colr_query. "31" goes to the CLIR handler and the others to the single-setting handler |
| Admission.BoundCodesAreHandled | src/call-settings.c:515-525 | a bound code is declined only in the temporary "31" form, and a bound "77" never meets a missing COLR query |
| Admission.BusyRejectsEveryRequest | src/call-settings.c:338-343 | while a request is pending, GetProperties, SetProperty and both handlers (for their codes) answer Busy whatever the request, as also at 460-465, 711-712 and 805-806 |
| Admission.ClirSetTypes | src/call-settings.c:490-510 | a well-formed "31" set starts exactly the override set its control type names |
| FetchChain.NextPresent | src/call-settings.c:606-703 | the next step that runs is the first step from k on whose query is present, or none |
| FetchChain.SkipAbsent | src/call-settings.c:643-698 | the fetch from a step whose query is absent behaves exactly like the fetch from the next present step |
| FetchChain.NothingPresentReplies | src/call-settings.c:611-619 | with no query left, the fetch replies at once with the cached values |
| FetchChain.FetchRepliesOnce | src/call-settings.c:583-703 | the fetch keeps the earlier log and adds only signals, then exactly one properties reply to the pending message that shows the final settings |
| FetchChain.FetchFromFields | src/call-settings.c:583-703 | after the fetch from step k, each later field takes its answer if its query is present and succeeds, and keeps its value otherwise. CACHED becomes set exactly when the CLIR query is present and succeeds |
| FetchChain.Fetch | src/call-settings.c:583-723 | the whole fetch keeps the earlier log, sends only signals and then one properties reply to the pending message showing the final settings. A field whose query is absent or fails keeps its value, a field whose query succeeds takes the answer, and CACHED is set exactly by a successful CLIR query |
| FetchChain.StepOrder | src/call-settings.c:627-688 | each status step adds its own signal, if any, before everything the later steps add |
| FetchChain.MissingColpSkipped | src/call-settings.c:664-672 | a driver without the COLP query leaves COLP as cached, and what it would have answered does not matter |
| FetchChain.FetchExample | src/call-settings.c:559-576 | a full fetch of (COLR not provisioned, COLP provisioned, CLIP unknown, CLIR temporarily restricted with suppression) sets CACHED and replies unknown, enabled, disabled, "on", "disabled" |
| CallSettings.SsContext | src/call-settings.c:296-313 | a CLIP reply says "CallingLinePresentation", a COLP reply "CalledLinePresentation" and a COLR reply "CallingLineRestriction", each in both directions |
| CallSettings.CallSettingsData.constructor | src/call-settings.c:218-234 | a new modem has every status unknown, the default override, CACHED clear, nothing pending, a zero request tag and a zero setting type |
| CallSettings.CallSettingsData.SetClirNetwork | src/call-settings.c:134-149 | writes the network status and logs the change signal as Signals says, touching nothing else |
| CallSettings.CallSettingsData.SetClirOverride | src/call-settings.c:151-165 | the same for the override (HideCallerId) |
| CallSettings.CallSettingsData.SetClip | src/call-settings.c:167-182 | the same for CLIP (CallingLinePresentation) |
| CallSettings.CallSettingsData.SetColp | src/call-settings.c:184-199 | the same for COLP (CalledLinePresentation) |
| CallSettings.CallSettingsData.SetColr | src/call-settings.c:201-216 | the same for COLR (CalledLineRestriction) |
| CallSettings.CallSettingsData.ClipColpColrSs | src/call-settings.c:325-379 | returns handled as SsQueryAdmission decides. A rejection sends its error and leaves the settings, pending and the flags unchanged. A start makes the message pending and waits for the query. The setting type changes as soon as a known code is matched on an idle modem. The request tag never changes |
| CallSettings.CallSettingsData.SsQueryDone | src/call-settings.c:280-323 | an error replies Failed and changes nothing. A success first runs the setter, then replies with the context, the current tag and the status string |
| CallSettings.CallSettingsData.ClirSsControl | src/call-settings.c:446-513 | returns handled as ClirSsAdmission decides. Declines and rejections change no field. A start sets the tag (Query, Activation or Deactivation) and the setting type CLIR, and waits for the query or for the set of the right override |
| CallSettings.CallSettingsData.ClirSsSetDone | src/call-settings.c:430-444 | an error replies Failed. A success always goes on to the CLIR query, and nothing is replied yet |
| CallSettings.CallSettingsData.ClirSsQueryDone | src/call-settings.c:381-428 | an error replies Failed and updates nothing. A success first replies with the composite value, then sets the network status and then the override |
| CallSettings.CallSettingsData.GetProperties | src/call-settings.c:705-723 | busy replies Busy and changes nothing. With CACHED it replies from the cache with no driver call and nothing pending. Otherwise the message becomes pending and the chain starts at the COLR step |
| CallSettings.CallSettingsData.QueryColr | src/call-settings.c:690-703 | asks the driver for the first present query from COLR on, or replies with the cached values if none is left |
| CallSettings.CallSettingsData.QueryColp | src/call-settings.c:664-677 | the same from COLP on |
| CallSettings.CallSettingsData.QueryClip | src/call-settings.c:638-651 | the same from CLIP on |
| CallSettings.CallSettingsData.QueryClir | src/call-settings.c:606-625 | asks the driver for the CLIR query, or without it replies with the cached values and clears the pending message |
| CallSettings.CallSettingsData.ColrFetched | src/call-settings.c:679-688 | applies the COLR answer, or nothing on an error, and goes on from the COLP step |
| CallSettings.CallSettingsData.ColpFetched | src/call-settings.c:653-662 | applies the COLP answer, or nothing on an error, and goes on from the CLIP step |
| CallSettings.CallSettingsData.ClipFetched | src/call-settings.c:627-636 | applies the CLIP answer, or nothing on an error, and goes on to the CLIR step |
| CallSettings.CallSettingsData.ClirFetched | src/call-settings.c:583-604 | a success sets the network status, then the override, then CACHED. Either way the properties reply clears the pending message |
| CallSettings.CallSettingsData.FetchRound | src/call-settings.c:583-723 | GetProperties followed by the fetch's completions ends with nothing pending, in exactly the state FetchChain.Fetch gives for the driver's answers |
| CallSettings.CallSettingsData.SetProperty | src/call-settings.c:796-834 | rejections send the error SetPropertyAdmission names and change nothing. A start makes the message pending and waits for the set of the parsed override |
| CallSettings.CallSettingsData.SetClir | src/call-settings.c:770-794 | NotImplemented without clir_set, checked before the literal. InvalidFormat for any other literal. Otherwise the set of the parsed override starts |
| CallSettings.CallSettingsData.ClirSetDone | src/call-settings.c:753-768 | an error replies Failed. A success asks for the confirming CLIR query and replies nothing yet |
| CallSettings.CallSettingsData.ClirSetQueryDone | src/call-settings.c:725-751 | a failed confirmation clears CACHED, replies Failed and leaves the settings as they were. A success sends an empty reply first, then sets the override and then the network status |

## Left out

- D-Bus marshalling and message lifetime: `generate_ss_query_reply` (246-278), the dictionary building in `generate_get_properties_reply` (539-581), `dbus_message_ref` and `dbus_gsm_pending_reply`. Replies are abstract values appended to the ghost log `outbox`; the properties reply carries the five (name, value) pairs in order.
- Interface registration and teardown (`ofono_call_settings_register`, `ofono_call_settings_unregister`, `call_settings_destroy`, `cs_unregister_ss_controls`, 236-244, 527-537, 849-898) and the external routing table behind `ss_control_register`. Only which codes get bound is modelled (`Admission.SsBindings`).
- Allocation failure in `call_settings_create` (222-225) and the `!cs` checks of the two handlers (335, 454): the object of the model always exists.
- Logging, and the driver transport itself: driver results are inputs to the callback methods.
- Main-loop scheduling: `g_timeout_add(0, …)` (635, 661, 687) becomes a direct call of the next step. Concurrency: there is none; callbacks are serialised events.
- Out-of-range numeric statuses from the driver: statuses are datatypes. The `default` branches of the switches at 75, 87, 99 and 129 are reached only by the unknown status; the one at 113 is reached by no override option.
- The `if (cs->pending)` checks at 599, 612 and 733 always hold in the model, because `Valid()` ties a pending message to every outstanding driver operation. The `default` branch at 315-319 is unreachable for the same reason: the model proves that a "30"/"76"/"77" query is never outstanding with setting type CLIR.
- A driver that never completes leaves the request pending forever. The model has no timeout, and neither has the source.
