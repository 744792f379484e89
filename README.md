# Skupper grant-server auto-configuration and `link update`, modelled in Dafny

This project models two pieces of Skupper's Kubernetes controller and CLI.

**Grant-server auto-configuration** (`internal/kube/grants/autoconfigure.go`).
When the grant server starts with auto-configuration enabled, it:

1. reads its own pod;
2. copies the pod's owner references, re-derived to Kind, APIVersion, Name
   and UID only;
3. takes the pod's labels as a selector;
4. makes sure two objects exist in the namespace:
   - a signing `Certificate` named `skupper-grant-server-ca`;
   - an `https` `SecuredAccess` named `skupper-grant-server`, issued by that
     Certificate;
5. registers a watch on that SecuredAccess.

Each object goes through the same reconcile step:
- get it;
- create it if it is absent;
- otherwise copy the desired owner references and spec onto the fetched
  object, and update it only when something changed.

**`skupper link update`** (`internal/cmd/skupper/link/kube/link_update_test.go`,
whose table tests describe the command):
- input validation with its exact error texts;
- conversion of the flags into options;
- the update of the link;
- the wait for the link to reach the requested milestone (`ready`,
  `configured` or `none`).

Layout:

| file | module | contents |
|---|---|---|
| `wrappers.dfy` | `Wrappers` | `Option`, `Result` |
| `text.dfy` | `Text` | decimal digits; `strconv.Atoi` and its error texts; `%q`, `%v` of a string slice, `errors.Join`, `time.Duration.String` |
| `meta.dfy` | `Meta` | owner references, object metadata, status conditions and their lookup, API error texts |
| `store.dfy` | `Store` | the cluster as a map from (resource, namespace, name) to object, plus a per-call fault table and a log of every write issued; pure get/create/update, and the `Clients` class with methods proved equal to them |
| `reconcile.dfy` | `Reconcile` | the reconcile step as a pure store transition (`EnsureSpec`), the method that performs it (`Ensure`), and its idempotence and framing |
| `grants.dfy` | `Grants` | the `AutoConfigure` class, the two desired objects, `configure` as a pure transition with its lemmas, the event processor's watches, `newAutoConfigure` |
| `link_update.dfy` | `LinkUpdate` | the validator, the `CmdLinkUpdate` class (`ValidateInput`, `InputToOptions`, `Run`, `WaitUntil`), the polling specification and its lemmas, the test-table rows |

Each of these methods is proved equal to a pure function of the state it starts from:
- `Clients.Create` equals `CreateObject`;
- `AutoConfigure.Configure` equals `ConfigureSpec`;
- `CmdLinkUpdate.WaitUntil` equals `WaitSpec`.

The properties themselves are lemmas about those functions.

## Model

| member | source | states |
|---|---|---|
| Store.Clients.Get | internal/kube/grants/autoconfigure.go:25-28 | A read returns the object stored under the key. If none is stored it returns NotFound naming the resource and name. If the get call is set to fail it returns that failure. |
| Store.Clients.Create | internal/kube/grants/autoconfigure.go:44 | Every create is logged. It stores the object (namespace set, version 1) unless the call is set to fail or the name is taken. The error it returns says which of these happened. |
| Store.Clients.Update | internal/kube/grants/autoconfigure.go:61 | Every update is logged. It replaces the stored object and bumps its version, but only if the object exists, the version matches and the call is not set to fail. Otherwise it returns NotFound, Conflict or the failure. |
| Store.GetObject | internal/kube/grants/autoconfigure.go:42-48 | A get succeeds exactly when the call is not set to fail and the key is stored, and then returns the stored object. It reports NotFound exactly when the call is not set to fail and the key is absent. The errors are the injected fault's text, or else NotFound naming the resource and the object's name. |
| Store.Stored | internal/kube/grants/autoconfigure.go:44 | A created object is kept with its name, owner references and spec, at resource version 1. |
| Store.CreateObject | internal/kube/grants/autoconfigure.go:44 | A create is always logged and changes no fault entry. It succeeds exactly when the call is not set to fail and the name is free, and only then stores the object. A failure is the injected fault, or else AlreadyExists for the name. It keeps the store well formed. |
| Store.UpdateObject | internal/kube/grants/autoconfigure.go:61 | An update is always logged and changes no fault entry. It succeeds exactly when the call is not set to fail, the object exists and the resource versions match. Only then is the object replaced, with its version advanced. A failure is the injected fault, else NotFound, else Conflict for a stale version. It keeps the store well formed. |
| Reconcile.Merge | internal/kube/grants/autoconfigure.go:49-57 | The object sent in an update carries the desired owner references and spec. Everything else (type, name, namespace, labels, version, status) is as fetched. |
| Reconcile.MergeChangesIff | internal/kube/grants/autoconfigure.go:49-60 | The merged object differs from the fetched one exactly when the owner references or the spec differ. Both directions are proved. |
| Reconcile.EnsureSpec | internal/kube/grants/autoconfigure.go:41-63 | The reconcile step touches only its own name and issues at most one write. A failed get returns that error and writes nothing. An absent object gets exactly one create, of the desired object, and the step's outcome is that create's (`CreateObject`), its error returned unchanged. For a present object, nothing is written exactly when the references and spec already match; otherwise exactly one update of the merge is sent and the outcome is that update's (`UpdateObject`), its error returned unchanged. A failed step changes no object. On success the stored object carries the desired references and spec. |
| Reconcile.EnsureIdempotent | internal/kube/grants/autoconfigure.go:41-63 | After a successful reconcile, running it again with the same desired object writes nothing and returns no error. |
| Reconcile.EnsureFrame | internal/kube/grants/autoconfigure.go:41-63 | Reconciling one name leaves the get result of every other key unchanged. |
| Reconcile.EnsureWritesKey | internal/kube/grants/autoconfigure.go:41-63 | Every write the reconcile step issues is to the reconciled name. |
| Reconcile.Ensure | internal/kube/grants/autoconfigure.go:41-63 | The method's new store and returned error equal `EnsureSpec` of the old store. |
| Grants.Rederive | internal/kube/grants/autoconfigure.go:30-35 | A copied owner reference keeps Kind, APIVersion, Name and UID. It drops the controller and block-owner-deletion flags. |
| Grants.RederiveAll | internal/kube/grants/autoconfigure.go:29-36 | The copied references have the same length and order as the pod's, each one re-derived. |
| Grants.FromPod | internal/kube/grants/autoconfigure.go:24-39 | If the pod read fails, its error is returned and the settings are unchanged. Otherwise the re-derived owner references are appended to the existing ones and the selector becomes the pod's labels. |
| Grants.AutoConfigure.GetConfigurationFromPod | internal/kube/grants/autoconfigure.go:24-39 | The loop appends the pod's references one at a time. Its fields and error afterwards equal `FromPod` of the old fields and the store. |
| Grants.DesiredCertificate | internal/kube/grants/autoconfigure.go:94-110 | The Certificate is `skupper-grant-server-ca`, of type skupper.io/v2alpha1 Certificate. It carries the settings' owner references and subject `SkupperGrantServerCA`. It is signing, not client, not server, and has no CA and no hosts. |
| Grants.DesiredSecuredAccess | internal/kube/grants/autoconfigure.go:115-135 | The SecuredAccess is `skupper-grant-server`. Its issuer is the Certificate's name and its owner references are the Certificate's. It has the pod's selector, the configured TLS secret and exactly one port, `https`, on the configured port. The fields the source leaves unset are empty: the access type, the settings, and the port's target port and protocol. |
| Grants.AutoConfigure.EnsureCert | internal/kube/grants/autoconfigure.go:41-63 | The method performs the reconcile step for Certificates and equals `EnsureSpec` on them. |
| Grants.AutoConfigure.EnsureSecuredAccess | internal/kube/grants/autoconfigure.go:65-87 | The method performs the reconcile step for SecuredAccesses and equals `EnsureSpec` on them. |
| Grants.ConfigureSpec | internal/kube/grants/autoconfigure.go:89-140 | `configure` keeps the store well formed, changes no fault entry, and ends with the settings read from the pod. |
| Grants.AutoConfigure.Configure | internal/kube/grants/autoconfigure.go:89-140 | The method's new store, fields and error equal `ConfigureSpec` of the old store and fields. |
| Grants.ConfigurePodError | internal/kube/grants/autoconfigure.go:90-92 | A failed pod read aborts `configure` with that error, before any write. |
| Grants.ConfigureAccessStep | internal/kube/grants/autoconfigure.go:136-139 | Once the pod read and the Certificate step succeed, `configure`'s store and error are those of the SecuredAccess step, the error returned unchanged. |
| Grants.ConfigureCertError | internal/kube/grants/autoconfigure.go:111-113 | A failed Certificate step aborts with its error. Every write issued is to the Certificate; the SecuredAccess is never touched. |
| Grants.ConfigureWrites | internal/kube/grants/autoconfigure.go:89-140 | `configure` issues at most two writes, only to the two grant-server objects, and the Certificate's comes first. Earlier writes are kept. |
| Grants.ConfigureConverges | internal/kube/grants/autoconfigure.go:89-140 | After a successful `configure`, both objects are stored with the desired spec and the pod-derived owner references. |
| Grants.InitialSettings | internal/kube/grants/autoconfigure.go:143-151 | The starting settings take the port, TLS secret and pod name from the config. An empty TLS secret becomes `skupper-grant-server`. There are no owner references and no selector yet. |
| Grants.RestartWritesNothing | internal/kube/grants/autoconfigure.go:142-156 | A second auto-configuration against the store the first successful one left writes nothing. It gives the same result. |
| Grants.EventProcessor.WatchSecuredAccesses | internal/kube/grants/autoconfigure.go:155 | Registering the watch appends one SecuredAccess watch for the given name and namespace. |
| Grants.NewAutoConfigure | internal/kube/grants/autoconfigure.go:142-157 | On a `configure` error it returns no object and the error wrapped as "Error creating resources for grant server: ...", and registers no watch. Otherwise it returns a fresh `AutoConfigure` holding the configured settings, with no error, and one new watch on `skupper-grant-server` in the current namespace. The store is as `ConfigureSpec` leaves it. |
| Meta.FindCondition | internal/cmd/skupper/link/kube/link_update_test.go:434-462 | The lookup finds nothing exactly when no condition has the type. A found condition is in the list and has the type. |
| Meta.FindConditionFirst | internal/cmd/skupper/link/kube/link_update_test.go:434-462 | The condition found is the first one of that type. |
| Meta.FindConditionUnique | internal/cmd/skupper/link/kube/link_update_test.go:434-462 | When no two conditions share a type, the lookup finds the one entry of each type. |
| Text.NatToDigits | internal/cmd/skupper/link/kube/link_update_test.go:243 | The decimal rendering is non-empty, all digits and without a leading zero. |
| Text.DigitsRoundTrip | internal/cmd/skupper/link/kube/link_update_test.go:302 | Reading back the decimal rendering of a number gives that number. |
| Text.Atoi | internal/cmd/skupper/link/kube/link_update_test.go:142-188 | `strconv.Atoi` reports a syntax error exactly when the text is not an optionally signed run of digits. An error always carries the text it was given. A parsed value is within 64 bits and is negative exactly when the text has a `-` and a non-zero magnitude. |
| Text.AtoiFormatInt | internal/cmd/skupper/link/kube/link_update_test.go:299-302 | Parsing the decimal rendering of any 64-bit integer gives it back. |
| Text.FormatSeconds | internal/cmd/skupper/link/kube/link_update_test.go:243 | A rendered duration starts with a digit and ends in `s`. |
| Text.FormatSecondsRoundTrip | internal/cmd/skupper/link/kube/link_update_test.go:243 | Reading a rendered number of seconds back, group by group (hours, minutes, seconds, each digits then unit), gives that number. |
| Text.FormatDurationRoundTrip | internal/cmd/skupper/link/kube/link_update_test.go:243 | Reading back any rendered duration, negative ones included, gives the duration. |
| Text.FormatDurationInjective | internal/cmd/skupper/link/kube/link_update_test.go:243 | Distinct durations render as distinct texts. |
| Text.NumErrorMessageInjective | internal/cmd/skupper/link/kube/link_update_test.go:163 | The text of an `Atoi` error tells whether it is a syntax or a range error, and which text was parsed. |
| Meta.ErrorMessageInjective | internal/cmd/skupper/link/kube/link_update_test.go:67 | The text of an API error (not found, already exists, conflict) tells which error it is, on which resource and for which object name, for names without quote characters. |
| Text.FormatDurationExamples | internal/cmd/skupper/link/kube/link_update_test.go:243 | The timeout floor renders as `10s`, zero as `0s` and a minute as `1m0s`. |
| Text.Quote | internal/cmd/skupper/link/kube/link_update_test.go:67 | A quoted string is the text between two double quotes. |
| LinkUpdate.MessageInjective | internal/cmd/skupper/link/kube/link_update_test.go:18-283 | Every validation error has its own text: equal texts come from the same check on the same value. |
| LinkUpdate.SiteErrors | internal/cmd/skupper/link/kube/link_update_test.go:38-50 | The site error is reported exactly when the namespace has no site. |
| LinkUpdate.ArgumentErrors | internal/cmd/skupper/link/kube/link_update_test.go:52-140 | One error is reported for no argument and one for more than one. An unavailable link is reported for the single given name exactly when it is not in the namespace. |
| LinkUpdate.SecretErrors | internal/cmd/skupper/link/kube/link_update_test.go:190-212 | A TLS secret error is reported exactly when a non-empty secret name is missing from the namespace. |
| LinkUpdate.CostErrors | internal/cmd/skupper/link/kube/link_update_test.go:142-188 | A parse failure of the cost is reported with its cause. A parsed negative cost is reported as not positive. |
| LinkUpdate.TimeoutErrors | internal/cmd/skupper/link/kube/link_update_test.go:214-244 | A timeout under 10 seconds is reported, with the value given. |
| LinkUpdate.WaitErrors | internal/cmd/skupper/link/kube/link_update_test.go:246-269 | A non-empty wait status outside `ready`, `configured`, `none` is reported. |
| LinkUpdate.ValidationErrors | internal/cmd/skupper/link/kube/link_update_test.go:18-283 | Validation finds no error exactly when the input is acceptable. Acceptable means: a site exists, exactly one argument names an existing link, a named TLS secret exists, the cost parses and is not negative, the timeout is at least 10s, and the wait status is empty or one of the three. |
| LinkUpdate.ReportsNoSite | internal/cmd/skupper/link/kube/link_update_test.go:38-50 | The site error is in the joined list exactly when the namespace has no site. |
| LinkUpdate.ReportsEmptyName | internal/cmd/skupper/link/kube/link_update_test.go:94-116 | The empty-name error is in the joined list exactly when no argument is given. |
| LinkUpdate.ReportsTooManyArguments | internal/cmd/skupper/link/kube/link_update_test.go:118-140 | The too-many-arguments error is in the list exactly when more than one argument is given. |
| LinkUpdate.ReportsLinkUnavailable | internal/cmd/skupper/link/kube/link_update_test.go:52-92 | An unavailable-link error is in the list exactly for the single given name, and only when the namespace has no link of that name. |
| LinkUpdate.ReportsSecret | internal/cmd/skupper/link/kube/link_update_test.go:190-212 | The TLS secret error is in the list exactly for a named, missing secret. |
| LinkUpdate.ReportsCostSyntax | internal/cmd/skupper/link/kube/link_update_test.go:142-164 | The cost-parse error is in the list exactly when the cost fails to parse, and it carries that failure as its cause. |
| LinkUpdate.ReportsCostNegative | internal/cmd/skupper/link/kube/link_update_test.go:166-188 | The not-positive error is in the list exactly when the cost parses to a negative value. |
| LinkUpdate.ReportsTimeout | internal/cmd/skupper/link/kube/link_update_test.go:214-244 | The timeout error is in the list exactly for a value under the floor, and it carries that value. |
| LinkUpdate.ReportsWait | internal/cmd/skupper/link/kube/link_update_test.go:246-269 | The wait-status error is in the list exactly for a non-empty value that is not allowed. |
| LinkUpdate.NoSiteRow | internal/cmd/skupper/link/kube/link_update_test.go:38-50 | For a namespace without a site, the only error is the site error. |
| LinkUpdate.NoSiteText | internal/cmd/skupper/link/kube/link_update_test.go:49 | Its text is "there is no skupper site in this namespace". |
| LinkUpdate.LinkMissingRow | internal/cmd/skupper/link/kube/link_update_test.go:52-68 | For a namespace without the link, the only error is link `my-link` unavailable. |
| LinkUpdate.LinkMissingText | internal/cmd/skupper/link/kube/link_update_test.go:67 | Its text is "the link \"my-link\" is not available in the namespace: links.skupper.io \"my-link\" not found", stated as its three fixed parts in order. |
| LinkUpdate.SelectedLinkMissingRow | internal/cmd/skupper/link/kube/link_update_test.go:70-92 | For name `my` beside a link `my-link`, the only error is link `my` unavailable. |
| LinkUpdate.SelectedLinkMissingText | internal/cmd/skupper/link/kube/link_update_test.go:91 | Its text is "the link \"my\" is not available in the namespace: links.skupper.io \"my\" not found", stated as its three fixed parts in order. |
| LinkUpdate.EmptyNameRow | internal/cmd/skupper/link/kube/link_update_test.go:94-116 | With no argument, the only error is the empty-name error. |
| LinkUpdate.EmptyNameText | internal/cmd/skupper/link/kube/link_update_test.go:115 | Its text is "link name must not be empty". |
| LinkUpdate.TooManyArgumentsRow | internal/cmd/skupper/link/kube/link_update_test.go:118-140 | With two arguments, the only error is the too-many-arguments error. |
| LinkUpdate.TooManyArgumentsText | internal/cmd/skupper/link/kube/link_update_test.go:139 | Its text is "only one argument is allowed for this command". |
| LinkUpdate.CostSyntaxRow | internal/cmd/skupper/link/kube/link_update_test.go:142-164 | The cost `one` gives only a syntax error on `one`. |
| LinkUpdate.CostSyntaxText | internal/cmd/skupper/link/kube/link_update_test.go:163 | Its text matches the test's "link cost is not valid: strconv.Atoi: parsing ..." message. |
| LinkUpdate.CostNegativeRow | internal/cmd/skupper/link/kube/link_update_test.go:166-188 | The cost `-4` gives only the not-positive error. |
| LinkUpdate.CostNegativeText | internal/cmd/skupper/link/kube/link_update_test.go:187 | Its text is "link cost is not valid: value is not positive". |
| LinkUpdate.SecretMissingRow | internal/cmd/skupper/link/kube/link_update_test.go:190-212 | A missing TLS secret `secret` is the only error. |
| LinkUpdate.SecretMissingText | internal/cmd/skupper/link/kube/link_update_test.go:211 | Its text is "the TLS secret \"secret\" is not available in the namespace: secrets \"secret\" not found", stated as its three fixed parts in order. |
| LinkUpdate.TimeoutTooShortRow | internal/cmd/skupper/link/kube/link_update_test.go:214-244 | A zero timeout is the only error. |
| LinkUpdate.TimeoutTooShortText | internal/cmd/skupper/link/kube/link_update_test.go:243 | Its text is "timeout is not valid: duration must not be less than 10s; got 0s". |
| LinkUpdate.WaitStatusRow | internal/cmd/skupper/link/kube/link_update_test.go:246-269 | The wait status `created` is the only error. |
| LinkUpdate.WaitStatusText | internal/cmd/skupper/link/kube/link_update_test.go:268 | Its text is "status is not valid: value created not allowed. It should be one of this options: [ready configured none]", stated as its four fixed parts in order. |
| LinkUpdate.WaitStatusOptionsText | internal/cmd/skupper/link/kube/link_update_test.go:268 | The allowed wait statuses are listed as `[ready configured none]`. |
| LinkUpdate.CmdLinkUpdate.ValidateInput | internal/cmd/skupper/link/kube/link_update_test.go:270-283 | The method returns no error exactly when validation finds none. Otherwise it returns the errors joined one per line. It records the link name when exactly one argument is given. |
| LinkUpdate.CmdLinkUpdate.InputToOptions | internal/cmd/skupper/link/kube/link_update_test.go:285-324 | The cost becomes the parsed flag. The TLS credentials, timeout and wait status are the flags verbatim. |
| LinkUpdate.InputToOptionsRow | internal/cmd/skupper/link/kube/link_update_test.go:297-322 | Cost `1`, TLS credentials `secret`, a one-minute timeout and status `ready` become cost 1, `secret`, 60 seconds and `ready`. |
| LinkUpdate.CmdLinkUpdate.Run | internal/cmd/skupper/link/kube/link_update_test.go:326-396 | A client error is returned as it is. A missing link gives `links.skupper.io "<name>" not found`. Otherwise the link's cost is set, its TLS credentials are set when given, and nothing else in the namespace changes. |
| LinkUpdate.MilestoneCondition | internal/cmd/skupper/link/kube/link_update_test.go:398-575 | `none` waits for nothing, `ready` for the Ready condition and `configured` for the Configured condition. |
| LinkUpdate.Observe | internal/cmd/skupper/link/kube/link_update_test.go:412-553 | A read reports the link absent exactly when it is not in the namespace. Otherwise it reports True exactly when the awaited condition is there with status True, and False, with that condition's reason and message, exactly when its status is False. The read is undecided exactly when the link is absent, the condition is missing, or its status is Unknown. |
| LinkUpdate.Deadline | internal/cmd/skupper/link/kube/link_update_test.go:558-563 | A positive timeout in seconds is a deadline of that many whole seconds in milliseconds; a timeout that is not positive is already due. |
| LinkUpdate.PollCount | internal/cmd/skupper/link/kube/link_update_test.go:398-575 | The number of reads is the number of multiples of the interval up to the deadline, and at least one. |
| LinkUpdate.PollFrom | internal/cmd/skupper/link/kube/link_update_test.go:398-575 | Polling stops at the first decided read with its outcome, or makes every read and times out on an undecided last read. |
| LinkUpdate.WaitSpec | internal/cmd/skupper/link/kube/link_update_test.go:398-575 | The wait never reads more often than fits in the timeout. Every read happens before the deadline. There are no reads exactly when the status is `none`. |
| LinkUpdate.PollFromFirstTerminal | internal/cmd/skupper/link/kube/link_update_test.go:398-575 | The first read that finds the condition True or False decides the outcome, and no read follows it. |
| LinkUpdate.PollFromNoTerminal | internal/cmd/skupper/link/kube/link_update_test.go:412-433 | With no decided read, every read is made and the wait times out on the last one. |
| LinkUpdate.WaitNone | internal/cmd/skupper/link/kube/link_update_test.go:493-522 | `none` succeeds without reading. |
| LinkUpdate.WaitDecidedAtFirstRead | internal/cmd/skupper/link/kube/link_update_test.go:434-492 | A condition decided at the first read ends the wait after one read. It succeeds on True and fails with the reason and message on False. |
| LinkUpdate.PollFromSucceedsIff | internal/cmd/skupper/link/kube/link_update_test.go:398-575 | Polling succeeds exactly when some read finds the condition True and no earlier read finds it True or False. Both directions are proved. |
| LinkUpdate.WaitSucceedsIff | internal/cmd/skupper/link/kube/link_update_test.go:398-575 | For `ready` or `configured`, the wait succeeds exactly when, among the reads that fit in the timeout, some read finds the condition True before any read finds it decided. Both directions are proved. |
| LinkUpdate.FirstTerminalExists | internal/cmd/skupper/link/kube/link_update_test.go:523-553 | Before any read that finds the condition decided, there is a first such read. |
| LinkUpdate.WaitAbsentTimesOut | internal/cmd/skupper/link/kube/link_update_test.go:428-433 | A link that never appears uses every read and times out on its absence. |
| LinkUpdate.WaitUndecidedTimesOut | internal/cmd/skupper/link/kube/link_update_test.go:412-427 | A condition no read finds decided uses every read and times out on the last read. |
| LinkUpdate.WaitReadyRow | internal/cmd/skupper/link/kube/link_update_test.go:434-462 | A link whose Ready condition is True satisfies `ready` after one read. |
| LinkUpdate.WaitConfiguredRow | internal/cmd/skupper/link/kube/link_update_test.go:463-492 | A link whose Configured condition is True satisfies `configured` after one read. |
| LinkUpdate.WaitConfiguredFalseRow | internal/cmd/skupper/link/kube/link_update_test.go:523-553 | A link whose Configured condition is False fails `configured` after one read, with reason and message `Error`. |
| LinkUpdate.WaitNotConfiguredRow | internal/cmd/skupper/link/kube/link_update_test.go:412-427 | A link without conditions times out on `configured` after every read, with the condition missing. |
| LinkUpdate.WaitError | internal/cmd/skupper/link/kube/link_update_test.go:555-575 | The wait returns no error exactly when the outcome is success. |
| LinkUpdate.DeadlineReached | internal/cmd/skupper/link/kube/link_update_test.go:398-575 | The next tick passes the deadline exactly when the reads allowed are used up. |
| LinkUpdate.CmdLinkUpdate.WaitUntil | internal/cmd/skupper/link/kube/link_update_test.go:398-575 | The polling loop's error and number of reads equal `WaitSpec` for the command's status, link name and timeout. |

## Left out

- `internal/cmd/skupper/link/kube/link_update.go` is not part of this model. The command is modelled from its table tests, so these behaviours are decisions of the model:
  - the validation order is site, arguments, TLS secret, cost, timeout, wait status, joined one per line;
  - a cost of zero is accepted;
  - the link is looked up only when exactly one argument is given;
  - the TLS secret and the wait status are checked only when non-empty;
  - the 10-second timeout floor does not depend on the retry profile;
  - `WaitUntil` treats any status other than `ready` and `none`, including the empty one, as `configured`;
  - a False condition ends the wait as a failure;
  - `InputToOptions` keeps the previous cost when the flag does not parse;
  - `Run` always replaces the cost and replaces the TLS credentials only when given. The change is one replacement of the link in the namespace value; no write log is kept for it.
- LinkUpdate.WaitError: the tests check only that an error is returned, so only "no error exactly on success" is stated. The wording of the timeout and failure messages is the model's own.
- The missing-CRD rows (`CrdErr`/`CrdHelpErr`) of the validation test are left out: CRD discovery is a client call outside both files.
- Meta.FindCondition: returns the first condition of the awaited type, as `meta.FindStatusCondition` does. The reading in which only the most recent entry of a type counts is not modelled. The two readings agree when no two entries share a type (`Meta.FindConditionUnique`), which is how `meta.SetStatusCondition` keeps the list.
- LinkUpdate.Observe: a read either finds the link or finds it absent. A read that fails for another reason (a client or network error) is not modelled, so the wait has no outcome for it.
- LinkUpdate.Observe: a condition's `observedGeneration` is not compared with the link's generation. A True condition computed for an older version of the link counts as success.
- LinkUpdate.TimeoutErrors: the 10-second floor applies whatever the wait status, including `none`. The zero-timeout row of the validation test (link_update_test.go:214-243) leaves the status unset and is rejected; no row exempts the no-wait case.
- LinkUpdate.LinkMissingText, LinkUpdate.SelectedLinkMissingText, LinkUpdate.SecretMissingText, LinkUpdate.WaitStatusText: each full text is stated as its fixed parts written one after the other, not as a single literal. The equality of one literal of that length is beyond the solver's resource limit.
- `WatchSecuredAccessesWithOptions` is modelled as a record of the watch. The handler callback, the informer and event delivery are outside this core.
- `reflect.DeepEqual` is modelled as value equality: a nil and an empty slice or map count as equal.
- `strconv.Quote` escaping is not modelled; quoting only adds the two quote marks.
- `time.Duration` is modelled in whole seconds. Sub-second timeouts and the defaulting of the retry profile are not modelled.
- The poll interval is a parameter in milliseconds; the clock is the count of reads.
- Contexts, cancellation and concurrent writers are not modelled. Each store call is atomic, and the objects change only through the calls modelled here.
- Text.Atoi: any text that is not an optionally signed run of digits is a syntax error, even when its digits already overflow 64 bits. Go reports a range error for such input when the overflow comes before the first bad character.
- Store.Clients: the Kubernetes API server is an in-memory map with a per-call fault table. Admission, defaulting and server-side validation are not modelled.
