# Certificate service extension: model and proofs

A Dafny model of the Gardener extension for the shoot certificate service, and proofs of what its parts guarantee.

- **Garden certificate** (`GardenHash`, `GardenProtocol`, `GardenDiscipline`, `GardenCertController`, `GardenEvents`,
  `GardenRuns`). A reconcile writes the Certificate and then a hash annotation; Garden events are dropped when the
  hash matches. The protocol is a state machine over single API calls, each of which may be done, refused, or done
  while its caller gets an error; events, changes of the Garden and retries fall between any two calls. The handler's
  code is proved to be a run of it, whatever falls between its calls. Proved over every run: the annotation tells the
  names of the certificate. That the certificate follows the Garden with its names and its DNS section is not true on
  every run, because of a stale annotation, a race between hashing and writing, a lost event, or a change that the
  hash does not cover; the steps on which it does are characterised exactly. From every state that such
  steps reach, while a certificate is wanted, a bounded number of steps leads to a settled one.
- **Seed certificate** (`ControlPlaneCert`). Every successful reconcile makes the certificate entirely its own.
- **Nameservers** (`NetAddr`, `AddressForms`, `Nameserver`, `NameserverLists`, `OrderedSets`, `GoStrings`). The
  hand-written validator accepts exactly the texts that are built from numbers, hex groups and labels; the merge of two
  lists is analysed through split and join.
- **Issuers** (`ServiceTypes`, `ServiceValidation`, `Issuers`, `IssuerPipeline`). Validation reports exactly the
  declared complaints; a validated config translates without errors and can be read back from the deployed objects.
- **Deployed objects** (`DeployerValues`, `ControllerArgs`, `DeployedObjects`, `ObjectClosure`, `ObjectLists`). The
  command line is read back to what each field of the values asks for; object lists have exactly the keys asked for,
  each once, and resolve their references.
- **Shoot actuator** (`ShootLifecycle`, `ShootFlights`, `ShootOutcomes`, `ShootActuator`, `DnsEvents`). Ordering and
  keeping of objects over every run of Reconcile, Delete and Migrate, when these end without error and what they
  leave, and what the filter for DNS events loses.
- **CA certificates, deep copies and the health check** (`CACertificates`, `CertConfigDeepCopy`, `HealthCheck`).

Where the code is imperative, so is the model: classes with fields for the handlers, actuators and API objects, and
methods with the code's loops. Each such method is proved against a function or a relation, and the lemmas are about
those.

Results that differ from what one would expect of the code, each with a concrete input or run and the exact condition
where there is one:

- Without a default list the merged nameserver list ends in a comma and is not accepted by the validators
  (`NameserverLists.EffectiveAccepted`, `NameserverLists.MissingDefaultExample`).
- An annotation that could not be removed stays, and later keeps a certificate from being made
  (`GardenRuns.ClearFails`, `GardenRuns.StaleAnnotationRun`); two changes in quick succession, a failed listing, and
  the absence of Gardens have similar effects (`GardenRuns.RaceRun`, `GardenRuns.LostEventRun`,
  `GardenRuns.NoGardenRun`). Which steps lead there while there is one Garden, and that no others do, is
  `GardenDiscipline.DisciplineIsExact`.
- The annotation is documented as the hash of the relevant data of the Garden
  (pkg/controller/extension/controlplane/add.go:41). It does not cover the DNS section that the certificate's
  annotations are made from, so a change of that section alone is not noticed (`GardenRuns.DNSChangeRun`); when it
  matters is `GardenProtocol.SameHashFits`. A NUL byte inside a name makes it ambiguous
  (`GardenHash.NulBytesCollide`); what it tells apart is `GardenHash.PreimageSees`.
- DNS annotations of the garden certificate survive the removal of the Garden's DNS section
  (`GardenCertController.WritesForgetNamesKeepDNS`, `GardenCertController.RemovedDNSStays`).
- An issuer without a key whose name is that of the default issuer followed by `-ca` is given the default issuer's CA
  Secret as its private key Secret (`IssuerPipeline.PrivateKeyOrigin`, `IssuerPipeline.CollidingKey`).
- A successful Delete can leave the shoot's managed resource behind (`ShootLifecycle.SurvivingShootResource`), exactly
  as `ShootFlights.CompletedDelete` says.
- A successful Migrate can lose objects of the shoot if they were already being deleted
  (`ShootLifecycle.LosingMigration`).
- A configuration copied onto itself by DeepCopyInto is blanked (`CertConfigDeepCopy.DeepCopyInto`).
- Deleting the DNS extension while its flag is true is never noticed (`DnsEvents.FilterLosesOnlyDeletions`,
  `DnsEvents.LostDeletion`).
- For another class than "garden" or "seed" the bindings for access to the target refer to a service account that is
  not in the list (`ObjectClosure.GardenOrSeedClosed`).
- The health check replaces any status of the wrapped check other than false by true when all issuers are ready
  (`HealthCheck.Check`).

Some of these inputs do not occur in the program as it is deployed: the actuator sets the class to "garden" or "seed"
for deployments that are not for shoots (pkg/controller/extension/controlplane/actuator.go:293-302); names of Garden
domains are DNS names, which have no NUL bytes; one listing of a namespace has no two issuers of the same name, so the
count and the messages of the health check are exact; nothing in the repository copies a configuration onto itself.
The members state what the code does with them all the same.

## Model

| member | source | states |
|---|---|---|
| GardenHash.CalcGardenRelevantDataHash | pkg/controller/extension/controlplane/add.go:158-179 | the two loops that feed the hash compute the digest of the virtual and then the ingress domains, joined with a NUL byte after each |
| GardenHash.PreimageSees | pkg/controller/extension/controlplane/add.go:160-176 | two inputs of the hash are equal if and only if the pieces between NUL bytes are, so the boundary between the two domain lists is not seen |
| GardenHash.PreimageInjective | pkg/controller/extension/controlplane/add.go:160-176 | for names without NUL bytes the input of the hash determines the concatenated list, order and repetitions included |
| GardenHash.NulBytesCollide | pkg/controller/extension/controlplane/add.go:164-174 | a concrete pair of name lists, one with a NUL byte inside a name, with equal hashes and different certificate names |
| GardenHash.AppendDnsNames | pkg/controller/extension/controlplane/gardencert.go:57-62 | one loop with the set of names seen so far extends the wildcard names by those of the new domains in first-occurrence order |
| GardenHash.CollectDnsNames | pkg/controller/extension/controlplane/gardencert.go:57-69 | over the two fields of the Garden: a name is in the result if and only if it is "*." and a virtual or ingress domain, no name occurs twice, and names follow the first occurrences of their domains, virtual ones first |
| GardenHash.DnsNamesAre | pkg/controller/extension/controlplane/gardencert.go:57-69 | the function that the protocol uses for the names has these properties for any two lists |
| GardenHash.SameHashSameNames | pkg/controller/extension/controlplane/gardencert.go:57-69 | two Gardens with the same hash have the same domain lists in sequence and the same certificate names |
| OrderedSets.DedupElements | pkg/controller/extension/controlplane/gardencert.go:57-69 | dropping repetitions keeps exactly the elements, each once |
| OrderedSets.DedupOrder | pkg/controller/extension/controlplane/gardencert.go:57-69 | elements stay in the order of their first occurrences |
| GardenProtocol.StepInvariant | pkg/controller/extension/controlplane/gardencert.go:39-147 | every step (API call done, refused, or done with an error reported; Garden event; new Garden; retry) keeps the correspondence, including between the two writes |
| GardenProtocol.AnnotationTellsNames | pkg/controller/extension/controlplane/gardencert.go:39-147 | over every run with a Garden present and any failures: when nothing is in flight or queued and the annotation is the hash of a domain list, the certificate is absent or has exactly the names of that list |
| GardenProtocol.FitsExactly | pkg/controller/extension/controlplane/gardencert.go:76-101 | a reconcile of a Garden with domains leaves a certificate as it is if and only if it has the Garden's names, shows its DNS section, and has the constant parts |
| GardenProtocol.SameHashFits | pkg/controller/extension/controlplane/add.go:158-179 | for Gardens with the same hash, the certificate written for one fits the other if and only if the other's DNS section, which is not in the hash, shows in it |
| GardenProtocol.DroppedEventVerdict | pkg/controller/extension/controlplane/add.go:140-151 | when a Garden event is dropped, the certificate fits the Garden if and only if it exists and shows the Garden's DNS section |
| GardenProtocol.StepTracks | pkg/controller/extension/controlplane/gardencert.go:39-147 | every disciplined step keeps the stronger invariant that the certificate, or what it is on its way to, fits the current Garden, or something is still to come that makes up for it |
| GardenProtocol.CertificateFollowsGarden | pkg/controller/extension/controlplane/gardencert.go:39-147 | on all disciplined runs the certificate of every settled state fits the current Garden: a reconcile would change neither its names nor its DNS annotations nor anything else, and without domains there is none |
| GardenProtocol.FromTheBeginning | pkg/controller/extension/controlplane/gardencert.go:39-147 | both theorems for all runs of a new Extension |
| GardenDiscipline.ExcludedStepsEndBadly | pkg/controller/extension/controlplane/gardencert.go:39-147 | the other half: from every state that satisfies the invariant, each excluded step has a disciplined continuation to a settled state whose certificate does not fit the Garden |
| GardenDiscipline.DisciplineIsExact | pkg/controller/extension/controlplane/gardencert.go:39-147 | a step is disciplined if and only if no disciplined continuation after it ends with a certificate that does not fit |
| GardenDiscipline.ExactFromTheBeginning | pkg/controller/extension/controlplane/gardencert.go:39-147 | the same at every point of every disciplined run of a new Extension |
| GardenDiscipline.ReconcileOnce | pkg/controller/extension/controlplane/gardencert.go:39-131 | a queued reconcile whose calls are done leaves a certificate that fits the current Garden, in at most six steps |
| GardenDiscipline.Converges | pkg/controller/extension/controlplane/gardencert.go:39-147 | from every state that satisfies the invariant, at most 18 steps (calls done, queued reconciles started, the pending event mapped) lead to a settled state; its certificate fits the Garden if and only if these steps are disciplined, so always if something is queued or no event is pending |
| GardenRuns.EstablishedIsReached | pkg/controller/extension/controlplane/gardencert.go:39-131 | the state from which the next runs start is what the first reconcile of a new Extension reaches |
| GardenRuns.ClearFails | pkg/controller/extension/controlplane/gardencert.go:133-147 | if the annotation cannot be removed after the certificate was deleted, the retry finds no certificate, returns early, and the annotation stays |
| GardenRuns.StaleAnnotationRun | pkg/controller/extension/controlplane/gardencert.go:135-138 | after that a Garden that gets its domains back never gets a certificate: its event is dropped |
| GardenRuns.RaceRun | pkg/controller/extension/controlplane/add.go:142-151 | without any failing call: a Garden that changes to b and back to a while b is being reconciled keeps the certificate of b |
| GardenRuns.DNSChangeRun | pkg/controller/extension/controlplane/add.go:140-142 | without any failing call: a Garden that only changes its DNS section is not noticed, and the certificate keeps the annotations of the earlier section |
| GardenRuns.LostEventRun | pkg/controller/extension/controlplane/add.go:126-139 | a Garden event whose mapping fails is lost: the certificate stays with the earlier Garden |
| GardenRuns.NoGardenRun | pkg/controller/extension/controlplane/gardencert.go:49-51 | without the condition that a Garden is present AnnotationTellsNames fails: the early return for no Gardens ends a retry without repairing the annotation |
| GardenCertController.GardenCert.Reconcile | pkg/controller/extension/controlplane/gardencert.go:39-116 | the handler's code has exactly the effect and the outcome of the protocol's steps, for every way its calls can end and whatever others do between them |
| GardenCertController.GardenCert.MutateCertificate | pkg/controller/extension/controlplane/gardencert.go:76-101 | field by field: the wildcard names of the Garden, the labels, Secret reference and class annotation with their constants, the DNS annotations of its first provider; every other label and annotation, and without a DNS section those of the earlier one, stay |
| GardenProtocol.WrittenIs | pkg/controller/extension/controlplane/gardencert.go:76-101 | the certificate that the protocol writes is that, whatever was there before |
| GardenCertController.GardenCert.PatchHashAnnotation | pkg/controller/extension/controlplane/gardencert.go:118-131 | setting or removing the annotation by merge patch is the protocol's last write |
| GardenCertController.GardenCert.Delete | pkg/controller/extension/controlplane/gardencert.go:133-147 | the delete handler with its early returns is the protocol's deletion |
| GardenCertController.ReconcileExtension | pkg/controller/extension/controlplane/actuator.go:87-147 | a whole reconcile of a garden Extension is one flight of the protocol, with anything others do between its calls; it returns an error if and only if the flight does not succeed; without error the outcome is that of ReconcileOutcome |
| GardenCertController.ReconcileOutcome | pkg/controller/extension/controlplane/gardencert.go:39-147 | what a successful reconcile leaves, in the fields of the Garden it listed: its wildcard names, its DNS annotations and the hash of its domains; no certificate if it has no domains or none is wanted; nothing changed if there is no Garden. If no call fails, it succeeds if and only if no second Garden is listed |
| GardenCertController.DeleteExtension | pkg/controller/extension/controlplane/actuator.go:150-158 | a whole deletion is one flight, in the same sense; without error the certificate is gone, and it ends without error if no call fails |
| GardenCertController.DeleteOutcome | pkg/controller/extension/controlplane/gardencert.go:133-147 | a successful deletion leaves no certificate, and clears the annotation if and only if it found one and the Extension is not being deleted |
| GardenCertController.FlightIsRun | pkg/controller/extension/controlplane/gardencert.go:39-147 | every flight is a run of the protocol made of its calls and of what others do between them, so what holds over every run holds for the code |
| GardenCertController.FlightEnds | pkg/controller/extension/controlplane/actuator.go:87-158 | every flight ends, and without success the Extension is queued again |
| GardenCertController.HandlerEnds | pkg/controller/extension/controlplane/gardencert.go:39-147 | the certificate handler ends with a failure that queues the Extension again or with one call to come |
| GardenCertController.SuccessfulReconcileAgrees | pkg/controller/extension/controlplane/actuator.go:87-147 | a reconcile that succeeds leaves annotation and certificate in agreement, whatever failed before it and whatever others do during it, as long as there is always a Garden |
| GardenCertController.WritesForgetNamesKeepDNS | pkg/controller/extension/controlplane/gardencert.go:76-101 | after any series of writes the DNS names are those of the last Garden, but the DNS annotations are those of the last Garden that has a DNS section |
| GardenCertController.RemovedDNSStays | pkg/controller/extension/controlplane/gardencert.go:87-95 | a Garden that loses its DNS section: the certificate keeps the annotations that it would not get anew |
| GardenEvents.MapGardenToExtension | pkg/controller/extension/controlplane/add.go:121-156 | requests for the Extensions of the type for the control plane and of the garden class whose valid config asks for a certificate and whose annotation is not the hash of the domains, in order; none at all if the list cannot be read or one config that counts cannot be decoded |
| GardenEvents.OutdatedNamesExactly | pkg/controller/extension/controlplane/add.go:131-153 | a name is requested if and only if an Extension of that name has the type and class, wants a certificate, and has another hash |
| GardenEvents.MapsAsInProtocol | pkg/controller/extension/controlplane/add.go:121-156 | the protocol's event step queues the Extension if and only if the map function asks for it |
| ControlPlaneCert.Handler.Reconcile | pkg/controller/extension/controlplane/controlplanecert.go:40-93 | effects of both calls for all fates; an error if and only if a call that is made is not done; without error the certificate is that of the inputs, and the secret has their credentials if there are any |
| ControlPlaneCert.Handler.Delete | pkg/controller/extension/controlplane/controlplanecert.go:95-108 | the certificate goes first and a failed first call leaves the secret alone; without error, which is if and only if both calls are done, neither is left |
| ControlPlaneCert.NeverAMixture | pkg/controller/extension/controlplane/controlplanecert.go:40-108 | over every run with any failures the certificate is absent, untouched, or exactly that of one reconcile of the run; after a successful reconcile it is that of its inputs whatever came before |
| ControlPlaneCert.SecretOfOneReconcile | pkg/controller/extension/controlplane/controlplanecert.go:40-108 | over every run the secret is absent, untouched, or has the credentials of one reconcile; after a successful deletion there is neither secret nor certificate |
| ControlPlaneCert.OneOfCommonNameAndDNSNames | pkg/controller/extension/controlplane/controlplanecert.go:63-70 | exactly one of common name and DNS names is set, the common name if and only if the wildcard name has at most 64 characters |
| Nameserver.ValidateNameserver | pkg/apis/config/validation/validation.go:86-119 | no error if and only if the text is a host, an IP address in brackets, or a host with a port in one of the two written forms, where hosts and ports are built from their parts; which error otherwise |
| AddressForms.IPv4Exactly | pkg/apis/config/validation/validation.go:101 | the IPv4 texts are the dotted joins of four decimal numbers from 0 to 255, and nothing else is |
| AddressForms.IPv6Exactly | pkg/apis/config/validation/validation.go:101 | the IPv6 texts are eight groups of one to four hex digits joined by colons, six groups and a dotted quad, or a left and a right list of together at most seven groups (five with a dotted quad) around "::" |
| AddressForms.SubdomainExactly | pkg/apis/config/validation/validation.go:102 | the subdomains are the dotted joins of labels of lower-case letters, digits and inner hyphens, at most 253 chars |
| Nameserver.HostExactly | pkg/apis/config/validation/validation.go:101-104 | the hosts are dotted quads, IPv6 texts, and dotted labels with an optional dot at the end and some char that is neither digit nor dot |
| Nameserver.PortExactly | pkg/apis/config/validation/validation.go:109-117 | the ports are the decimal texts of 1 to 65535, with any zeros and possibly a plus sign in front |
| Nameserver.NameserverExactly | pkg/apis/config/validation/validation.go:86-119 | the language that the validator decides is the set of the texts built in these ways |
| Nameserver.NoTruncatedAddress | pkg/apis/config/validation/validation.go:102-104 | a text of digits and dots that is no dotted quad is refused |
| Nameserver.AtoiPort | pkg/apis/config/validation/validation.go:111-117 | Atoi and the range check accept exactly the decimal texts (a plus sign is allowed) of 1 to 65535 |
| NetAddr.SplitHostPortReads | pkg/apis/config/validation/validation.go:87 | net.SplitHostPort succeeds with (h, p) if and only if the string is h:p with a colon-free h, or [h]:p |
| Nameserver.Language | pkg/apis/config/validation/validation.go:86-119 | the grammar is decided by the host and the port that the validator settles on, whichever way it found them |
| Nameserver.AppendPort | pkg/apis/config/validation/validation.go:86-119 | every accepted host that is no IPv6 address stays accepted with any port appended |
| Nameserver.AppendPortBracketed | pkg/apis/config/validation/validation.go:86-119 | [h]:n is accepted if and only if h is a host, domain names included |
| Nameserver.BracketsAlone | pkg/apis/config/validation/validation.go:90-95 | [h] is accepted if and only if h is an IP address |
| Nameserver.BareIPv6TakesNoPort | pkg/apis/config/validation/validation.go:86-119 | an IPv6 address followed by a colon and more is accepted only if it is an IPv6 address as a whole |
| Nameserver.NoComma | pkg/apis/config/validation/validation.go:86-119 | no accepted nameserver is empty or contains a comma |
| NameserverLists.ValidateACMEPrecheckNameservers | pkg/apis/config/validation/validation.go:64-75 | no error if and only if every item of the comma-separated list is a nameserver; one error for each bad item |
| NameserverLists.ValidatePrecheckNameservers | pkg/apis/service/validation/validation.go:138-152 | accepts the same lists; the errors are exactly the bad items with their indices, in order |
| NameserverLists.BadItemsExactly | pkg/apis/service/validation/validation.go:145-149 | an item is reported if and only if it is no nameserver, and the indices increase |
| NameserverLists.MergeServers | pkg/controller/extension/shared/deployer.go:181-193 | the nested loops compute the joined first-occurrence list of all items |
| NameserverLists.SplitMerge | pkg/controller/extension/shared/deployer.go:181-193 | splitting the merged text gives back the items of all lists without repetitions, in order |
| NameserverLists.MergeMerged | pkg/controller/extension/shared/deployer.go:181-193 | merging in stages is merging at once, and merging a merged text changes nothing |
| NameserverLists.MergeUnchanged | pkg/controller/extension/shared/deployer.go:181-193 | a list without repetitions is returned as it is |
| NameserverLists.MergeAccepted | pkg/controller/extension/shared/deployer.go:181-193 | a merged text is accepted by the validators if and only if all merged texts are |
| OrderedSets.DedupAbsorb | pkg/controller/extension/shared/deployer.go:182-191 | dropping repetitions first and then again with more items is the same as dropping them once |
| NameserverLists.PrecheckNameservers | pkg/controller/extension/shared/deployer.go:111-120 | with a list of the shoot, splitting the result at commas gives its items and then those of the default list, first occurrences only; without one it is the default list; absent parts count as empty |
| NameserverLists.EffectiveAccepted | pkg/controller/extension/shared/deployer.go:111-120 | for an accepted shoot list the effective text is accepted if and only if there is an accepted default list; without a default it is the shoot list without repetitions followed by a comma |
| NameserverLists.MissingDefaultExample | pkg/controller/extension/shared/deployer.go:111-120 | a concrete accepted shoot list for which the effective text is not accepted |
| CACertificates.ValidateCertificate | pkg/apis/config/validation/validation.go:146-160 | one decoding step and its two errors |
| CACertificates.ValidateCACertificates | pkg/apis/config/validation/validation.go:134-144 | ends on every input if decoding consumes, and accepts exactly the trimmed texts in which decoding one block after the other leaves nothing and finds parseable certificates only; what decoding skips in front of a block is up to the decoder |
| CACertificates.SurroundingSpace | pkg/apis/config/validation/validation.go:135 | white space around the text makes no difference |
| CACertificates.TrimSpaceIs | pkg/apis/config/validation/validation.go:134-144 | the trimmed text is the text without the white space at its ends, and neither begins nor ends with white space |
| CACertificates.BundleStep | pkg/apis/config/validation/validation.go:134-160 | a non-empty text is such a series if and only if its first block is a certificate and what follows it is a series |
| CACertificates.BlocksUnique | pkg/apis/config/validation/validation.go:134-144 | the blocks of an accepted text are determined by it |
| ServiceValidation.CheckReferencedResource | pkg/apis/service/validation/validation.go:111-124 | the verdict about the first resource with the name |
| ServiceValidation.ValidateIssuer | pkg/apis/service/validation/validation.go:58-105 | one round of the loop adds exactly the complaints about this issuer, in the order of the checks |
| ServiceValidation.ValidateIssuers | pkg/apis/service/validation/validation.go:52-109 | exactly the declared complaints, in order; Duplicate at exactly the indices whose name occurs earlier; empty if and only if the issuers are well-formed |
| ServiceValidation.NothingWrong | pkg/apis/service/validation/validation.go:58-105 | an issuer is valid, stated as one condition on its fields, if and only if no single complaint applies |
| ServiceValidation.NoComplaint | pkg/apis/service/validation/validation.go:52-109 | the list is well-formed (valid issuers with different names) if and only if there is no complaint |
| ServiceValidation.ValidateRuntimeConfig | pkg/apis/service/validation/validation.go:24-41 | forbidden are exactly the sections that are present, except the switch for the certificate |
| ServiceValidation.ValidateCertConfig | pkg/apis/service/validation/validation.go:21-50 | no errors if and only if the config is a runtime config, or a shoot config for the cluster; otherwise exactly the forbidden sections, or exactly the complaints about issuers, namespace and nameservers |
| Issuers.LookupReferencedSecret | pkg/controller/extension/shared/deployer_issuers.go:232-246 | for a shoot deployment whose first resource with the name is a Secret, "ref-" and the name of the Secret; otherwise the error |
| Issuers.TranslateIssuer | pkg/controller/extension/shared/deployer_issuers.go:49-92 | succeeds if and only if both references resolve; which reference the error names |
| Issuers.CollectIssuers | pkg/controller/extension/shared/deployer_issuers.go:21-97 | succeeds if and only if all references of the deployed issuers resolve; the default issuer first, then the others in order |
| Issuers.OwnExactly | pkg/controller/extension/shared/deployer_issuers.go:44-47 | skipping keeps exactly the issuers with another name than the default one, and keeps names different |
| Issuers.OwnInOrder | pkg/controller/extension/shared/deployer_issuers.go:44-47 | it goes through the issuers one by one, in order |
| Issuers.CreateIssuers | pkg/controller/extension/shared/deployer_issuers.go:111-129 | the objects of all issuers in order, each with its Secrets |
| IssuerPipeline.ValidationSound | pkg/apis/service/validation/validation.go:43-124 | a config without errors never makes collectIssuers fail, and each secret name, that of the private key and that of the account binding, is "ref-" and the name of the first resource with the reference name |
| IssuerPipeline.CollectedNamesDistinct | pkg/controller/extension/shared/deployer_issuers.go:38-94 | all collected issuers have different names, the default issuer included |
| IssuerPipeline.TranslationLossless | pkg/controller/extension/shared/deployer_issuers.go:49-92 | one issuer config can be read back from the deployed object up to normalisation if and only if its quota is absent or positive |
| IssuerPipeline.PipelineLossless | pkg/controller/extension/shared/deployer_issuers.go:111-218 | for a validated config the deployed Issuer objects give back every config without the default name, in order and up to normalisation |
| IssuerPipeline.EmittedInDeployment | pkg/controller/extension/shared/deployer_issuers.go:119-157 | the Secrets of a deployment are those of the default issuer |
| IssuerPipeline.AllInPlace | pkg/controller/extension/shared/deployer_issuers.go:131-230 | every object is in the namespace of the deployment, every Secret reference leads there, and the Issuers have the class of the deployment and name the key that registration makes and the CA Secret after themselves |
| IssuerPipeline.DefaultIssuerRecovered | pkg/controller/extension/shared/deployer_issuers.go:22-36 | the deployed objects give back the ACME and CA sections of the service configuration, keys included, whatever issuers a shoot adds; the default issuer has no quota, account binding, domains or nameservers of its own |
| IssuerPipeline.PrivateKeyOrigin | pkg/controller/extension/shared/deployer_issuers.go:184-196 | each key reference is an emitted Secret, a "ref-" Secret, or to be registered; it is exactly one of them for the default issuer, and for another if and only if not its config has no key, there is a CA section, and its name is the default name followed by -ca |
| IssuerPipeline.CollidingKey | pkg/controller/extension/shared/deployer_issuers.go:145-230 | a concrete deployment in which an issuer that is to be registered is given the default issuer's CA Secret as its key |
| ControllerArgs.Args | pkg/controller/extension/shared/deployer_seed.go:493-568 | reading the command line back (cut at the first equals sign, the last one wins, decimal numbers) gives what each field of the values asks for, option by option, with the names and the constants of the source; it has no other option, and no option occurs twice except the DNS class, and that twice if and only if the shoot asks for one and the next generation service is in use |
| ControllerArgs.WantedIsAsked | pkg/controller/extension/shared/deployer.go:107-169 | the settings derived through the getters are those that the fields ask for: nameservers of the shoot before the default ones, quota, restricted domains, timeout, target issuers, deactivation, DNS challenge and private keys |
| ControllerArgs.AppendHead | pkg/controller/extension/shared/deployer_seed.go:494-505 | names, namespace, source and class of the certificates |
| ControllerArgs.AppendIssuer | pkg/controller/extension/shared/deployer_seed.go:506-517 | issuer namespace, default issuer, quota, domain ranges and nameservers |
| ControllerArgs.AppendDNS | pkg/controller/extension/shared/deployer_seed.go:518-527 | DNS challenge on the shoot or not |
| ControllerArgs.AppendServer | pkg/controller/extension/shared/deployer_seed.go:528-541 | ports, pool sizes, timeout and the two switches |
| ControllerArgs.AppendLease | pkg/controller/extension/shared/deployer_seed.go:542-547 | lease and CRD switches |
| ControllerArgs.AppendPrivateKeys | pkg/controller/extension/shared/deployer_seed.go:549-561 | algorithm and key sizes with their defaults |
| ControllerArgs.SwitchInjective | pkg/controller/extension/shared/deployer_seed.go:493-568 | different settings have different option names |
| ControllerArgs.ParsedSetting | pkg/controller/extension/shared/deployer_seed.go:493-568 | a printed setting is cut into its name and its value, whatever the value contains |
| ControllerArgs.SaysOneMore | pkg/controller/extension/shared/deployer_seed.go:493-568 | one more argument changes what is read for its own key only, and brings in no other option |
| GoStrings.AtoiDecimal | pkg/controller/extension/shared/deployer_seed.go:510-532 | a printed 64-bit number is read back as the same number |
| ObjectClosure.MountsMatchVolumes | pkg/controller/extension/shared/deployer_seed.go:570-644 | mounts and volumes belong to each other one to one; no volume name and no path is used twice |
| ObjectClosure.KubeconfigMounted | pkg/controller/extension/shared/deployer_seed.go:493-629 | the kubeconfig files that the command line names are in a mounted volume with the kubeconfig and the token; the source is named if and only if it is a shoot deployment |
| ObjectLists.BuildGardenOrSeedObjects | pkg/controller/extension/shared/deployer_gardenorseed.go:26-64 | an error exactly for shoot deployments; otherwise the list has the keys that the fields of the values ask for and no others, each once, with the stated contents: one Deployment, whose service account and config maps are in the list, bindings with their roles and subjects, the issuers and the CRDs; the config map with CA certificates and the network policy if and only if a field asks for them |
| ObjectLists.BuildControlPlaneObjects | pkg/controller/extension/shared/deployer_seed.go:58-86 | an error exactly if it is no shoot deployment or a reference does not resolve; otherwise the same for the control plane: the keys asked for and no others, each once if the issuers have different names, one Deployment, and the Prometheus rule unless the alerts are set to zero days |
| ObjectLists.GardenOrSeedHasKey | pkg/controller/extension/shared/deployer_gardenorseed.go:26-64 | a key is in the list if and only if the fields ask for it, kind by kind |
| ObjectLists.ControlPlaneHasKey | pkg/controller/extension/shared/deployer_seed.go:58-86 | the same for the control plane, for any number of issuers |
| ObjectLists.GardenOrSeedWorkload | pkg/controller/extension/shared/deployer_gardenorseed.go:44-48 | the Deployment is the only workload, what it refers to and mounts is in the list, and so are the issuers |
| ObjectLists.ControlPlaneWorkload | pkg/controller/extension/shared/deployer_seed.go:67-78 | the same for the control plane |
| ObjectClosure.GardenOrSeedKeysDistinct | pkg/controller/extension/shared/deployer_gardenorseed.go:26-64 | no two objects have the same kind, namespace and name |
| ObjectClosure.GardenOrSeedClosed | pkg/controller/extension/shared/deployer_gardenorseed.go:26-64 | every reference resolves in the list if and only if the class is "garden" or "seed" |
| ObjectClosure.SubjectIsServiceAccount | pkg/controller/extension/shared/deployer_shoot.go:225-239 | the subject of the bindings is the service account of the list if and only if the class is "garden" or "seed" |
| ObjectClosure.GardenOrSeedKeepsCRDs | pkg/controller/extension/shared/deployer_gardenorseed.go:55-62 | all three CRDs are in the list, and every CRD in it carries the keep annotation |
| ObjectClosure.IssuersResolved | pkg/controller/extension/shared/deployer_issuers.go:111-129 | what an issuer object refers to and nobody else provides is deployed with it |
| ObjectClosure.ControlPlaneKeysDistinct | pkg/controller/extension/shared/deployer_seed.go:58-86 | no two objects have the same key, for any number of differently named issuers |
| ObjectClosure.ControlPlaneClosed | pkg/controller/extension/shared/deployer_seed.go:58-86 | every reference resolves in the list, for any number of issuers |
| ObjectClosure.DeploymentMounted | pkg/controller/extension/shared/deployer_seed.go:477-644 | every mount has a volume, and the file named by the environment is an entry of a mounted config map in the list |
| ShootLifecycle.SeedSideGoesLast | pkg/controller/extension/shoot/actuator.go:91-113 | over every run of Reconcile, Delete and Migrate with any failures: the seed side is removed only after the shoot resource was gone or had lost its finalizer since the operation began |
| ShootFlights.CompletedDelete | pkg/controller/extension/shoot/actuator.go:91-113 | a Delete or Migrate without error, whatever happens during it, leaves nothing on the seed side; it leaves the shoot resource behind if and only if that was there and not being deleted before, and the request to delete it was refused |
| ShootLifecycle.SurvivingShootResource | pkg/controller/extension/shoot/actuator.go:96-112 | a run on which a Delete succeeds and the shoot resource stays: its finalizer is dropped though the request to delete it was refused |
| ShootLifecycle.KeptRun | pkg/controller/extension/shoot/actuator.go:126-133 | once objects are kept, no run of migrations and deletions loses an object of the shoot |
| ShootLifecycle.MigrateKeepsObjects | pkg/controller/extension/shoot/actuator.go:126-133 | runs that begin with a Migrate and end with success never remove an object from the shoot, if and only if the shoot resource is not already being deleted with its objects at the beginning |
| ShootLifecycle.LosingMigration | pkg/controller/extension/shoot/actuator.go:126-133 | from such a state a Migrate whose calls are all done, and which succeeds, while an object is lost |
| ShootActuator.Actuator.Delete | pkg/controller/extension/shoot/actuator.go:91-113 | the code is a flight of the lifecycle, whatever the environment does between its calls; it ends without error exactly in the cases of DeleteOutcome |
| ShootActuator.Actuator.Migrate | pkg/controller/extension/shoot/actuator.go:126-133 | the same for Migrate, which first has the objects kept |
| ShootActuator.Actuator.Reconcile | pkg/controller/extension/shoot/actuator.go:60-88 | the same for Reconcile; without error the access secret is there, and the two resources are as in ReconcileOutcome |
| ShootOutcomes.ReconcileOutcome | pkg/controller/extension/shoot/actuator.go:60-88 | no error if and only if all calls are done, where a shoot that is hibernated has none for the shoot resource; then the seed resource, and for an awake shoot the shoot resource, is deployed with its objects not kept, and what the environment does to it later is all that happens; for a hibernated shoot only the environment touches the shoot resource |
| ShootOutcomes.ReconcileDeploys | pkg/controller/extension/shoot/actuator.go:78-85 | in particular, if neither resource was being deleted: both are there for an awake shoot, not deleting and with objects not kept; for a hibernated shoot without shoot resource there is none |
| ShootOutcomes.DeleteOutcome | pkg/controller/extension/shoot/actuator.go:91-113 | no error if and only if the shoot resource is gone in time, or the shoot has been deleting for long and the finalizers of the resource that is still there are dropped, and then the seed side is deleted and gone in time |
| ShootOutcomes.UnreleasedDelete | pkg/controller/extension/shoot/actuator.go:96-108 | if no call fails and the resource manager never releases the shoot resource, a Delete ends without error if and only if the shoot has been deleting for long and the seed resource is gone in time |
| ShootOutcomes.MigrateOutcome | pkg/controller/extension/shoot/actuator.go:126-133 | no error if and only if the objects could be kept and the Delete that follows ends without error |
| ShootFlights.FlightIsRun | pkg/controller/extension/shoot/actuator.go:60-133 | every flight ends and is a run of the lifecycle, so what holds over every run holds for the code |
| DnsEvents.SeenIsLastFlag | pkg/controller/extension/shoot/add.go:113-136 | the flag at the last accepted event is the flag of the DNS Extension when it was last there |
| DnsEvents.FilterLosesOnlyDeletions | pkg/controller/extension/shoot/add.go:113-136 | over every history the flag at the last accepted event is the flag at the end, if and only if the Extension was not deleted for good while its flag was true |
| DnsEvents.LostDeletion | pkg/controller/extension/shoot/add.go:130-132 | the smallest history on which the filter loses something: the deletion of an Extension whose flag is true |
| DnsEvents.FilterLosesNothing | pkg/controller/extension/shoot/add.go:115-128 | over every history of creates and updates nothing is lost |
| DnsEvents.AcceptedIsRequested | pkg/controller/extension/shoot/add.go:97-128 | an event is accepted if and only if the DNS Extension appears or its annotation changes, never for another Extension, and leads to one request for the certificate Extension of its namespace; every change of the flag except by deletion is accepted |
| CertConfigDeepCopy.CopyIssuer | pkg/apis/service/zz_generated.deepcopy.go:158-191 | IssuerConfig.DeepCopyInto: same value, every cell it reaches is new |
| CertConfigDeepCopy.CopySelection | pkg/apis/service/zz_generated.deepcopy.go:132-145 | DNSSelection.DeepCopyInto: same value (nil stays nil), new slices |
| CertConfigDeepCopy.CopyIssuers | pkg/apis/service/zz_generated.deepcopy.go:57-63 | the index loop: same values in order, for any number of issuers, all cells new and none shared by two issuers |
| CertConfigDeepCopy.DeepCopyInto | pkg/apis/service/zz_generated.deepcopy.go:54-90 | any other target has the source's value afterwards and reaches new cells only, however the source shares cells; since the source is read after the target is written, a configuration copied onto itself keeps its shape and loses its contents |
| CertConfigDeepCopy.SelfCopyLoses | pkg/apis/service/zz_generated.deepcopy.go:74-78 | a configuration that is not the same after being copied onto itself |
| CertConfigDeepCopy.DeepCopy | pkg/apis/service/zz_generated.deepcopy.go:93-100 | nil for nil; otherwise a new struct with the same value that reaches new cells only |
| CertConfigDeepCopy.WritesStayApart | pkg/apis/service/zz_generated.deepcopy.go:54-100 | arbitrary later writes to everything the copy reaches leave the original's value alone, and the other way round |
| HealthCheck.Check | pkg/controller/healthcheck/managed_resource_issuer.go:48-82 | the wrapped check decides if it fails; after it only the issuers count, so any other status of the wrapped check is lost |
| HealthCheck.NotReadyExactly | pkg/controller/healthcheck/managed_resource_issuer.go:61-70 | the issuers reported are exactly those that are not ready |
| HealthCheck.MessageOfLast | pkg/controller/healthcheck/managed_resource_issuer.go:61-70 | the message shown for a name is that of the last issuer of the name |
| HealthCheck.CountIsExact | pkg/controller/healthcheck/managed_resource_issuer.go:71-77 | the reported number is the number of issuers that are not ready if and only if their names differ |

## Left out

- GardenProtocol.AnnotationTellsNames: supposes that a Garden is always present and that its names have no NUL bytes; GardenRuns.NoGardenRun and GardenHash.NulBytesCollide show that both are needed. More than one Garden is allowed.
- GardenProtocol.CertificateFollowsGarden: supposes exactly one Garden, with names that have no NUL bytes. With no Garden or several the handler does nothing or fails. Nobody else writes the Certificate and the annotation, and there is one reconcile at a time.
- GardenProtocol.CertificateFollowsGarden (finalizers): a deleted Certificate is gone at once. One with a finalizer would stay, be written again by the next reconcile, and then vanish with a current annotation.
- ControllerArgs.Args: supposes that the integers of the values are 64-bit integers, as Go's int is.
- CACertificates.ValidateCACertificates: white space around the text is ASCII white space; PEM decoding and X.509 parsing are parameters, and decoding is supposed to leave less than its input.
- CertConfigDeepCopy.DeepCopy: a slice is a whole array, so two slices of the source that overlap in part are not modelled; the copy into an element of the slice is a value that is then stored, and type metadata is left out.
- ShootOutcomes.ReconcileOutcome: the cluster is read and the access secret written in one step, so the shoot is hibernated or awake as of that step.
- ShootFlights.CompletedDelete: getting and patching the shoot resource in DropShootManagedResource is one call, so nothing happens between them.
- GardenHash.PreimageInjective: SHA-256 itself is a constructor, which makes its freedom from collisions explicit.
- NetAddr.SplitHostPortReads: IP addresses are read by the textual forms of section 2.2 of RFC 4291 and dotted decimals; IPv6 zones are refused, as net.ParseIP does.
- Strings are sequences of bytes written as chars.
- The API client, caches, watches, work queues with rate limits, leader election and client creation. A call is done, refused, or done while an error is reported; a failed reconcile stays queued.
- URL and email checks are parameters. Texts of errors are not modelled, only which error occurs.
- The restricted-domain branch of createValues in pkg/controller/extension/shoot/actuator.go, which is never taken: RestrictedIssuer is asked before the domains are filled in.
- The first DNS provider of a Garden is part of its DNS section; a DNS section without providers, on which the code would panic, is left out.
- Seed Extensions keep their certificate when they are deleted: the seed branch of the controlplane actuator is covered by ControlPlaneCert only, without the lookup of the seed in the virtual garden.
- removeNilObjects: optional objects are options; the difference between a nil interface and a nil pointer in it is not modelled.
- validateIssuerSecrets, the checksum of the issuers, role rules, probes, dashboards, Prometheus rules, services and CRD contents: constant data or foreign code.
- The deep copies of types other than CertConfig and its parts, defaults, conversions and command-line options: generated or without a property of interest.
- The injection of clients and loggers into the health check.
