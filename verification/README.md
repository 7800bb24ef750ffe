# cloud-importer Azure provider, modelled in Dafny

This project models the deterministic core of cloud-importer's Azure
provider (`pkg/provider/azure`). Two *ephemeral* Pulumi programs upload a
VHD to a freshly created storage account:

- the OpenShift Local (SNC) build, which extracts the VHD from a bundle;
- the RHEL AI build, which takes a local VHD file.

The registration step reads an *output contract* of seven keys: `name`,
`arch`, `offer`, `publisher`, `sku`, `saId` and `blobURI`. Only the SNC
build exports all seven. It does so once extraction and storage have gone
through, even if the upload that follows is then refused, because
`blobURI` is exported before the upload is declared (`Snc.SncRunSteps`).
The RHEL AI build exports at most five of them (`offer`, `publisher`,
`sku`, `saId`, `blobURI`), and `saId` and `blobURI` only once storage has
gone through (`Rhelai.RhelaiRunSteps`). `name` and `arch` are never among
its outputs, so reading its outputs back always fails with
`output not found: name` (`Rhelai.RhelaiNeverRegisters`).
`ImageRegister` reads the outputs back in a fixed order and builds a
registration request.
`registerFunc` then creates a resource group, a shared image gallery, an
image definition and an image version replicated to every region the
subscription lists, and it schedules the gallery's sharing with the
organization's tenant.

The Pulumi context is a value: a log of declared resources, the map of
exports, the SAS listings invoked and the sharing callbacks that ran
(`Deployment.Ctx`). A run function is a chain of steps over an `Outcome`.
After the first failing step every later step is a no-op, which is Go's
`if err != nil { return err }`. Everything outside the program is a
parameter:

- Resource creation failures are a map from a resource's logical name to
  the error the engine returns for it.
- The credential chain, the subscriptions client, the location pages and
  the gallery update calls are oracle answers.
- The bundle package's description lookup and extraction are oracle
  answers.
- The bytes `crypto/rand` returns and the clock are plain parameters.

Modules follow the source files:

| module | file | source |
|---|---|---|
| `Wrappers` | wrappers.dfy | `Option` and `Result` |
| `Hex` | hex.dfy | Go's `%x` rendering of a byte slice |
| `Arm` | arm.dfy | the Azure resource arguments the provider sets |
| `Deployment` | deployment.dfy | the Pulumi context, and stepping through a resource plan |
| `Util` | util.dfy | util.go |
| `Locations` | locations.dfy | locations.go |
| `Image` | image.dfy | image.go |
| `Ephemeral` | ephemeral.dfy | the storage and upload steps shared by snc.go and rhelai.go |
| `Snc` | snc.dfy | snc.go |
| `Rhelai` | rhelai.dfy | rhelai.go |

The name of the `replicate` flag suggests that it controls replication.
`registerFunc` never reads it, and the model follows the code
(`Image.ReplicateIgnored`).

## Model

| member | source | states |
|---|---|---|
| Hex.Encode | pkg/provider/azure/util.go:55 | `%x` gives two lower-case hex digits per byte, high nibble first, so the text is twice as long as the bytes |
| Hex.DecodeEncode | pkg/provider/azure/util.go:55 | decoding the `%x` text of any byte slice gives the slice back |
| Hex.EncodeDecode | pkg/provider/azure/util.go:55 | any text that decodes is exactly the `%x` rendering of what it decodes to |
| Hex.EncodeInjective | pkg/provider/azure/util.go:55 | two byte slices print the same exactly when they are equal |
| Util.RandomizeShape | pkg/provider/azure/util.go:52-56 | `randomize(base)` is `base`, a dash and 8 lower-case hex digits (nine characters more than the base), and the digits decode back to the 4 random bytes |
| Util.RandomizeInjective | pkg/provider/azure/util.go:52-56 | with the same base, two names are equal exactly when their random bytes are |
| Util.BlobNameShape | pkg/provider/azure/util.go:109-114 | the blob name is 34 characters: `cloud-importer-blobVhd`, then 8 hex digits that decode to the random bytes, then `.vhd` |
| Util.BlobNameInjective | pkg/provider/azure/util.go:109-114 | different random bytes give different blob names |
| Util.SliceConvert | pkg/provider/azure/util.go:33-40 | the result has the source's length, and element `i` is `convert(source[i])` |
| Util.BlobUrlShape | pkg/provider/azure/util.go:20 | the blob URL is `https://`, the account, `.blob.core.windows.net/`, the container, `/` and the blob; its length is the sum of the parts plus 32 |
| Util.SasUrl | pkg/provider/azure/util.go:18-21 | the SAS URL is the blob URL of the same account, container and blob, followed by `?` and the token |
| Util.UploadCommandShape | pkg/provider/azure/util.go:44 | the azcopy command holds the VHD path verbatim, then the SAS URL between single quotes, then `--blob-type='PageBlob'` |
| Util.UploadVhd | pkg/provider/azure/util.go:42-50 | the upload command is declared with the given dependencies, or the run stops with the engine's error for `azcopy-vhd`; exports are untouched |
| Util.StorageAccount | pkg/provider/azure/util.go:58-88 | the group, account and container are declared in that order, exactly up to the first refused one; that one's error is returned, and the run succeeds exactly when none is refused |
| Util.StorageResourcesShape | pkg/provider/azure/util.go:59-83 | the group depends on nothing, the account depends on the group, and the container on the group and then the account; only the group is retained on delete; the account is Hot, StorageV2, Premium_LRS in the group, named `randomize("cloudimportersa")`; the container is named `randomize("blobbox")`, in that account and group |
| Util.StorageAccSas | pkg/provider/azure/util.go:90-105 | the SAS request is for the given account and group, permissions `wr`, service `b`, resource type `o`, HTTPS only, and it expires exactly two hours after `now` |
| Deployment.FirstRefused | pkg/provider/azure/util.go:58-88 | the index of the first resource of a plan whose creation fails: every resource before it is accepted, and the resource at it is refused |
| Deployment.ProvisionAll | pkg/provider/azure/util.go:58-88 | declaring a plan step by step, returning on the first error, logs exactly the resources before the first refused one and returns that one's error |
| Deployment.FirstRefusedAppend | pkg/provider/azure/util.go:58-88 | the first refusal in two consecutive plans is the first part's, or else the second part's shifted by the first part's length |
| Deployment.DependenciesPrecedePrefix | pkg/provider/azure/util.go:58-88 | if every dependency of a plan precedes its dependent, the same holds for any prefix at which a run stops |
| Locations.Paginate | pkg/provider/azure/locations.go:40-51 | the pager loop succeeds exactly when every page fetch succeeds, and then yields all names in page order; otherwise it yields the error of a failing page after only successful ones, and no partial list |
| Locations.Locations | pkg/provider/azure/locations.go:30-52 | a credential failure, then a client failure, comes before any page is fetched; with no pages the result is an empty success |
| Locations.TargetRegions | pkg/provider/azure/locations.go:11-28 | an enumeration error is returned unchanged; otherwise there is one target per location, in order, each with one replica and not excluded from latest |
| Locations.SecondPageFailure | pkg/provider/azure/locations.go:42-46 | a failing second page fails the whole enumeration, whatever the first page held |
| Locations.AllNamesLength | pkg/provider/azure/locations.go:47-49 | the number of names gathered is the sum of the page sizes |
| Image.NotFound | pkg/provider/azure/image.go:28 | the error text is `output not found: ` followed by the key |
| Image.ImageRegister | pkg/provider/azure/image.go:25-66 | extraction succeeds exactly when all seven keys are present; otherwise it fails with `output not found: <k>`, where `k` is the first missing key in the order name, arch, offer, publisher, sku, saId, blobURI; on success it copies the seven values, passes `replicate` through and sets the tenant to `orgId` |
| Image.ContractKeysUnrolled | pkg/provider/azure/image.go:26-53 | the first missing key is decided by testing name, arch, offer, publisher, sku, saId and blobURI in that order |
| Image.MissingNameFails | pkg/provider/azure/image.go:26-29 | without a `name` output, extraction fails with `output not found: name`, whatever else is present |
| Image.ContractOutputsKeys | pkg/provider/azure/image.go:14-22 | a request's outputs are keyed by exactly the seven contract keys |
| Image.ExtractionRoundTrip | pkg/provider/azure/image.go:54-64 | exporting a request's fields and extracting them gives back the same request, with its tenant set to `orgId` |
| Image.ExtractionReadsContract | pkg/provider/azure/image.go:54-64 | conversely, re-exporting a successfully extracted request reproduces the outputs on the contract keys |
| Image.ArchitectureOf | pkg/provider/azure/image.go:114-119 | exactly `x86_64` maps to X64; every other string, the empty one included, maps to Arm64 |
| Image.SharingGrantsOnlyTenant | pkg/provider/azure/image.go:187-203 | the gallery update is Groups sharing, and read over all of its groups and ids it grants access to exactly one principal: the given tenant, as an AAD tenant |
| Image.ShareGallery | pkg/provider/azure/image.go:177-213 | the update is submitted exactly when the credential and the client succeed, to the given group and gallery; the result is the first error of credential, client, update and poll |
| Image.RegisterFunc | pkg/provider/azure/image.go:80-175 | the group, gallery, image, region listing and version run in order; the first failure is the run's error and nothing after it is declared; on success the sharing callback runs once exactly when a tenant is set; nothing is exported |
| Image.RegisterSucceedsIff | pkg/provider/azure/image.go:80-175 | registration succeeds exactly when none of the four resources is refused and the regions are listed, whatever the sharing calls answer |
| Image.SharingResultIgnored | pkg/provider/azure/image.go:161-174 | the run's error and declared resources do not depend on what the sharing calls return |
| Image.ReplicateIgnored | pkg/provider/azure/image.go:80-175 | `replicate` has no effect on registration |
| Image.RegisteredResourceShapes | pkg/provider/azure/image.go:81-157 | every declared resource has no explicit dependencies and is not retained. The group is named `randomize(name)`. The gallery, image and version are named after the request, and the gallery has Groups sharing exactly when a tenant is set. The image is V2, Linux, Generalized, with the request's architecture and identifier. The version is Premium_LRS, Full, targets the listed regions and is sourced from the request's account and blob |
| Image.RegisteredVersionSource | pkg/provider/azure/image.go:136-157 | a successful registration declares four resources, the version last, with the request's storage account and blob URI as its disk source |
| Image.ExtractedRequestAlwaysShares | pkg/provider/azure/image.go:63 | an extracted request always carries a tenant, even an empty one, so its gallery gets Groups sharing and a successful run shares it with `orgId` exactly once |
| Ephemeral.StoreAndUploadSteps | pkg/provider/azure/rhelai.go:30-41 | storage, then upload, are declared up to the first refused resource and that one's error is returned; `saId`, `blobURI` and the SAS listing are added exactly when storage went through |
| Snc.ImageName | pkg/provider/azure/snc.go:39 | the image name is the description, a dash and the arch |
| Snc.SncDescriptionFailure | pkg/provider/azure/snc.go:32-38 | a failed description lookup declares nothing, exports only offer, publisher and sku, and returns the lookup's error |
| Snc.SncPublishSteps | pkg/provider/azure/snc.go:42-59 | extraction, storage and upload are declared up to the first refused resource and that one's error is returned; `saId`, `blobURI` and the SAS listing are added exactly when extraction and storage went through |
| Snc.SncRunSteps | pkg/provider/azure/snc.go:31-60 | once the description is known, offer, publisher, sku, the name and the arch are exported whatever happens next; extraction, storage and upload are declared up to the first refused resource and its error is returned; `saId` and `blobURI` are exported, and the SAS is listed once for the run's account and group expiring two hours after `now`, exactly when extraction and storage went through; no callback runs |
| Snc.SncEarlyFailure | pkg/provider/azure/snc.go:42-49 | a refused extraction or storage resource fails the run before `saId` and `blobURI` are exported |
| Snc.SncFixedExports | pkg/provider/azure/snc.go:32-34 | every run, failed or not, exports offer `snc`, publisher `openshift-local` and sku `openshift_local_snc` |
| Snc.SncOutputsSatisfyContract | pkg/provider/azure/snc.go:32-55 | a successful run exports exactly the seven contract keys, and extraction on them succeeds with the name `<description>-<arch>`, the arch, the SNC identifiers, the account id and the blob URL |
| Snc.SncRegistrationUsesUploadedBlob | pkg/provider/azure/snc.go:50-55 | registering a successful run's outputs creates an image version sourced from the account and blob URL the run exported |
| Snc.SncUploadTargetsBlob | pkg/provider/azure/snc.go:51-58 | a successful run declares the extraction first and the upload last; the upload depends on the group, account, container and extraction, and copies the extracted VHD to the exported blob URL plus `?` and the SAS token |
| Snc.SncDependenciesPrecede | pkg/provider/azure/snc.go:42-58 | every dependency of a declared resource was declared before it, and a successful run declared the whole plan |
| Rhelai.RhelaiRunSteps | pkg/provider/azure/rhelai.go:26-43 | offer `rhelai`, publisher `aipcc-cicd` and sku `rhelai` are always exported; storage and upload are declared up to the first refused resource and its error is returned; `saId` and `blobURI` are exported, and the SAS is listed once for the run's account and group expiring two hours after `now`, exactly when storage went through; nothing else is ever exported |
| Rhelai.RhelaiStorageFailure | pkg/provider/azure/rhelai.go:30-33 | a refused storage resource fails the run with only the fixed three keys exported |
| Rhelai.RhelaiExportedKeys | pkg/provider/azure/rhelai.go:27-39 | the only keys ever exported are offer, publisher, sku, saId and blobURI |
| Rhelai.RhelaiNeverRegisters | pkg/provider/azure/rhelai.go:25-43 | `name` and `arch` are never exported, so extraction on any run's outputs fails with `output not found: name` |
| Rhelai.RhelaiImageNameUnused | pkg/provider/azure/rhelai.go:13-23 | the request's image name has no effect on the run |
| Rhelai.RhelaiDependenciesPrecede | pkg/provider/azure/rhelai.go:34-40 | every dependency precedes its dependent. A successful run declares the storage resources and then the upload, and nothing else. The upload depends only on the group, account and container, and copies `vhdPath` to the exported blob URL plus `?` and the SAS token |

## Left out

- pkg/provider/azure/azure.go is not part of this model. It holds the provider's configuration-to-environment map and a wrapper over a credentials package that is not available here.
- Pulumi engine semantics are not modelled: asynchronous `Output` resolution, `ApplyT` scheduling, preview mode, and the parallel creation that `DependsOn` allows. Resources are a log in declaration order, and dependencies are lists of logical names.
- Resource creation is an oracle keyed by logical name. Why the engine refuses a resource, and duplicate-name checks, are outside the model.
- Azure SDK calls are oracle answers: the credential chain, the subscription id environment variable, the subscriptions client and pager, `BeginUpdate` and `PollUntilDone`.
- The bundle package (`GetDescription`, `Extract`, the extracted file name) is not part of this model. Its answers are parameters.
- `crypto/rand` and `time.Now()` are parameters.
- Util.StorageAccSas: the expiry is an integer count of nanoseconds. Its RFC 3339 rendering with nanoseconds is not modelled.
- Image.ImageRegister: output values are strings. The panic that Go's `.Value.(string)` raises on a non-string output is not modelled.
- Locations.Paginate: a location is its name. The panic that Go's `*loc.Name` raises on a location returned without a name (pkg/provider/azure/locations.go:48) is not modelled.
- Snc.SncEphemeralRun: the description lookup either fails or returns a name. The panic that Go's `*imageBaseName` raises when the lookup returns a nil name with a nil error (pkg/provider/azure/snc.go:39) is not modelled.
- Locations.Locations: an empty enumeration is an empty sequence. Go returns a nil slice, which behaves the same for every use in the provider.
- The listing of the storage account SAS can fail only through its output, which is not modelled. A run records only the request it made.
- Image.ShareGallery runs when the registration run succeeds and a tenant is set. Its later, asynchronous execution is not modelled.
