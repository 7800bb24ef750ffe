/** The OpenShift Local (SNC) ephemeral build: exports the fixed offer,
    publisher and sku, derives the image name from the bundle description,
    extracts the bundle, provisions storage and uploads the extracted VHD,
    exporting the rest of the output contract along the way. The bundle
    package (description lookup, extraction) is an oracle. */
module Snc {
  import opened Wrappers
  import opened Arm
  import opened Deployment
  import opened Util
  import opened Ephemeral
  import Image

  const SncOffer := "snc"
  const SncPublisher := "openshift-local"
  const SncSku := "openshift_local_snc"

  datatype SncRequest = SncRequest(bundleUri: string, shasumUri: string, arch: string)

  /** Answers of the bundle package: the description lookup (the image base
      name), the logical name of the extraction resource (its refusal is the
      extraction error), and the file name the extraction writes. */
  datatype BundleOracle = BundleOracle(description: Result<string, Error>, extractUrn: string, extractedVhd: string)

  /** `fmt.Sprintf("%s-%s", base, arch)`. */
  function ImageName(base: string, arch: string): (name: string)
    ensures |name| == |base| + 1 + |arch|
    ensures name[..|base|] == base && name[|base|] == '-' && name[|base| + 1..] == arch
  {
    base + "-" + arch
  }

  function ExtractResource(r: SncRequest, b: BundleOracle): Resource {
    Resource(b.extractUrn, BundleExtractArgs(r.bundleUri, r.shasumUri, "azure"), NoOptions)
  }

  /** The upload of the extracted VHD waits for the resource group, the
      account, the container and the extraction. */
  function SncUploadDeps(b: BundleOracle, n: StorageNames): seq<string> {
    [n.groupUrn, AccountUrn, ContainerUrn, b.extractUrn]
  }

  /** Every resource a successful publication declares, in order. */
  function SncPlan(r: SncRequest, b: BundleOracle, env: EphemeralEnv, n: StorageNames, blob: string): seq<Resource> {
    [ExtractResource(r, b)] + UploadPlan(env, n, blob, b.extractedVhd, SncUploadDeps(b, n))
  }

  /** `sncEphemeralRunFunc`. */
  function SncEphemeralRun(r: SncRequest, b: BundleOracle, env: EphemeralEnv): Outcome {
    var o := Start.Export(Image.OutOffer, SncOffer)
                  .Export(Image.OutPublisher, SncPublisher)
                  .Export(Image.OutSku, SncSku);
    match b.description
    case Failure(e) => o.Abort(e)
    case Success(base) =>
      var o := o.Export(Image.OutName, ImageName(base, r.arch)).Export(Image.OutArch, r.arch);
      SncPublish(o, r, b, env, NamesOf(env.storageRandom), BlobName(env.blobRandom))
  }

  /** The part of the run after the name is known, given the storage names
      and the blob name: extraction, then storage and the upload of the
      extracted file. */
  function SncPublish(o: Outcome, r: SncRequest, b: BundleOracle, env: EphemeralEnv,
                      n: StorageNames, blob: string): Outcome {
    var o := o.Provision(ExtractResource(r, b), env.rejects);
    StoreAndUpload(o, env, n, blob, b.extractedVhd, SncUploadDeps(b, n))
  }

  /** SncPublish from a healthy outcome: the resources before the first
      refused one of the plan are declared and its error returned; the
      storage id, blob URI and SAS listing are added exactly when extraction
      and storage went through. */
  lemma SncPublishSteps(o: Outcome, r: SncRequest, b: BundleOracle, env: EphemeralEnv,
                        n: StorageNames, blob: string)
    requires !o.Failed()
    ensures var p := SncPublish(o, r, b, env, n, blob);
            var plan := SncPlan(r, b, env, n, blob);
            var k := FirstRefused(plan, env.rejects);
            && p.ctx.resources == o.ctx.resources + plan[..k]
            && p.err == (if k < |plan| then Some(env.rejects[plan[k].urn]) else None)
            && p.ctx.callbacks == o.ctx.callbacks
            && p.ctx.exports ==
                 (if k >= 4 then o.ctx.exports[Image.OutSaId := env.accountId]
                                  [Image.OutBlobUri := BlobUrl(n.accountName, n.containerName, blob)]
                  else o.ctx.exports)
            && p.ctx.sasRequests == o.ctx.sasRequests +
                 (if k >= 4 then [StorageAccSas(n.accountName, n.groupName, env.now)] else [])
  {
    var head := [ExtractResource(r, b)];
    var tail := UploadPlan(env, n, blob, b.extractedVhd, SncUploadDeps(b, n));
    FirstRefusedAppend(head, tail, env.rejects);
    if b.extractUrn in env.rejects {
      ExtractionRefused(o, r, b, env, n, blob);
    } else {
      var o1 := o.Provision(ExtractResource(r, b), env.rejects);
      ExtractionDone(o, r, b, env, n, blob);
      StoreAndUploadSteps(o1, env, n, blob, b.extractedVhd, SncUploadDeps(b, n));
      ExtractedPlan(head, tail, FirstRefused(tail, env.rejects));
    }
  }

  /** A refused extraction ends the publication with its error. */
  lemma ExtractionRefused(o: Outcome, r: SncRequest, b: BundleOracle, env: EphemeralEnv,
                          n: StorageNames, blob: string)
    requires !o.Failed() && b.extractUrn in env.rejects
    ensures SncPublish(o, r, b, env, n, blob) == Outcome(o.ctx, Some(env.rejects[b.extractUrn]))
  {
  }

  /** After the extraction is declared, the shared tail runs. */
  lemma ExtractionDone(o: Outcome, r: SncRequest, b: BundleOracle, env: EphemeralEnv,
                       n: StorageNames, blob: string)
    requires !o.Failed() && b.extractUrn !in env.rejects
    ensures o.Provision(ExtractResource(r, b), env.rejects)
            == Outcome(o.ctx.(resources := o.ctx.resources + [ExtractResource(r, b)]), None)
    ensures SncPublish(o, r, b, env, n, blob)
            == StoreAndUpload(o.Provision(ExtractResource(r, b), env.rejects), env, n, blob,
                              b.extractedVhd, SncUploadDeps(b, n))
  {
  }

  /** Cutting the plan after the extraction and `k` more resources. */
  lemma ExtractedPlan(head: seq<Resource>, tail: seq<Resource>, k: nat)
    requires |head| == 1 && k <= |tail|
    ensures (head + tail)[..1 + k] == head + tail[..k]
    ensures k < |tail| ==> (head + tail)[1 + k] == tail[k]
  {
  }

  /** A failed description lookup: only offer, publisher and sku were
      exported, nothing was declared, the lookup's error is returned. */
  lemma SncDescriptionFailure(r: SncRequest, b: BundleOracle, env: EphemeralEnv)
    requires b.description.Failure?
    ensures SncEphemeralRun(r, b, env) ==
              Outcome(Ctx([], map[Image.OutOffer := SncOffer, Image.OutPublisher := SncPublisher,
                                  Image.OutSku := SncSku], [], []),
                      Some(b.description.error))
  {
  }

  /** What a run has exported once the description is known. */
  function SncNamed(r: SncRequest, base: string): map<string, string> {
    map[Image.OutOffer := SncOffer, Image.OutPublisher := SncPublisher, Image.OutSku := SncSku,
        Image.OutName := ImageName(base, r.arch), Image.OutArch := r.arch]
  }

  /** The resources a run plans for its random names. */
  function SncRunPlan(r: SncRequest, b: BundleOracle, env: EphemeralEnv): seq<Resource> {
    SncPlan(r, b, env, NamesOf(env.storageRandom), BlobName(env.blobRandom))
  }

  /** Once the description is known: offer, publisher, sku, name and arch
      are exported whatever happens next; then the plan's resources up to
      the first refused one are declared, and the storage id and blob URI
      are exported, and the SAS listed once for the run's account and group,
      only when extraction and storage went through. */
  lemma SncRunSteps(r: SncRequest, b: BundleOracle, env: EphemeralEnv)
    requires b.description.Success?
    ensures var o := SncEphemeralRun(r, b, env);
            var plan := SncRunPlan(r, b, env);
            var k := FirstRefused(plan, env.rejects);
            var named := SncNamed(r, b.description.value);
            && o.ctx.resources == plan[..k]
            && o.err == (if k < |plan| then Some(env.rejects[plan[k].urn]) else None)
            && o.ctx.callbacks == []
            && o.ctx.exports ==
                 (if k >= 4 then named[Image.OutSaId := env.accountId][Image.OutBlobUri := BlobUri(env)]
                  else named)
            && o.ctx.sasRequests ==
                 (if k >= 4 then [StorageAccSas(NamesOf(env.storageRandom).accountName,
                                                NamesOf(env.storageRandom).groupName, env.now)]
                  else [])
  {
    var base := b.description.value;
    var o := Start.Export(Image.OutOffer, SncOffer)
                  .Export(Image.OutPublisher, SncPublisher)
                  .Export(Image.OutSku, SncSku)
                  .Export(Image.OutName, ImageName(base, r.arch)).Export(Image.OutArch, r.arch);
    assert o.ctx.exports == SncNamed(r, base);
    SncPublishSteps(o, r, b, env, NamesOf(env.storageRandom), BlobName(env.blobRandom));
  }

  /** The log and the error of a run once the description is known: the
      part of `SncRunSteps` about declared resources. */
  lemma SncRunLog(r: SncRequest, b: BundleOracle, env: EphemeralEnv)
    requires b.description.Success?
    ensures var o := SncEphemeralRun(r, b, env);
            var plan := SncRunPlan(r, b, env);
            var k := FirstRefused(plan, env.rejects);
            && o.ctx.resources == plan[..k]
            && o.err == (if k < |plan| then Some(env.rejects[plan[k].urn]) else None)
  {
    var base := b.description.value;
    var o := Start.Export(Image.OutOffer, SncOffer)
                  .Export(Image.OutPublisher, SncPublisher)
                  .Export(Image.OutSku, SncSku)
                  .Export(Image.OutName, ImageName(base, r.arch)).Export(Image.OutArch, r.arch);
    SncPublishSteps(o, r, b, env, NamesOf(env.storageRandom), BlobName(env.blobRandom));
  }

  /** The exports of a run once the description is known: the part of
      `SncRunSteps` about outputs. */
  lemma SncRunExports(r: SncRequest, b: BundleOracle, env: EphemeralEnv)
    requires b.description.Success?
    ensures var e := SncEphemeralRun(r, b, env).ctx.exports;
            var named := SncNamed(r, b.description.value);
            e == named || e == named[Image.OutSaId := env.accountId][Image.OutBlobUri := BlobUri(env)]
  {
    var base := b.description.value;
    var o := Start.Export(Image.OutOffer, SncOffer)
                  .Export(Image.OutPublisher, SncPublisher)
                  .Export(Image.OutSku, SncSku)
                  .Export(Image.OutName, ImageName(base, r.arch)).Export(Image.OutArch, r.arch);
    assert o.ctx.exports == SncNamed(r, base);
    SncPublishSteps(o, r, b, env, NamesOf(env.storageRandom), BlobName(env.blobRandom));
  }

  /** A refused extraction or storage resource stops the run before the
      storage id and the blob URI are exported: only the fixed three, the
      name and the arch are. */
  lemma SncEarlyFailure(r: SncRequest, b: BundleOracle, env: EphemeralEnv)
    requires b.description.Success?
    requires b.extractUrn in env.rejects
             || FirstRefused(StorageResources(NamesOf(env.storageRandom)), env.rejects) < 3
    ensures SncEphemeralRun(r, b, env).err.Some?
    ensures SncEphemeralRun(r, b, env).ctx.exports == SncNamed(r, b.description.value)
    ensures Image.OutSaId !in SncEphemeralRun(r, b, env).ctx.exports
    ensures Image.OutBlobUri !in SncEphemeralRun(r, b, env).ctx.exports
  {
    SncRunSteps(r, b, env);
    var plan := SncRunPlan(r, b, env);
    var storage := StorageResources(NamesOf(env.storageRandom));
    FirstRefusedAppend(plan[..1], plan[1..], env.rejects);
    FirstRefusedAppend(plan[1..4], plan[4..], env.rejects);
    assert plan[..1] + plan[1..] == plan;
    assert plan[1..4] + plan[4..] == plan[1..];
    assert plan[1..4] == storage;
  }

  /** Offer, publisher and sku are exported before anything that can fail,
      so every outcome has them. */
  lemma SncFixedExports(r: SncRequest, b: BundleOracle, env: EphemeralEnv)
    ensures var e := SncEphemeralRun(r, b, env).ctx.exports;
            && Image.OutOffer in e && e[Image.OutOffer] == SncOffer
            && Image.OutPublisher in e && e[Image.OutPublisher] == SncPublisher
            && Image.OutSku in e && e[Image.OutSku] == SncSku
  {
    if b.description.Success? {
      SncRunExports(r, b, env);
    } else {
      SncDescriptionFailure(r, b, env);
    }
  }

  /** A successful run exports the whole contract and nothing else, and
      extraction reads back the name `<base>-<arch>`, the arch verbatim, the
      SNC identifiers, the storage account id and the blob URL. */
  lemma SncOutputsSatisfyContract(r: SncRequest, b: BundleOracle, env: EphemeralEnv,
                                  replicate: bool, orgId: string)
    requires SncEphemeralRun(r, b, env).err.None?
    ensures b.description.Success?
    ensures SncEphemeralRun(r, b, env).ctx.exports.Keys == set k | k in Image.ContractKeys
    ensures Image.ImageRegister(SncEphemeralRun(r, b, env).ctx.exports, replicate, orgId)
            == Success(Image.RegisterRequest(
                 ImageName(b.description.value, r.arch), r.arch, SncOffer, SncPublisher, SncSku,
                 env.accountId, BlobUri(env), replicate, Some(orgId)))
  {
    var req := Image.RegisterRequest(
                 ImageName(b.description.value, r.arch), r.arch, SncOffer, SncPublisher, SncSku,
                 env.accountId, BlobUri(env), replicate, Some(orgId));
    SncSuccessExports(r, b, env, req);
    Image.ExtractionRoundTrip(req, orgId);
    Image.ContractOutputsKeys(req);
  }

  /** A successful run's exports are exactly the contract outputs of the
      request it describes. */
  lemma SncSuccessExports(r: SncRequest, b: BundleOracle, env: EphemeralEnv, req: Image.RegisterRequest)
    requires SncEphemeralRun(r, b, env).err.None?
    requires b.description.Success?
    requires req.name == ImageName(b.description.value, r.arch) && req.arch == r.arch
    requires req.offer == SncOffer && req.publisher == SncPublisher && req.sku == SncSku
    requires req.storageAccountId == env.accountId && req.blobUri == BlobUri(env)
    ensures SncEphemeralRun(r, b, env).ctx.exports == Image.ContractOutputs(req)
  {
    SncRunSteps(r, b, env);
    assert FirstRefused(SncRunPlan(r, b, env), env.rejects) == 5;
    NamedContract(r, b.description.value, env.accountId, BlobUri(env), req);
  }

  lemma NamedContract(r: SncRequest, base: string, accountId: string, blobUri: string,
                      req: Image.RegisterRequest)
    requires req.name == ImageName(base, r.arch) && req.arch == r.arch
    requires req.offer == SncOffer && req.publisher == SncPublisher && req.sku == SncSku
    requires req.storageAccountId == accountId && req.blobUri == blobUri
    ensures SncNamed(r, base)[Image.OutSaId := accountId][Image.OutBlobUri := blobUri]
            == Image.ContractOutputs(req)
  {
  }

  /** End to end: registering the outputs of a successful run creates an
      image version whose source is the storage account and the blob the run
      uploaded the extracted VHD to. */
  lemma SncRegistrationUsesUploadedBlob(r: SncRequest, b: BundleOracle, env: EphemeralEnv,
                                        replicate: bool, orgId: string, renv: Image.RegisterEnv)
    requires SncEphemeralRun(r, b, env).err.None?
    ensures b.description.Success?
    ensures var req := Image.RegisterRequest(
                         ImageName(b.description.value, r.arch), r.arch, SncOffer, SncPublisher, SncSku,
                         env.accountId, BlobUri(env), replicate, Some(orgId));
            var o := Image.RegisterFunc(req, renv);
            && Image.ImageRegister(SncEphemeralRun(r, b, env).ctx.exports, replicate, orgId) == Success(req)
            && (o.err.None? ==>
                  o.ctx.resources[3].args.osDiskImage == DiskImageSource(env.accountId, BlobUri(env)))
  {
    SncOutputsSatisfyContract(r, b, env, replicate, orgId);
    var req := Image.RegisterRequest(
                 ImageName(b.description.value, r.arch), r.arch, SncOffer, SncPublisher, SncSku,
                 env.accountId, BlobUri(env), replicate, Some(orgId));
    Image.RegisteredVersionSource(req, renv);
  }

  /** The last resource of a successful run uploads the extracted VHD to
      the exported blob URI, authorized by the listed SAS token. */
  lemma SncUploadTargetsBlob(r: SncRequest, b: BundleOracle, env: EphemeralEnv)
    requires SncEphemeralRun(r, b, env).err.None?
    ensures |SncEphemeralRun(r, b, env).ctx.resources| == 5
    ensures SncEphemeralRun(r, b, env).ctx.resources[0] == ExtractResource(r, b)
    ensures SncEphemeralRun(r, b, env).ctx.resources[4].urn == UploadUrn
    ensures SncEphemeralRun(r, b, env).ctx.resources[4].options.dependsOn
              == [NamesOf(env.storageRandom).groupUrn, AccountUrn, ContainerUrn, b.extractUrn]
    ensures SncEphemeralRun(r, b, env).ctx.resources[4].args
              == CommandArgs(UploadCommand(b.extractedVhd, BlobUri(env) + "?" + env.sasToken))
  {
    SncDependenciesPrecede(r, b, env);
  }

  /** Every dependency of a declared resource was declared before it, and
      a successful run declared the whole plan, the upload last. */
  lemma SncDependenciesPrecede(r: SncRequest, b: BundleOracle, env: EphemeralEnv)
    ensures DependenciesPrecede(SncEphemeralRun(r, b, env).ctx.resources)
    ensures SncEphemeralRun(r, b, env).err.None? ==>
              SncEphemeralRun(r, b, env).ctx.resources == SncRunPlan(r, b, env)
  {
    if b.description.Success? {
      SncRunLog(r, b, env);
      PlanDependenciesPrecede(r, b, env, NamesOf(env.storageRandom), BlobName(env.blobRandom));
      var plan := SncRunPlan(r, b, env);
      DependenciesPrecedePrefix(plan, FirstRefused(plan, env.rejects));
      assert plan[..5] == plan;
    }
  }

  /** The plan lists every resource after the ones it depends on. */
  lemma PlanDependenciesPrecede(r: SncRequest, b: BundleOracle, env: EphemeralEnv, n: StorageNames, blob: string)
    ensures DependenciesPrecede(SncPlan(r, b, env, n, blob))
  {
    var plan := SncPlan(r, b, env, n, blob);
    forall i, d | 0 <= i < |plan| && 0 <= d < |plan[i].options.dependsOn|
      ensures DeclaredBefore(plan, i, d)
    {
      if i == 2 {
        assert plan[1].urn == plan[2].options.dependsOn[d];
      } else if i == 3 {
        assert plan[1 + d].urn == plan[3].options.dependsOn[d];
      } else {
        assert plan[if d == 3 then 0 else d + 1].urn == plan[4].options.dependsOn[d];
      }
    }
  }
}
