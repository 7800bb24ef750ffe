/** The RHEL AI ephemeral build: exports the fixed offer, publisher and sku,
    provisions storage and uploads a local VHD file, exporting the storage
    account id and the blob URI. Unlike the SNC build it exports neither the
    image name nor the architecture. */
module Rhelai {
  import opened Wrappers
  import opened Arm
  import opened Deployment
  import opened Util
  import opened Ephemeral
  import Image

  const RhelaiOffer := "rhelai"
  const RhelaiPublisher := "aipcc-cicd"
  const RhelaiSku := "rhelai"

  /** The path of the VHD to upload and an image name the run never reads. */
  datatype RhelaiRequest = RhelaiRequest(vhdPath: string, imageName: string)

  /** The upload of the local VHD waits for the resource group, the account
      and the container, and for nothing else. */
  function RhelaiUploadDeps(n: StorageNames): seq<string> {
    [n.groupUrn, AccountUrn, ContainerUrn]
  }

  /** The three fixed exports every run starts with. */
  function RhelaiFixed(): map<string, string> {
    map[Image.OutOffer := RhelaiOffer, Image.OutPublisher := RhelaiPublisher, Image.OutSku := RhelaiSku]
  }

  /** `rhelaiEphemeralRunFunc`. */
  function RhelaiEphemeralRun(r: RhelaiRequest, env: EphemeralEnv): Outcome {
    var o := Start.Export(Image.OutOffer, RhelaiOffer)
                  .Export(Image.OutPublisher, RhelaiPublisher)
                  .Export(Image.OutSku, RhelaiSku);
    var n := NamesOf(env.storageRandom);
    StoreAndUpload(o, env, n, BlobName(env.blobRandom), r.vhdPath, RhelaiUploadDeps(n))
  }

  /** The resources a run plans for its random names. */
  function RhelaiRunPlan(r: RhelaiRequest, env: EphemeralEnv): seq<Resource> {
    var n := NamesOf(env.storageRandom);
    UploadPlan(env, n, BlobName(env.blobRandom), r.vhdPath, RhelaiUploadDeps(n))
  }

  /** A whole run: offer, publisher and sku are exported whatever happens;
      the plan's resources up to the first refused one are declared and that
      one's error returned; the storage id and blob URI are exported, and
      the SAS listed once for the run's account and group, only when storage
      went through, and nothing else is ever exported. */
  lemma RhelaiRunSteps(r: RhelaiRequest, env: EphemeralEnv)
    ensures var o := RhelaiEphemeralRun(r, env);
            var plan := RhelaiRunPlan(r, env);
            var k := FirstRefused(plan, env.rejects);
            && o.ctx.resources == plan[..k]
            && o.err == (if k < |plan| then Some(env.rejects[plan[k].urn]) else None)
            && o.ctx.callbacks == []
            && o.ctx.exports ==
                 (if k >= 3 then RhelaiFixed()[Image.OutSaId := env.accountId][Image.OutBlobUri := BlobUri(env)]
                  else RhelaiFixed())
            && o.ctx.sasRequests ==
                 (if k >= 3 then [StorageAccSas(NamesOf(env.storageRandom).accountName,
                                                NamesOf(env.storageRandom).groupName, env.now)]
                  else [])
  {
    var o := Start.Export(Image.OutOffer, RhelaiOffer)
                  .Export(Image.OutPublisher, RhelaiPublisher)
                  .Export(Image.OutSku, RhelaiSku);
    assert o.ctx.exports == RhelaiFixed();
    var n := NamesOf(env.storageRandom);
    StoreAndUploadSteps(o, env, n, BlobName(env.blobRandom), r.vhdPath, RhelaiUploadDeps(n));
  }

  /** A storage failure stops the run before the storage id and the blob
      URI are exported: only the fixed three are. */
  lemma RhelaiStorageFailure(r: RhelaiRequest, env: EphemeralEnv)
    requires FirstRefused(StorageResources(NamesOf(env.storageRandom)), env.rejects) < 3
    ensures RhelaiEphemeralRun(r, env).err.Some?
    ensures RhelaiEphemeralRun(r, env).ctx.exports == RhelaiFixed()
    ensures Image.OutSaId !in RhelaiEphemeralRun(r, env).ctx.exports
    ensures Image.OutBlobUri !in RhelaiEphemeralRun(r, env).ctx.exports
  {
    RhelaiRunSteps(r, env);
    var plan := RhelaiRunPlan(r, env);
    FirstRefusedAppend(plan[..3], plan[3..], env.rejects);
    assert plan[..3] + plan[3..] == plan;
  }

  /** The only keys a run ever exports: the fixed three, the storage id
      and the blob URI. */
  lemma RhelaiExportedKeys(r: RhelaiRequest, env: EphemeralEnv)
    ensures RhelaiEphemeralRun(r, env).ctx.exports.Keys
            <= {Image.OutOffer, Image.OutPublisher, Image.OutSku, Image.OutSaId, Image.OutBlobUri}
  {
    RhelaiRunSteps(r, env);
  }

  /** The run never exports the image name (nor the architecture), so
      registering its outputs always fails on the first contract key,
      whatever the run did otherwise. */
  lemma RhelaiNeverRegisters(r: RhelaiRequest, env: EphemeralEnv, replicate: bool, orgId: string)
    ensures Image.OutName !in RhelaiEphemeralRun(r, env).ctx.exports
    ensures Image.OutArch !in RhelaiEphemeralRun(r, env).ctx.exports
    ensures Image.ImageRegister(RhelaiEphemeralRun(r, env).ctx.exports, replicate, orgId)
            == Failure(Image.NotFound(Image.OutName))
  {
    var e := RhelaiEphemeralRun(r, env).ctx.exports;
    RhelaiExportedKeys(r, env);
    Image.MissingNameFails(e, replicate, orgId);
  }

  /** The image name of the request has no effect on the run. */
  lemma RhelaiImageNameUnused(r: RhelaiRequest, env: EphemeralEnv, other: string)
    ensures RhelaiEphemeralRun(r.(imageName := other), env) == RhelaiEphemeralRun(r, env)
  {
  }

  /** A successful run declared the storage resources and then the upload
      of `vhdPath` to the SAS URL of the exported blob URI, and every
      dependency of a declared resource was declared before it. */
  lemma RhelaiDependenciesPrecede(r: RhelaiRequest, env: EphemeralEnv)
    ensures DependenciesPrecede(RhelaiEphemeralRun(r, env).ctx.resources)
    ensures RhelaiEphemeralRun(r, env).err.None? ==>
              && RhelaiEphemeralRun(r, env).ctx.resources == RhelaiRunPlan(r, env)
              && RhelaiEphemeralRun(r, env).ctx.resources[3].options.dependsOn
                   == [NamesOf(env.storageRandom).groupUrn, AccountUrn, ContainerUrn]
              && RhelaiEphemeralRun(r, env).ctx.resources[3].args
                   == CommandArgs(UploadCommand(r.vhdPath, BlobUri(env) + "?" + env.sasToken))
  {
    RhelaiRunSteps(r, env);
    PlanDependenciesPrecede(r, env, NamesOf(env.storageRandom), BlobName(env.blobRandom));
    var plan := RhelaiRunPlan(r, env);
    DependenciesPrecedePrefix(plan, FirstRefused(plan, env.rejects));
    assert plan[..4] == plan;
  }

  /** The plan lists every resource after the ones it depends on. */
  lemma PlanDependenciesPrecede(r: RhelaiRequest, env: EphemeralEnv, n: StorageNames, blob: string)
    ensures DependenciesPrecede(UploadPlan(env, n, blob, r.vhdPath, RhelaiUploadDeps(n)))
  {
    var plan := UploadPlan(env, n, blob, r.vhdPath, RhelaiUploadDeps(n));
    forall i, d | 0 <= i < |plan| && 0 <= d < |plan[i].options.dependsOn|
      ensures DeclaredBefore(plan, i, d)
    {
      if i == 1 {
        assert plan[0].urn == plan[1].options.dependsOn[d];
      } else if i == 2 {
        assert plan[d].urn == plan[2].options.dependsOn[d];
      } else {
        assert plan[d].urn == plan[3].options.dependsOn[d];
      }
    }
  }
}
