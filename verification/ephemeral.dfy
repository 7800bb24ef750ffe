/** The tail the two ephemeral builds share once their image file is known:
    storage, the storage id export, the SAS listing, the blob URI export
    and the upload. Both run functions spell this sequence out inline; it is
    defined once here. */
module Ephemeral {
  import opened Wrappers
  import opened Arm
  import opened Deployment
  import opened Util
  import Image

  /** The resources the tail declares: the storage resources, then the
      upload of `vhdPath` to the blob's SAS URL. */
  function UploadPlan(env: EphemeralEnv, n: StorageNames, blob: string, vhdPath: string,
                      dependsOn: seq<string>): seq<Resource> {
    StorageResources(n) + [UploadResource(vhdPath, SasUrl(n.accountName, n.containerName, blob, env.sasToken), dependsOn)]
  }

  /** The blob URI a run exports: the blob URL of its random account,
      container and blob names. */
  function BlobUri(env: EphemeralEnv): string {
    var n := NamesOf(env.storageRandom);
    BlobUrl(n.accountName, n.containerName, BlobName(env.blobRandom))
  }

  function StoreAndUpload(o: Outcome, env: EphemeralEnv, n: StorageNames, blob: string, vhdPath: string,
                          dependsOn: seq<string>): Outcome {
    var o := StorageAccount(o, n, env.rejects);
    var o := o.Export(Image.OutSaId, env.accountId);
    var o := o.ListSas(StorageAccSas(n.accountName, n.groupName, env.now));
    var o := o.Export(Image.OutBlobUri, BlobUrl(n.accountName, n.containerName, blob));
    UploadVhd(o, vhdPath, SasUrl(n.accountName, n.containerName, blob, env.sasToken), dependsOn, env.rejects)
  }

  /** From a healthy outcome: the plan's resources before the first refused
      one are declared and that one's error returned; the storage id, the
      blob URI and the SAS listing are added exactly when storage went
      through, and no callback runs. */
  lemma StoreAndUploadSteps(o: Outcome, env: EphemeralEnv, n: StorageNames, blob: string, vhdPath: string,
                            dependsOn: seq<string>)
    requires !o.Failed()
    ensures var p := StoreAndUpload(o, env, n, blob, vhdPath, dependsOn);
            var plan := UploadPlan(env, n, blob, vhdPath, dependsOn);
            var k := FirstRefused(plan, env.rejects);
            && p.ctx.resources == o.ctx.resources + plan[..k]
            && p.err == (if k < |plan| then Some(env.rejects[plan[k].urn]) else None)
            && p.ctx.callbacks == o.ctx.callbacks
            && p.ctx.exports ==
                 (if k >= 3 then o.ctx.exports[Image.OutSaId := env.accountId]
                                  [Image.OutBlobUri := BlobUrl(n.accountName, n.containerName, blob)]
                  else o.ctx.exports)
            && p.ctx.sasRequests == o.ctx.sasRequests +
                 (if k >= 3 then [StorageAccSas(n.accountName, n.groupName, env.now)] else [])
  {
    var plan := UploadPlan(env, n, blob, vhdPath, dependsOn);
    var storage := StorageResources(n);
    FirstRefusedAppend(storage, plan[3..], env.rejects);
    assert plan == storage + plan[3..];
    var k := FirstRefused(plan, env.rejects);
    var o1 := StorageAccount(o, n, env.rejects);
    if k < 3 {
      assert o1.Failed();
      assert plan[..k] == storage[..k];
      assert plan[k] == storage[k];
    } else {
      assert o1 == Outcome(o.ctx.(resources := o.ctx.resources + storage), None);
      assert plan[..3] == storage;
      assert plan[..4] == plan;
    }
  }
}
