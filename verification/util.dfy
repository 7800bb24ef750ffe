/** Helpers shared by the producers and the registration: randomized names,
    blob naming, the URL templates, the upload command, the storage
    resources and the SAS listing. Random bytes and the clock are
    parameters. */
module Util {
  import opened Wrappers
  import opened Arm
  import opened Deployment
  import Hex

  /** The four bytes `crypto/rand` fills for one name. */
  type Bytes4 = b: seq<Hex.byte> | |b| == 4 witness [0, 0, 0, 0]

  /** `fmt.Sprintf("%s-%x", base, r)`. */
  function Randomize(base: string, random: Bytes4): string {
    base + "-" + Hex.Encode(random)
  }

  /** A randomized name is the base, a dash, and eight lower-case hex digits
      that decode back to the random bytes. */
  lemma RandomizeShape(base: string, random: Bytes4)
    ensures var name := Randomize(base, random);
            && |name| == |base| + 9
            && name[..|base| + 1] == base + "-"
            && (forall i :: |base| + 1 <= i < |name| ==> Hex.IsLowerHex(name[i]))
            && Hex.Decode(name[|base| + 1..]) == Some(random)
  {
    var suffix := Hex.Encode(random);
    Hex.DecodeEncode(random);
    assert (base + "-" + suffix)[|base| + 1..] == suffix;
  }

  /** Same base, same name exactly when the random bytes are the same. */
  lemma RandomizeInjective(base: string, a: Bytes4, b: Bytes4)
    ensures Randomize(base, a) == Randomize(base, b) <==> a == b
  {
    if Randomize(base, a) == Randomize(base, b) {
      RandomizeShape(base, a);
      RandomizeShape(base, b);
    }
  }

  const BlobPrefix := "cloud-importer-blobVhd"
  const BlobSuffix := ".vhd"

  /** `fmt.Sprintf("cloud-importer-blobVhd%x.vhd", b)`. */
  function BlobName(random: Bytes4): string {
    BlobPrefix + Hex.Encode(random) + BlobSuffix
  }

  /** A blob name is 34 characters: the fixed prefix, eight lower-case hex
      digits that decode back to the random bytes, and `.vhd`. */
  lemma BlobNameShape(random: Bytes4)
    ensures var name := BlobName(random);
            && |name| == 34
            && name[..22] == BlobPrefix
            && name[30..] == BlobSuffix
            && (forall i :: 22 <= i < 30 ==> Hex.IsLowerHex(name[i]))
            && Hex.Decode(name[22..30]) == Some(random)
  {
    var hex := Hex.Encode(random);
    Hex.DecodeEncode(random);
    assert (BlobPrefix + hex + BlobSuffix)[22..30] == hex;
  }

  /** Different random bytes give different blob names. */
  lemma BlobNameInjective(a: Bytes4, b: Bytes4)
    ensures BlobName(a) == BlobName(b) <==> a == b
  {
    if BlobName(a) == BlobName(b) {
      BlobNameShape(a);
      BlobNameShape(b);
    }
  }

  /** `sliceConvert`: `convert` applied to each element, in order. */
  function SliceConvert<Y, T>(source: seq<Y>, convert: Y -> T): (result: seq<T>)
    ensures |result| == |source|
    ensures forall i :: 0 <= i < |source| ==> result[i] == convert(source[i])
  {
    if source == [] then []
    else [convert(source[0])] + SliceConvert(source[1..], convert)
  }

  /** `blobURLBase`: `https://%s.blob.core.windows.net/%s/%s`. */
  function BlobUrl(account: string, container: string, blob: string): string {
    "https://" + account + ".blob.core.windows.net/" + container + "/" + blob
  }

  /** A blob URL is https, names the account as the host's first label,
      then has the container and the blob as its two path segments. */
  lemma BlobUrlShape(account: string, container: string, blob: string)
    ensures |BlobUrl(account, container, blob)| == |account| + |container| + |blob| + 32
    ensures BlobUrl(account, container, blob)[..8] == "https://"
    ensures BlobUrl(account, container, blob)[8..8 + |account|] == account
    ensures BlobUrl(account, container, blob)[8 + |account|..31 + |account|] == ".blob.core.windows.net/"
    ensures BlobUrl(account, container, blob)[31 + |account|..31 + |account| + |container|] == container
    ensures BlobUrl(account, container, blob)[31 + |account| + |container|] == '/'
    ensures BlobUrl(account, container, blob)[|account| + |container| + 32..] == blob
  {
    var host := "https://" + account + ".blob.core.windows.net/";
    var url := host + (container + "/" + blob);
    assert BlobUrl(account, container, blob) == url;
    assert url[..|host|] == host;
    assert host[8..8 + |account|] == account;
    assert host[8 + |account|..] == ".blob.core.windows.net/";
    var path := container + "/" + blob;
    assert url[|host|..] == path;
    assert path[..|container|] == container && path[|container|] == '/';
  }

  /** `sasURLBase`: `https://%s.blob.core.windows.net/%s/%s?%s`. */
  function SasUrl(account: string, container: string, blob: string, token: string): (url: string)
    ensures url == BlobUrl(account, container, blob) + "?" + token
  {
    "https://" + account + ".blob.core.windows.net/" + container + "/" + blob + "?" + token
  }

  /** The azcopy invocation of `uploadVHD`. */
  function UploadCommand(vhdPath: string, sasUrl: string): string {
    "azcopy cp " + vhdPath + " '" + sasUrl + "' --blob-type='PageBlob'"
  }

  /** The command copies the source path verbatim to the SAS URL between
      single quotes, as a page-blob transfer. */
  lemma UploadCommandShape(vhdPath: string, sasUrl: string)
    ensures var cmd := UploadCommand(vhdPath, sasUrl);
            && |cmd| == |vhdPath| + |sasUrl| + 36
            && cmd[..10] == "azcopy cp "
            && cmd[10..10 + |vhdPath|] == vhdPath
            && cmd[10 + |vhdPath|..12 + |vhdPath|] == " '"
            && cmd[12 + |vhdPath|..12 + |vhdPath| + |sasUrl|] == sasUrl
            && cmd[12 + |vhdPath| + |sasUrl|..] == "' --blob-type='PageBlob'"
  {
  }

  const UploadUrn := "azcopy-vhd"

  /** `uploadVHD`: declares the azcopy command with the given dependencies. */
  function UploadVhd(o: Outcome, vhdPath: string, sasUrl: string, dependsOn: seq<string>,
                     rejects: map<string, Error>): (r: Outcome)
    ensures r.ctx.exports == o.ctx.exports
    ensures !o.Failed() && UploadUrn !in rejects ==>
              r == Outcome(o.ctx.(resources := o.ctx.resources + [UploadResource(vhdPath, sasUrl, dependsOn)]), None)
    ensures !o.Failed() && UploadUrn in rejects ==>
              r == Outcome(o.ctx, Some(rejects[UploadUrn]))
  {
    o.Provision(UploadResource(vhdPath, sasUrl, dependsOn), rejects)
  }

  function UploadResource(vhdPath: string, sasUrl: string, dependsOn: seq<string>): Resource {
    Resource(UploadUrn, CommandArgs(UploadCommand(vhdPath, sasUrl)), ResourceOptions(dependsOn, false))
  }

  // Bases of the randomized storage names and the fixed logical names.
  const GroupUrnBase := "resourceGroupSA"
  const GroupNameBase := "resourceGroup"
  const AccountNameBase := "cloudimportersa"
  const ContainerNameBase := "blobbox"
  const AccountUrn := "storageAccount"
  const ContainerUrn := "blobContainer"

  /** The random bytes of the four `randomize` calls in `storageAccount`. */
  datatype StorageRandom = StorageRandom(groupUrn: Bytes4, groupName: Bytes4, accountName: Bytes4, containerName: Bytes4)

  /** The names `storageAccount` gives its three resources. */
  datatype StorageNames = StorageNames(groupUrn: string, groupName: string, accountName: string, containerName: string)

  function NamesOf(random: StorageRandom): StorageNames {
    StorageNames(
      Randomize(GroupUrnBase, random.groupUrn),
      Randomize(GroupNameBase, random.groupName),
      Randomize(AccountNameBase, random.accountName),
      Randomize(ContainerNameBase, random.containerName))
  }

  /** Resource group (kept on delete), then the storage account in it, then
      the blob container in the account, each depending on the ones before. */
  function StorageResources(n: StorageNames): seq<Resource> {
    [ Resource(n.groupUrn, ResourceGroupArgs(n.groupName), ResourceOptions([], true)),
      Resource(AccountUrn,
               StorageAccountArgs(n.accountName, Hot, StorageV2, n.groupName, SkuName.Premium_LRS),
               ResourceOptions([n.groupUrn], false)),
      Resource(ContainerUrn,
               BlobContainerArgs(n.accountName, n.containerName, n.groupName),
               ResourceOptions([n.groupUrn, AccountUrn], false)) ]
  }

  /** `storageAccount`: exactly the storage resources before the first
      refused one are declared, and that one's error is returned. */
  function StorageAccount(o: Outcome, n: StorageNames, rejects: map<string, Error>): (r: Outcome)
    ensures r.ctx.exports == o.ctx.exports
    ensures r.ctx.sasRequests == o.ctx.sasRequests && r.ctx.callbacks == o.ctx.callbacks
    ensures o.Failed() ==> r == o
    ensures !o.Failed() ==>
              var k := FirstRefused(StorageResources(n), rejects);
              && r.ctx.resources == o.ctx.resources + StorageResources(n)[..k]
              && (k < 3 ==> r.err == Some(rejects[StorageResources(n)[k].urn]))
              && (k == 3 <==> r.err.None?)
  {
    ProvisionAll(o, StorageResources(n), rejects)
  }

  /** The storage resources are declared dependencies first: the account
      depends on the group, the container on the group and the account.
      Only the resource group is retained on delete. The account is Hot,
      StorageV2, Premium_LRS in that group, and the account and container
      names are `randomize("cloudimportersa")` and `randomize("blobbox")`. */
  lemma StorageResourcesShape(random: StorageRandom)
    ensures var plan := StorageResources(NamesOf(random));
            && DependenciesPrecede(plan)
            && plan[0].options.dependsOn == []
            && plan[1].options.dependsOn == [plan[0].urn]
            && plan[2].options.dependsOn == [plan[0].urn, plan[1].urn]
            && (forall i :: 0 <= i < 3 ==> (plan[i].options.retainOnDelete <==> i == 0))
            && plan[0].args == ResourceGroupArgs(Randomize(GroupNameBase, random.groupName))
            && plan[1].args.accessTier == Hot && plan[1].args.kind == StorageV2
            && plan[1].args.sku == SkuName.Premium_LRS
            && plan[1].args.accountName == Randomize(AccountNameBase, random.accountName)
            && plan[1].args.accountName[..16] == "cloudimportersa-"
            && plan[1].args.resourceGroupName == plan[0].args.resourceGroupName
            && plan[2].args.containerName == Randomize(ContainerNameBase, random.containerName)
            && plan[2].args.containerName[..8] == "blobbox-"
            && plan[2].args.accountName == plan[1].args.accountName
            && plan[2].args.resourceGroupName == plan[0].args.resourceGroupName
  {
    var plan := StorageResources(NamesOf(random));
    RandomizeShape(AccountNameBase, random.accountName);
    RandomizeShape(ContainerNameBase, random.containerName);
    forall i, k | 0 <= i < |plan| && 0 <= k < |plan[i].options.dependsOn|
      ensures DeclaredBefore(plan, i, k)
    {
      if i == 1 {
        assert plan[0].urn == plan[1].options.dependsOn[0];
      } else if i == 2 {
        if k == 0 {
          assert plan[0].urn == plan[2].options.dependsOn[k];
        } else {
          assert plan[1].urn == plan[2].options.dependsOn[k];
        }
      }
    }
  }

  /** What an ephemeral run gets from outside the program: the resources
      the engine refuses (by logical name, with the error), the random bytes
      of the storage names and of the blob name, the id Azure gives the
      storage account, the token the SAS listing returns, and the clock. */
  datatype EphemeralEnv = EphemeralEnv(
    rejects: map<string, Error>,
    storageRandom: StorageRandom,
    blobRandom: Bytes4,
    accountId: string,
    sasToken: string,
    now: int)

  const TwoHours := 2 * 60 * 60 * 1_000_000_000

  // Wire values of the Azure storage SAS enumerations the source uses.
  const PermissionsR := "r"
  const PermissionsW := "w"
  const ServicesB := "b"
  const SignedResourceTypesO := "o"

  /** `storageAccSAS` at time `now` (nanoseconds, UTC). */
  function StorageAccSas(accountName: string, groupName: string, now: int): (req: SasRequest)
    ensures req.accountName == accountName && req.resourceGroupName == groupName
    ensures req.permissions == "wr" && req.services == "b" && req.resourceTypes == "o"
    ensures req.protocols == Https
    ensures req.expiry > now && req.expiry - now == 7_200_000_000_000
  {
    SasRequest(accountName, groupName, PermissionsW + PermissionsR, ServicesB, SignedResourceTypesO,
               now + TwoHours, Https)
  }
}
