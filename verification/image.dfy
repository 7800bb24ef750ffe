/** Image registration: extracting the seven-key output contract of an
    ephemeral build into a register request (`ImageRegister`), the
    registration run (`registerFunc`) that declares resource group, gallery,
    image definition and image version, and the tenant-sharing update
    (`shareGallery`) scheduled after it. */
module Image {
  import opened Wrappers
  import opened Arm
  import opened Deployment
  import Util
  import Locations

  // The output keys of the contract, in the order ImageRegister checks them.
  const OutName := "name"
  const OutArch := "arch"
  const OutOffer := "offer"
  const OutPublisher := "publisher"
  const OutSku := "sku"
  const OutSaId := "saId"
  const OutBlobUri := "blobURI"

  const ContractKeys: seq<string> := [OutName, OutArch, OutOffer, OutPublisher, OutSku, OutSaId, OutBlobUri]

  /** The error ImageRegister returns for an absent key. */
  function NotFound(key: string): (e: Error)
    ensures |e| == 18 + |key| && e[..18] == "output not found: " && e[18..] == key
  {
    "output not found: " + key
  }

  /** `regiterRequest`. `orgTenantId` is a pointer in the source. */
  datatype RegisterRequest = RegisterRequest(
    name: string, arch: string,
    offer: string, publisher: string, sku: string,
    storageAccountId: string, blobUri: string,
    replicate: bool, orgTenantId: Option<string>)

  /** Index of the first key of `keys` missing from `outputs`, or `|keys|`. */
  function FirstMissing(keys: seq<string>, outputs: map<string, string>): (n: nat)
    ensures n <= |keys|
    ensures forall j :: 0 <= j < n ==> keys[j] in outputs
    ensures n < |keys| ==> keys[n] !in outputs
  {
    if keys == [] || keys[0] !in outputs then 0
    else 1 + FirstMissing(keys[1..], outputs)
  }

  function Lookup(outputs: map<string, string>, key: string): Result<string, Error> {
    if key in outputs then Success(outputs[key]) else Failure(NotFound(key))
  }

  /** `ImageRegister`: the seven lookups in contract order, failing on the
      first absent key; the request copies the values, passes `replicate`
      through and always points `orgTenantId` at `orgId`. */
  function ImageRegister(outputs: map<string, string>, replicate: bool, orgId: string)
    : (r: Result<RegisterRequest, Error>)
    ensures r.Success? <==>
              && OutName in outputs && OutArch in outputs && OutOffer in outputs
              && OutPublisher in outputs && OutSku in outputs && OutSaId in outputs
              && OutBlobUri in outputs
    ensures var n := FirstMissing(ContractKeys, outputs);
            r.Failure? ==> n < |ContractKeys| && r.error == NotFound(ContractKeys[n])
    ensures r.Success? ==>
              && r.value.name == outputs[OutName] && r.value.arch == outputs[OutArch]
              && r.value.offer == outputs[OutOffer] && r.value.publisher == outputs[OutPublisher]
              && r.value.sku == outputs[OutSku] && r.value.storageAccountId == outputs[OutSaId]
              && r.value.blobUri == outputs[OutBlobUri]
              && r.value.replicate == replicate && r.value.orgTenantId == Some(orgId)
  {
    ContractKeysUnrolled(outputs);
    var name :- Lookup(outputs, OutName);
    var arch :- Lookup(outputs, OutArch);
    var offer :- Lookup(outputs, OutOffer);
    var publisher :- Lookup(outputs, OutPublisher);
    var sku :- Lookup(outputs, OutSku);
    var saId :- Lookup(outputs, OutSaId);
    var blobUri :- Lookup(outputs, OutBlobUri);
    Success(RegisterRequest(name, arch, offer, publisher, sku, saId, blobUri, replicate, Some(orgId)))
  }

  /** FirstMissing over the contract keys, one key at a time. */
  lemma ContractKeysUnrolled(outputs: map<string, string>)
    ensures FirstMissing(ContractKeys, outputs) ==
              if OutName !in outputs then 0
              else if OutArch !in outputs then 1
              else if OutOffer !in outputs then 2
              else if OutPublisher !in outputs then 3
              else if OutSku !in outputs then 4
              else if OutSaId !in outputs then 5
              else if OutBlobUri !in outputs then 6
              else 7
  {
    assert ContractKeys[0] == OutName && ContractKeys[1] == OutArch && ContractKeys[2] == OutOffer;
    assert ContractKeys[3] == OutPublisher && ContractKeys[4] == OutSku;
    assert ContractKeys[5] == OutSaId && ContractKeys[6] == OutBlobUri;
  }

  /** The outputs a producer must export for `req`: the contract keys mapped
      to the request's fields. */
  function ContractOutputs(req: RegisterRequest): map<string, string> {
    map[OutName := req.name, OutArch := req.arch, OutOffer := req.offer,
        OutPublisher := req.publisher, OutSku := req.sku,
        OutSaId := req.storageAccountId, OutBlobUri := req.blobUri]
  }

  /** Without a `name` output extraction fails on it, whatever else was
      exported: `name` is the first key read. */
  lemma MissingNameFails(outputs: map<string, string>, replicate: bool, orgId: string)
    requires OutName !in outputs
    ensures ImageRegister(outputs, replicate, orgId) == Failure(NotFound(OutName))
  {
    assert ContractKeys[0] == OutName;
  }

  /** The outputs of a request are keyed by exactly the contract keys. */
  lemma ContractOutputsKeys(req: RegisterRequest)
    ensures ContractOutputs(req).Keys == set k | k in ContractKeys
  {
    assert ContractKeys == [OutName, OutArch, OutOffer, OutPublisher, OutSku, OutSaId, OutBlobUri];
  }

  /** Exporting a request's fields and extracting them again gives the
      request back, its tenant pointed at `orgId`. */
  lemma ExtractionRoundTrip(req: RegisterRequest, orgId: string)
    ensures ImageRegister(ContractOutputs(req), req.replicate, orgId)
            == Success(req.(orgTenantId := Some(orgId)))
  {
    var outputs := ContractOutputs(req);
    ContractKeysUnrolled(outputs);
  }

  /** Conversely, a successful extraction read exactly the contract keys:
      re-exporting the request reproduces the outputs on those keys. */
  lemma ExtractionReadsContract(outputs: map<string, string>, replicate: bool, orgId: string)
    requires ImageRegister(outputs, replicate, orgId).Success?
    ensures var req := ImageRegister(outputs, replicate, orgId).value;
            ContractOutputs(req) == map k | k in outputs && k in ContractKeys :: outputs[k]
  {
    var req := ImageRegister(outputs, replicate, orgId).value;
    ContractKeysUnrolled(outputs);
    var restricted := map k | k in outputs && k in ContractKeys :: outputs[k];
    assert ContractOutputs(req).Keys == restricted.Keys;
  }

  /** The architecture of the gallery image: exactly "x86_64" is X64, every
      other string (the empty one included) is Arm64. */
  function ArchitectureOf(arch: string): (a: Architecture)
    ensures a == X64 <==> arch == "x86_64"
    ensures a == Arm64 <==> arch != "x86_64"
  {
    if arch == "x86_64" then X64 else Arm64
  }

  /** The sharing profile `shareGallery` submits. */
  function SharingPayload(tenantId: string): SharingProfile {
    SharingProfile(Groups, [SharingGroup(AADTenants, [tenantId])])
  }

  /** Reference reading of a sharing profile: every principal it grants
      access to, as a group type and an id, over all of its groups. A
      profile that is not Groups sharing grants nothing to anyone. */
  function Grantees(p: SharingProfile): set<(SharingGroupType, string)> {
    if p.permissions != Groups then {}
    else set i, j | 0 <= i < |p.groups| && 0 <= j < |p.groups[i].ids| :: (p.groups[i].groupType, p.groups[i].ids[j])
  }

  /** The update is Groups sharing with exactly one principal: the tenant,
      as an AAD tenant. */
  lemma SharingGrantsOnlyTenant(tenantId: string)
    ensures SharingPayload(tenantId).permissions == Groups
    ensures Grantees(SharingPayload(tenantId)) == {(AADTenants, tenantId)}
  {
    var p := SharingPayload(tenantId);
    assert p.groups[0].ids[0] == tenantId;
  }

  /** The out-of-band answers `shareGallery` gets: credential chain,
      `NewGalleriesClient`, `BeginUpdate`, `PollUntilDone`. */
  datatype ShareOracle = ShareOracle(
    credential: Option<Error>, client: Option<Error>,
    beginUpdate: Option<Error>, poll: Option<Error>)

  /** Reference definition: the first error of a sequence of calls. */
  function FirstError(errors: seq<Option<Error>>): Option<Error> {
    if errors == [] then None
    else if errors[0].Some? then errors[0]
    else FirstError(errors[1..])
  }

  /** `shareGallery`: the update is submitted once a credential and a client
      exist; the result is the first error of the four calls. */
  function ShareGallery(tenantId: string, groupName: string, galleryName: string, o: ShareOracle)
    : (a: ShareAttempt)
    ensures a.submitted.Some? <==> o.credential.None? && o.client.None?
    ensures a.submitted.Some? ==>
              a.submitted.value == GalleryUpdate(groupName, galleryName, SharingPayload(tenantId))
    ensures a.result == FirstError([o.credential, o.client, o.beginUpdate, o.poll])
  {
    var calls := [o.credential, o.client, o.beginUpdate, o.poll];
    assert calls[1..] == [o.client, o.beginUpdate, o.poll];
    assert calls[1..][1..] == [o.beginUpdate, o.poll];
    assert calls[1..][1..][1..] == [o.poll];
    assert FirstError(calls[1..][1..][1..]) == o.poll;
    assert FirstError(calls[1..][1..]) == if o.beginUpdate.Some? then o.beginUpdate else o.poll;
    if o.credential.Some? then ShareAttempt(None, o.credential)
    else if o.client.Some? then ShareAttempt(None, o.client)
    else
      ShareAttempt(Some(GalleryUpdate(groupName, galleryName, SharingPayload(tenantId))),
                   if o.beginUpdate.Some? then o.beginUpdate else o.poll)
  }

  /** Everything `registerFunc` gets from outside the request. */
  datatype RegisterEnv = RegisterEnv(
    rejects: map<string, Error>,           // resources the engine refuses, by logical name
    groupRandom: Util.Bytes4,              // the bytes of `randomize(r.name)`
    location: string,                      // what `rg.Location` resolves to
    locations: Locations.LocationsOracle,  // answers for `targetRegions()`
    sharing: ShareOracle)                  // answers for the sharing callback

  const GroupUrn := "rg"
  const GalleryUrn := "gallery"
  const ImageUrn := "image"
  const VersionUrn := "GalleryImageVer"

  function GroupName(r: RegisterRequest, env: RegisterEnv): string {
    Util.Randomize(r.name, env.groupRandom)
  }

  /** Resource group, gallery and image definition, in declaration order. */
  function GalleryResources(r: RegisterRequest, env: RegisterEnv): seq<Resource> {
    var group := GroupName(r, env);
    [ Resource(GroupUrn, ResourceGroupArgs(group), NoOptions),
      Resource(GalleryUrn,
               GalleryArgs(r.name, r.name, env.location, group,
                           if r.orgTenantId.Some? then Some(Groups) else None),
               NoOptions),
      Resource(ImageUrn,
               GalleryImageArgs(r.name, r.name, r.name, group, env.location,
                                ArchitectureOf(r.arch), V2, Linux, Generalized,
                                ImageIdentifier(r.offer, r.publisher, r.sku)),
               NoOptions) ]
  }

  function VersionResource(r: RegisterRequest, env: RegisterEnv, regions: seq<TargetRegion>): Resource {
    Resource(VersionUrn,
             GalleryImageVersionArgs(r.name, r.name, r.name, GroupName(r, env), env.location,
                                     PublishingProfile(ImageStorageAccountType.Premium_LRS, Full, regions),
                                     DiskImageSource(r.storageAccountId, r.blobUri)),
             NoOptions)
  }

  function Share(r: RegisterRequest, env: RegisterEnv): ShareAttempt
    requires r.orgTenantId.Some?
  {
    ShareGallery(r.orgTenantId.value, GroupName(r, env), r.name, env.sharing)
  }

  /** `registerFunc`: rg, gallery, image, target regions, version, each
      stopping the run on error; then, with a tenant, the sharing callback,
      whose result is dropped. */
  function RegisterFunc(r: RegisterRequest, env: RegisterEnv): (o: Outcome)
    ensures o.ctx.exports == map[] && o.ctx.sasRequests == []
    ensures var plan := GalleryResources(r, env);
            var n := FirstRefused(plan, env.rejects);
            n < 3 ==> o == Outcome(Ctx(plan[..n], map[], [], []), Some(env.rejects[plan[n].urn]))
    ensures var plan := GalleryResources(r, env);
            var regions := Locations.TargetRegions(env.locations);
            FirstRefused(plan, env.rejects) == 3 && regions.Failure? ==>
              o == Outcome(Ctx(plan, map[], [], []), Some(regions.error))
    ensures var plan := GalleryResources(r, env);
            var regions := Locations.TargetRegions(env.locations);
            FirstRefused(plan, env.rejects) == 3 && regions.Success? && VersionUrn in env.rejects ==>
              o == Outcome(Ctx(plan, map[], [], []), Some(env.rejects[VersionUrn]))
    ensures var plan := GalleryResources(r, env);
            var regions := Locations.TargetRegions(env.locations);
            FirstRefused(plan, env.rejects) == 3 && regions.Success? && VersionUrn !in env.rejects ==>
              && o.err.None?
              && o.ctx.resources == plan + [VersionResource(r, env, regions.value)]
              && o.ctx.callbacks == (if r.orgTenantId.Some? then [Share(r, env)] else [])
  {
    var o := ProvisionAll(Start, GalleryResources(r, env), env.rejects);
    match Locations.TargetRegions(env.locations)
    case Failure(e) => o.Abort(e)
    case Success(regions) =>
      var o := o.Provision(VersionResource(r, env, regions), env.rejects);
      if r.orgTenantId.Some? then o.Callback(Share(r, env)) else o
  }

  /** The run succeeds exactly when no resource is refused and the regions
      are enumerated; the error never comes from the sharing callback. */
  lemma RegisterSucceedsIff(r: RegisterRequest, env: RegisterEnv)
    ensures RegisterFunc(r, env).err.None? <==>
              && GroupUrn !in env.rejects && GalleryUrn !in env.rejects
              && ImageUrn !in env.rejects && VersionUrn !in env.rejects
              && Locations.TargetRegions(env.locations).Success?
  {
    var plan := GalleryResources(r, env);
    assert plan[0].urn == GroupUrn && plan[1].urn == GalleryUrn && plan[2].urn == ImageUrn;
  }

  /** Whatever the sharing calls answer, the run returns the same error and
      declares the same resources. */
  lemma SharingResultIgnored(r: RegisterRequest, env: RegisterEnv, other: ShareOracle)
    ensures RegisterFunc(r, env).err == RegisterFunc(r, env.(sharing := other)).err
    ensures RegisterFunc(r, env).ctx.resources == RegisterFunc(r, env.(sharing := other)).ctx.resources
  {
    assert GalleryResources(r, env) == GalleryResources(r, env.(sharing := other));
  }

  /** `replicate` is carried by the request but never read by the run. */
  lemma ReplicateIgnored(r: RegisterRequest, env: RegisterEnv, replicate: bool)
    ensures RegisterFunc(r.(replicate := replicate), env) == RegisterFunc(r, env)
  {
    assert GalleryResources(r.(replicate := replicate), env) == GalleryResources(r, env);
  }

  /** The attributes the run gives each kind of resource it declares. */
  ghost predicate WellShaped(res: Resource, r: RegisterRequest, env: RegisterEnv) {
    && !res.options.retainOnDelete && res.options.dependsOn == []
    && (res.args.ResourceGroupArgs? ==>
          res.args.resourceGroupName == Util.Randomize(r.name, env.groupRandom))
    && (res.args.GalleryArgs? ==>
          && res.args.galleryName == r.name
          && (res.args.sharingProfile == Some(Groups) <==> r.orgTenantId.Some?))
    && (res.args.GalleryImageArgs? ==>
          && res.args.galleryImageName == r.name
          && res.args.hyperVGeneration == V2 && res.args.osType == Linux
          && res.args.osState == Generalized
          && res.args.architecture == ArchitectureOf(r.arch)
          && res.args.identifier == ImageIdentifier(r.offer, r.publisher, r.sku))
    && (res.args.GalleryImageVersionArgs? ==>
          && res.args.galleryImageVersionName == r.name
          && res.args.publishingProfile.storageAccountType == ImageStorageAccountType.Premium_LRS
          && res.args.publishingProfile.replicationMode == Full
          && Locations.TargetRegions(env.locations).Success?
          && res.args.publishingProfile.targetRegions == Locations.TargetRegions(env.locations).value
          && res.args.osDiskImage == DiskImageSource(r.storageAccountId, r.blobUri))
  }

  /** Everything the run may declare: the gallery resources, and the
      version once the regions are known. */
  function RegisterPlan(r: RegisterRequest, env: RegisterEnv): seq<Resource> {
    var regions := Locations.TargetRegions(env.locations);
    GalleryResources(r, env) + (if regions.Success? then [VersionResource(r, env, regions.value)] else [])
  }

  /** The run only ever declares resources of its plan. */
  lemma RegisterLogsFromPlan(r: RegisterRequest, env: RegisterEnv)
    ensures forall res :: res in RegisterFunc(r, env).ctx.resources ==> res in RegisterPlan(r, env)
  {
    var o := RegisterFunc(r, env);
    var plan := GalleryResources(r, env);
    var n := FirstRefused(plan, env.rejects);
    forall res | res in o.ctx.resources
      ensures res in RegisterPlan(r, env)
    {
      if n < 3 {
        assert res in plan;
      } else {
        assert res in plan || res == o.ctx.resources[3];
      }
    }
  }

  lemma RegisterPlanShapes(r: RegisterRequest, env: RegisterEnv)
    ensures forall res :: res in RegisterPlan(r, env) ==> WellShaped(res, r, env)
  {
    var plan := RegisterPlan(r, env);
    forall i | 0 <= i < |plan|
      ensures WellShaped(plan[i], r, env)
    {
    }
  }

  /** The attributes of every resource the run declares, failed run or not. */
  lemma RegisteredResourceShapes(r: RegisterRequest, env: RegisterEnv)
    ensures forall res :: res in RegisterFunc(r, env).ctx.resources ==> WellShaped(res, r, env)
  {
    RegisterLogsFromPlan(r, env);
    RegisterPlanShapes(r, env);
  }

  /** A successful run declares the image version fourth, with the
      request's storage account and blob URI as its disk source. */
  lemma RegisteredVersionSource(r: RegisterRequest, env: RegisterEnv)
    ensures var o := RegisterFunc(r, env);
            o.err.None? ==>
              && |o.ctx.resources| == 4
              && o.ctx.resources[3].urn == VersionUrn
              && o.ctx.resources[3].args.GalleryImageVersionArgs?
              && o.ctx.resources[3].args.osDiskImage == DiskImageSource(r.storageAccountId, r.blobUri)
  {
    RegisterSucceedsIff(r, env);
  }

  /** Registration of an extracted contract always asks for sharing, even
      with an empty organization id: the gallery gets the Groups profile and
      a successful run ran the sharing callback once, for `orgId`. */
  lemma ExtractedRequestAlwaysShares(outputs: map<string, string>, replicate: bool, orgId: string,
                                     env: RegisterEnv)
    requires ImageRegister(outputs, replicate, orgId).Success?
    ensures var r := ImageRegister(outputs, replicate, orgId).value;
            var o := RegisterFunc(r, env);
            && GalleryResources(r, env)[1].args.sharingProfile == Some(Groups)
            && (o.err.None? ==>
                  o.ctx.callbacks == [ShareGallery(orgId, Util.Randomize(r.name, env.groupRandom), r.name, env.sharing)])
  {
    var r := ImageRegister(outputs, replicate, orgId).value;
    RegisterSucceedsIff(r, env);
    var plan := GalleryResources(r, env);
    assert plan[0].urn == GroupUrn && plan[1].urn == GalleryUrn && plan[2].urn == ImageUrn;
  }
}
