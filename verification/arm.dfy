/** The Azure vocabulary the provider speaks: the enumerations it picks from,
    the arguments of every resource it declares, the SAS listing it invokes
    and the gallery update it submits for cross-tenant sharing. Values are
    plain strings and enumerations; Pulumi inputs and outputs are resolved. */
module Arm {
  import opened Wrappers

  type Error = string

  // Storage enumerations (a subset of each Azure enumeration).
  datatype AccessTier = Hot | Cool | Cold
  datatype StorageKind = Storage | StorageV2 | BlobStorage | BlockBlobStorage | FileStorage
  datatype SkuName = Standard_LRS | Standard_GRS | Standard_ZRS | Premium_LRS | Premium_ZRS
  datatype HttpProtocol = Https | HttpsHttp

  // Compute gallery enumerations.
  datatype Architecture = X64 | Arm64
  datatype HyperVGeneration = V1 | V2
  datatype OsType = Windows | Linux
  datatype OsState = Generalized | Specialized
  datatype GallerySharingPermission = Private | Groups | Community
  datatype SharingGroupType = Subscriptions | AADTenants
  datatype ImageStorageAccountType = Standard_LRS | Standard_ZRS | Premium_LRS
  datatype ReplicationMode = Full | Shallow

  /** (offer, publisher, sku) of a gallery image definition. */
  datatype ImageIdentifier = ImageIdentifier(offer: string, publisher: string, sku: string)

  /** One replication target of an image version. */
  datatype TargetRegion = TargetRegion(name: string, regionalReplicaCount: int, excludeFromLatest: bool)

  datatype PublishingProfile = PublishingProfile(
    storageAccountType: ImageStorageAccountType,
    replicationMode: ReplicationMode,
    targetRegions: seq<TargetRegion>)

  /** The already uploaded blob an image version is built from. */
  datatype DiskImageSource = DiskImageSource(storageAccountId: string, uri: string)

  datatype ResourceArgs =
    | ResourceGroupArgs(resourceGroupName: string)
    | StorageAccountArgs(
        accountName: string, accessTier: AccessTier, kind: StorageKind,
        resourceGroupName: string, sku: SkuName)
    | BlobContainerArgs(accountName: string, containerName: string, resourceGroupName: string)
    | GalleryArgs(
        description: string, galleryName: string, location: string,
        resourceGroupName: string, sharingProfile: Option<GallerySharingPermission>)
    | GalleryImageArgs(
        galleryImageName: string, description: string, galleryName: string,
        resourceGroupName: string, location: string, architecture: Architecture,
        hyperVGeneration: HyperVGeneration, osType: OsType, osState: OsState,
        identifier: ImageIdentifier)
    | GalleryImageVersionArgs(
        galleryName: string, galleryImageName: string, galleryImageVersionName: string,
        resourceGroupName: string, location: string,
        publishingProfile: PublishingProfile, osDiskImage: DiskImageSource)
      /** A local command whose `create` string is run by the engine. */
    | CommandArgs(create: string)
      /** The bundle extraction step, registered by a package this model does not cover. */
    | BundleExtractArgs(bundleUri: string, shasumUri: string, provider: string)

  datatype ResourceOptions = ResourceOptions(dependsOn: seq<string>, retainOnDelete: bool)

  const NoOptions := ResourceOptions([], false)

  /** A declared resource: its logical name (the URN name), arguments and options. */
  datatype Resource = Resource(urn: string, args: ResourceArgs, options: ResourceOptions)

  /** Arguments of the `listStorageAccountSAS` invoke; `expiry` is in
      nanoseconds since the epoch. */
  datatype SasRequest = SasRequest(
    accountName: string, resourceGroupName: string,
    permissions: string, services: string, resourceTypes: string,
    expiry: int, protocols: HttpProtocol)

  datatype SharingGroup = SharingGroup(groupType: SharingGroupType, ids: seq<string>)
  datatype SharingProfile = SharingProfile(permissions: GallerySharingPermission, groups: seq<SharingGroup>)

  /** A `Galleries.BeginUpdate` call on one gallery. */
  datatype GalleryUpdate = GalleryUpdate(resourceGroupName: string, galleryName: string, sharingProfile: SharingProfile)

  /** What one run of the sharing callback did: the update it submitted (if
      it got that far) and the error it returned (None for nil). */
  datatype ShareAttempt = ShareAttempt(submitted: Option<GalleryUpdate>, result: Option<Error>)
}
