/** How calls to the cloud provider end, and what the controller makes of it. */
module Provider {

  /** How the provider classifies an error of one of its calls. */
  datatype ErrorType = EntityNotFound | RetrivalFailed | NodeNotFound | OtherType

  /** How one provider call goes; a call can also take effect and still report an error. */
  datatype CallFault = Fine | Fails(kind: ErrorType) | FailsAfter(after: ErrorType)

  /** What a controller request can be refused with. */
  datatype ControllerError =
    | MissingVolumeName | NoVolumeCapabilities | VolumeCapabilitiesNotSupported | InvalidParameters
    | EndpointNotReachable | Timeout | InternalError | FailedPrecondition | BackendError
    | UnsupportedVolumeContentSource | VolumeInvalidArguments | VolumeAlreadyExists
    | ObjectNotFound | EmptyVolumeID | EmptyNodeID
    | MissingSnapshotName | MissingSourceVolumeID | SnapshotAlreadyExists | EmptySnapshotID
    | StartVolumeIDNotFound | StartSnapshotIDNotFound | ListSnapshotsFailed
}
