/** Small datatypes shared by every part of the driver model. */
module Common {

  datatype Option<+T> = None | Some(value: T)
  {
    function GetOr(default: T): T {
      match this
      case Some(v) => v
      case None => default
    }
  }

  datatype Result<+T, +E> = Ok(value: T) | Err(error: E)

  /** The access modes a request can name; `UnknownMode` is also what a missing
      access mode reads as. */
  datatype AccessMode = UnknownMode | SingleNodeWriter | SingleNodeReaderOnly | MultiNodeWriter

  /** How a volume is to be exposed. `Unset` is a capability without an access type. */
  datatype AccessType = Block | MountFs(fsType: string, flags: seq<string>) | Unset

  datatype VolumeCapability = VolumeCapability(mode: AccessMode, access: AccessType)

  /** The entry of the publish context that carries the device path to the node. */
  const PUBLISH_INFO_DEVICE_PATH := "device-path"

  const DEFAULT_FS_TYPE := "ext4"

  /** The modes the driver registers at start-up. */
  const DRIVER_MODES: seq<AccessMode> := [SingleNodeWriter]

  predicate AllSupported(caps: seq<VolumeCapability>, modes: seq<AccessMode>) {
    forall c | c in caps :: c.mode in modes
  }

  /** The driver's capability check: a flag that one unsupported capability clears. */
  method AreVolumeCapabilitiesSupported(caps: seq<VolumeCapability>, modes: seq<AccessMode>)
    returns (allSupported: bool)
    ensures allSupported <==> AllSupported(caps, modes)
  {
    allSupported := true;
    for i := 0 to |caps|
      invariant allSupported <==> AllSupported(caps[..i], modes)
    {
      assert caps[..i + 1] == caps[..i] + [caps[i]];
      var found := false;
      for j := 0 to |modes|
        invariant found <==> caps[i].mode in modes[..j]
      {
        found := found || modes[j] == caps[i].mode;
      }
      assert modes[..|modes|] == modes;
      if !found {
        allSupported := false;
      }
    }
    assert caps[..|caps|] == caps;
  }
}
