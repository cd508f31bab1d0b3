/** The three device tiers of src/lib/devices.tsx. */
module Devices {
  datatype Device = Desktop | Tablet | Mobile

  /** `DEVICES`, widest first. */
  const AllDevices: seq<Device> := [Desktop, Tablet, Mobile]

  /** The position of a device in `DEVICES`. */
  function DeviceIndex(d: Device): (i: nat)
    ensures i < |AllDevices| && AllDevices[i] == d
  {
    match d
    case Desktop => 0
    case Tablet => 1
    case Mobile => 2
  }

  /** `DEVICES` lists every device exactly once. */
  lemma DevicesListedOnce(d: Device)
    ensures d in AllDevices
    ensures forall i :: 0 <= i < |AllDevices| && AllDevices[i] == d ==> i == DeviceIndex(d)
  {
  }

  /** The non-React part of a `DEVICE_CONFIG` entry. */
  datatype DeviceConfig = DeviceConfig(caption: string, deviceSize: nat)

  function DeviceConfigOf(d: Device): DeviceConfig {
    match d
    case Desktop => DeviceConfig("Desktop", 1440)
    case Tablet => DeviceConfig("Tablet", 768)
    case Mobile => DeviceConfig("Mobile", 480)
  }

  function DeviceSize(d: Device): nat {
    DeviceConfigOf(d).deviceSize
  }

  /** The widths strictly decrease along `DEVICES`: an earlier tier is always wider. */
  lemma SizesDecrease(a: Device, b: Device)
    ensures DeviceIndex(a) < DeviceIndex(b) <==> DeviceSize(a) > DeviceSize(b)
    ensures DeviceSize(Desktop) == 1440 && DeviceSize(Tablet) == 768 && DeviceSize(Mobile) == 480
  {
  }
}
