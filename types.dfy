/**
 * The device record and the request/response shapes shared by the mock
 * transport, the dashboard controller and the device card
 * (src/lib/types.ts). Timestamps are integer milliseconds since the epoch.
 */
module Types {

  datatype Option<+T> = None | Some(value: T)

  /** The closed set of device categories; only the card's icon depends on it. */
  datatype DeviceType = Switch | Light | Outlet | Fan | Other

  /** One smart-home device. `ip` and `model` are optional fields. */
  datatype Device = Device(
    id: string,
    name: string,
    kind: DeviceType,
    isOnline: bool,
    isOn: bool,
    ip: Option<string>,
    model: Option<string>,
    lastSeen: int)

  /** What a discovery returns: the devices in registry order and a capture time. */
  datatype DiscoveryResult = DiscoveryResult(devices: seq<Device>, timestamp: int)

  /** The only two legal control actions. */
  datatype Action = TurnOn | TurnOff

  datatype ControlRequest = ControlRequest(deviceId: string, action: Action)

  /** `error` is present exactly on the failure answers of the mock transport. */
  datatype ControlResponse = ControlResponse(
    success: bool,
    deviceId: string,
    newState: bool,
    error: Option<string>)
}
