/** An interface as a control client reports it (wgtypes.Device and wgtypes.Peer). */
module Views {
  import opened Prelude
  import opened Ipv4
  import opened Keys

  /** Times are in seconds, the keepalive in nanoseconds; no handshake yet is None. */
  datatype DevicePeer = DevicePeer(
    key: Key,
    psk: Key,
    endpoint: Option<string>,
    allowed: seq<Prefix>,
    lastHandshake: Option<nat>,
    received: int,
    transmitted: int,
    keepalive: int)

  datatype DeviceView = DeviceView(
    name: string,
    typeName: string,
    privateKey: Key,
    key: Key,
    port: int,
    mark: nat,
    peers: seq<DevicePeer>)

  const SECOND := 1_000_000_000

  /** Go's integer division by a second, which truncates toward zero. */
  function Seconds(duration: int): int
  {
    if duration >= 0 then duration / SECOND else -((-duration) / SECOND)
  }
}
