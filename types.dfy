/** The inventory record of pkg/types.go. */
module Types {
  /** One network interface with a public IP address, as returned by the
      inventory query. The public IP is kept as the opaque string that
      `net.IP.String()` yields for it; `kind` is the Go field `Type`. */
  datatype Resource = Resource(
    id: string,
    publicIp: string,
    kind: string,
    availabilityZone: string,
    region: string,
    account: string)
}
