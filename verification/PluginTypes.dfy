/** The records that the plugin passes around (pkg/types/types.go, pkg/resources/pci_net_device.go). */
module PluginTypes {
  datatype DeviceSpec = DeviceSpec(hostPath: string, containerPath: string, permissions: string)

  datatype PciNetDevice = PciNetDevice(
    pciAddress: string, ifName: string, vendor: string, deviceId: string, driver: string, linkType: string,
    rdmaSpec: seq<DeviceSpec>)

  datatype Selectors = Selectors(
    vendors: seq<string>, deviceIds: seq<string>, drivers: seq<string>, ifNames: seq<string>, linkTypes: seq<string>)
}
