/**
  The smart-home topology snapshot the provider's user-info endpoint returns
  (yandex.go: iotInfo, room, household, device, quasarInfo), restricted to the
  fields the bot decodes.
 */
module Topology {

  datatype QuasarInfo = QuasarInfo(id: string, platform: string)

  /** `type` is a keyword in Dafny, so the device's type field is `deviceType`. */
  datatype Device = Device(id: string, name: string, deviceType: string, room: string, quasarInfo: QuasarInfo)

  datatype Room = Room(id: string, name: string, householdId: string, devices: seq<string>)

  datatype Household = Household(id: string, name: string)

  datatype IotInfo = IotInfo(
    status: string,
    message: string,
    rooms: seq<Room>,
    devices: seq<Device>,
    households: seq<Household>)
}
