/** Devices, connection handles and the collection jobs given to the workers. */
module DeviceJobs {
  // Identifiers and raw configuration, compared as whole values.
  datatype DeviceID = DeviceID(text: string)
  datatype ConnID = ConnID(text: string)
  datatype DriverName = DriverName(text: string)
  datatype ConnConfig = ConnConfig(json: string)
  datatype Params = Params(json: string)
  datatype Points = Points(list: seq<string>)  // the points, each as its JSON text

  /** Connection identity: a change of any part reopens the whole connection group. */
  datatype ConnKey = ConnKey(connectionID: ConnID, driver: DriverName, config: ConnConfig)

  /** Where drivers pool a physical connection: they look it up by connection ID alone. */
  datatype PoolKey = PoolKey(driver: DriverName, connectionID: ConnID)

  function PoolOf(k: ConnKey): PoolKey {
    PoolKey(k.driver, k.connectionID)
  }

  /** A device's handle on a connection, as a driver's Open returns it. */
  class Conn {
    const deviceID: DeviceID
    const key: ConnKey  // what it was opened with
    const params: Params

    constructor (deviceID: DeviceID, key: ConnKey, params: Params)
      ensures this.deviceID == deviceID && this.key == key && this.params == params
    {
      this.deviceID, this.key, this.params := deviceID, key, params;
    }
  }

  /** A polled device's collection job: the poll schedule and the device's runtime share
      it, so its points can change in place (they are kept beside it, by job). */
  class DeviceJob {
    const deviceID: DeviceID
    const conn: Conn

    constructor (deviceID: DeviceID, conn: Conn)
      ensures this.deviceID == deviceID && this.conn == conn
    {
      this.deviceID, this.conn := deviceID, conn;
    }
  }
}
