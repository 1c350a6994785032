/** The constants of 7/MDP and 8/MMI as the program defines them. */
module Protocol {
  import opened Bytes

  const EMPTY_FRAME: Frame := []
  const MDPC_CLIENT: Frame := [77, 68, 80, 67, 48, 88] // "MDPC0X"
  const MDPW_WORKER: Frame := [77, 68, 80, 87, 48, 88] // "MDPW0X"

  const MDPC_REPORT: Frame := [2]
  const MDPC_NAK: Frame := [3]

  const MDPW_READY: Frame := [1]
  const MDPW_REQUEST: Frame := [2]
  const MDPW_REPORT: Frame := [3]
  const MDPW_HEARTBEAT: Frame := [4]
  const MDPW_DISCONNECT: Frame := [5]

  const MMI_PREFIX: Frame := [109, 109, 105, 46]                                  // "mmi."
  const MMI_SERVICE: Frame := MMI_PREFIX + [115, 101, 114, 118, 105, 99, 101]     // "mmi.service"
  const MMI_FILTER: Frame := MMI_PREFIX + [102, 105, 108, 116, 101, 114]          // "mmi.filter"

  const ENABLE: Frame := [101, 110, 97, 98, 108, 101]            // "enable"
  const DISABLE: Frame := [100, 105, 115, 97, 98, 108, 101]      // "disable"

  const CODE_OK: Frame := [50, 48, 48]        // "200"
  const CODE_BAD_COMMAND: Frame := [52, 48, 48] // "400"
  const CODE_UNKNOWN: Frame := [52, 48, 52]   // "404"
  const CODE_UNSUPPORTED: Frame := [53, 48, 49] // "501"

  /** The broker takes a name for an internal one when it holds "mmi." anywhere. */
  predicate IsInternal(name: Frame)
  {
    |name| >= 4 && Contains(name, MMI_PREFIX)
  }
}
