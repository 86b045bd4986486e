/** The configuration record produced by the configuration loader
    (src/cfg/cfg.go). Loading itself (file I/O, JSON decoding) is not part
    of this model: callers receive its outcome as an `Option`. */
module Cfg {

  /** Go's `uint` on a 64-bit target. */
  type Uint = x: int | 0 <= x < 0x1_0000_0000_0000_0000

  datatype Option<+T> = None | Some(value: T)

  /** `ConfigurationHolder`: the log level (an ordinal of the logging
      library) and the heartbeat interval in milliseconds. */
  datatype ConfigurationHolder = ConfigurationHolder(logLevel: int, mainLoopTimeout: Uint)
}
