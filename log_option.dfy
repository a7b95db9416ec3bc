/** The logger's configuration: apply fills every empty string field of *Option in place with
    its default and leaves BackCount alone. */
module LogOption {
  const DefaultBackTime := "7d"
  const DefaultLevel := "info"
  const DefaultMaxFileSize := "500M"
  const DefaultRotateDuration := "1h"
  const DefaultDirPath := "./log/"

  /** BackCount is a uint32. */
  newtype uint32 = x: int | 0 <= x < 0x1_0000_0000

  /** Option, as a value. */
  datatype Config = Config(dirPath: string, maxFileSize: string, rotateDuration: string,
                           level: string, backCount: uint32, backTime: string)

  function OrDefault(s: string, default: string): string
  {
    if s == "" then default else s
  }

  /** The option as apply leaves it: each empty string field gets its own default, a field
      that was set keeps its value, and BackCount is never touched. */
  function Applied(c: Config): (r: Config)
    ensures r.dirPath != "" && r.maxFileSize != "" && r.rotateDuration != "" && r.level != "" && r.backTime != ""
    ensures c.dirPath != "" ==> r.dirPath == c.dirPath
    ensures c.maxFileSize != "" ==> r.maxFileSize == c.maxFileSize
    ensures c.rotateDuration != "" ==> r.rotateDuration == c.rotateDuration
    ensures c.level != "" ==> r.level == c.level
    ensures c.backTime != "" ==> r.backTime == c.backTime
    ensures c.dirPath == "" ==> r.dirPath == DefaultDirPath
    ensures c.maxFileSize == "" ==> r.maxFileSize == DefaultMaxFileSize
    ensures c.rotateDuration == "" ==> r.rotateDuration == DefaultRotateDuration
    ensures c.level == "" ==> r.level == DefaultLevel
    ensures c.backTime == "" ==> r.backTime == DefaultBackTime
    ensures r.backCount == c.backCount
  {
    Config(OrDefault(c.dirPath, DefaultDirPath), OrDefault(c.maxFileSize, DefaultMaxFileSize),
           OrDefault(c.rotateDuration, DefaultRotateDuration), OrDefault(c.level, DefaultLevel),
           c.backCount, OrDefault(c.backTime, DefaultBackTime))
  }

  /** Applying twice is applying once. */
  lemma AppliedIdempotent(c: Config)
    ensures Applied(Applied(c)) == Applied(c)
  {
  }

  /** The zero Option becomes the documented defaults. */
  lemma AppliedZero()
    ensures Applied(Config("", "", "", "", 0, "")) == Config("./log/", "500M", "1h", "info", 0, "7d")
  {
  }

  /** log.Option: the struct apply fills in place. */
  class Option {
    var dirPath: string
    var maxFileSize: string
    var rotateDuration: string
    var level: string
    var backCount: uint32
    var backTime: string

    constructor (c: Config)
      ensures Snapshot() == c
    {
      dirPath, maxFileSize, rotateDuration := c.dirPath, c.maxFileSize, c.rotateDuration;
      level, backCount, backTime := c.level, c.backCount, c.backTime;
    }

    function Snapshot(): Config
      reads this
    {
      Config(dirPath, maxFileSize, rotateDuration, level, backCount, backTime)
    }

    method Apply()
      modifies this
      ensures Snapshot() == Applied(old(Snapshot()))
    {
      if backTime == "" {
        backTime := DefaultBackTime;
      }
      if level == "" {
        level := DefaultLevel;
      }
      if maxFileSize == "" {
        maxFileSize := DefaultMaxFileSize;
      }
      if rotateDuration == "" {
        rotateDuration := DefaultRotateDuration;
      }
      if dirPath == "" {
        dirPath := DefaultDirPath;
      }
    }
  }
}
