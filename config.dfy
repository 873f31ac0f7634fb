/** The settings the tapper reads, with the defaults of `bot/config/config.py`. */
module Config {

  datatype Settings = Settings(
    sleepMin: int,                 // SLEEP_TIME[0]
    sleepMax: int,                 // SLEEP_TIME[1]
    autoTask: bool,                // AUTO_TASK
    joinTgChannels: bool,          // JOIN_TG_CHANNELS
    refId: string,                 // REF_ID
    disabledTasks: seq<string>)    // DISABLED_TASKS

  const Defaults := Settings(41200, 43200, true, false, "acAO24ki", ["invite", "boost"])
}
