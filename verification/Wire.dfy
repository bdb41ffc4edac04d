/** What travels between the scheduler and the evaluator. */
module Wire {
  import opened Machine

  type MonitorId(==, !new)

  /** The v5 uuid of monitor and slot, as an injective constructor. */
  datatype TickId = TickId(monitor: MonitorId, slot: int)

  /** The queued message of one check. */
  datatype Result = Result(tick: TickId, monitor: MonitorId, region: Region, expected: set<Region>, scheduledAt: int,
                           timeout: int, missing: bool, ok: bool, cause: string, checkedAt: int)
}
