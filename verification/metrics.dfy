/** The readings one polling cycle produces, and the alert levels derived from them. */
module Metrics {
  import opened Wrappers

  /** Interface counters since boot. They are carried along for the alert message only
      and never feed a decision. */
  datatype NetworkCounters = NetworkCounters(
    bytesSent: nat, bytesRecv: nat,
    packetsSent: nat, packetsRecv: nat,
    errIn: nat, errOut: nat,
    dropIn: nat, dropOut: nat)

  /** One metrics record as built by the collector. The three percentages are the only
      fields the decision logic reads; they are exact reals because that logic only
      compares them. */
  datatype Snapshot = Snapshot(
    timestamp: string,
    cpuPercent: real,
    memoryPercent: real,
    diskPercent: real,
    network: Option<NetworkCounters>)

  /** The two alert levels; "no alert" is `None` of an `Option<AlertLevel>`. */
  datatype AlertLevel = Warning | Critical
}
