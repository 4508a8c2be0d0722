/** The part of the API client that all outputs share: the two output counters and the
    uplink status derived from them (src/api-client.cpp, src/api-client.hpp). */
module UplinkCounters {
  import opened Schema

  datatype UplinkStatus = UplinkInactive | UplinkActive | UplinkStandBy

  /** One call of `putUplinkStatus`. */
  datatype StatusPut = StatusPut(status: UplinkStatus, forced: bool)

  datatype Client = Client(
    uplink: Option<UplinkInfo>,
    activeOutputs: int,
    standByOutputs: int,
    uplinkStatus: UplinkStatus,
    puts: seq<StatusPut>
  )

  function NextUplinkStatus(activeOutputs: int, standByOutputs: int): UplinkStatus {
    if activeOutputs > 0 then UplinkActive
    else if standByOutputs > 0 then UplinkStandBy
    else UplinkInactive
  }

  function SyncUplinkStatus(c: Client, force: bool): Client {
    var next := NextUplinkStatus(c.activeOutputs, c.standByOutputs);
    if c.uplink.None? then c
    else if force || next != c.uplinkStatus then
      c.(uplinkStatus := next, puts := c.puts + [StatusPut(next, force)])
    else c
  }

  /** The PUT log has no unforced repetition, and the status kept is the one last put. */
  ghost predicate PutsOnlyOnChange(initial: UplinkStatus, c: Client) {
    && c.uplinkStatus == (if c.puts == [] then initial else c.puts[|c.puts| - 1].status)
    && (c.puts != [] && !c.puts[0].forced ==> c.puts[0].status != initial)
    && forall i :: 1 <= i < |c.puts| && !c.puts[i].forced ==> c.puts[i].status != c.puts[i - 1].status
  }

  lemma SyncPutsOnlyOnChange(initial: UplinkStatus, c: Client, force: bool)
    requires PutsOnlyOnChange(initial, c)
    ensures PutsOnlyOnChange(initial, SyncUplinkStatus(c, force))
  {
  }
}
