/**
 * Discovery of the running iOS simulator
 * (mobile/mobile-core/ios-simulator-discovery.ts).
 *
 * The discovery caches the one simulator it last reported and, on each
 * check, compares it with the simulator running now, reporting the
 * difference to its listeners as device-added and device-removed events.
 * The events the base DeviceDiscovery would emit are kept as a log.
 */
module SimulatorDiscovery {
  import opened Wrappers
  import opened Text

  /** The process name whose presence in `ps cax` output means a simulator runs. */
  const SimulatorProcessName: string := "launchd_sim"

  /** A simulator as the simulator resolver describes it. */
  datatype Simulator = Simulator(id: string, name: string, runtimeVersion: string)

  /** What the discovery reports to its listeners. */
  datatype DeviceEvent = DeviceAdded(simulator: Simulator) | DeviceRemoved(id: string)

  /**
   * `isSimulatorRunning`: the output of the process listing names the
   * simulator process. `psOutput` is None when running the listing threw.
   */
  function IsSimulatorRunning(psOutput: Option<string>): (r: bool)
    ensures r <==> psOutput.Some? && exists i :: OccursAt(psOutput.value, SimulatorProcessName, i)
  {
    match psOutput
    case None => false
    case Some(output) => IndexOf(output, SimulatorProcessName) != -1
  }

  /**
   * The simulator a check compares with the cache: the resolver's running
   * simulator, consulted only when the process listing shows one.
   */
  function CurrentSimulator(psOutput: Option<string>, running: Option<Simulator>): Option<Simulator> {
    if IsSimulatorRunning(psOutput) then running else None
  }

  /** The device ids the listeners know of after the given events. */
  function ApplyEvents(ids: set<string>, events: seq<DeviceEvent>): set<string>
    decreases |events|
  {
    if events == [] then ids
    else
      var last := events[|events| - 1];
      var before := ApplyEvents(ids, events[..|events| - 1]);
      match last
      case DeviceAdded(s) => before + {s.id}
      case DeviceRemoved(id) => before - {id}
  }

  /** The ids a cached or running simulator stands for. */
  function IdsOf(s: Option<Simulator>): set<string> {
    match s
    case None => {}
    case Some(sim) => {sim.id}
  }

  /** Applying two event lists one after the other is applying their concatenation. */
  lemma {:induction false} ApplyEventsAppend(ids: set<string>, a: seq<DeviceEvent>, b: seq<DeviceEvent>)
    ensures ApplyEvents(ids, a + b) == ApplyEvents(ApplyEvents(ids, a), b)
    decreases |b|
  {
    if b == [] {
      assert a + b == a;
    } else {
      assert (a + b)[..|a + b| - 1] == a + b[..|b| - 1];
      ApplyEventsAppend(ids, a, b[..|b| - 1]);
    }
  }

  /**
   * What a check may report: it removes only an id that is cached and no
   * longer running, adds only the running simulator and only when its id is
   * not cached, reports no event twice, and removes before it adds.
   */
  predicate ReportsOnlyChanges(cached: Option<Simulator>, current: Option<Simulator>, events: seq<DeviceEvent>) {
    (forall i :: 0 <= i < |events| && events[i].DeviceRemoved? ==>
      events[i].id in IdsOf(cached) && events[i].id !in IdsOf(current)) &&
    (forall i :: 0 <= i < |events| && events[i].DeviceAdded? ==>
      current == Some(events[i].simulator) && events[i].simulator.id !in IdsOf(cached)) &&
    (forall i, j :: 0 <= i < j < |events| ==> events[i] != events[j]) &&
    (forall i, j :: 0 <= i < |events| && 0 <= j < |events| && events[i].DeviceRemoved? && events[j].DeviceAdded? ==>
      i < j)
  }

  /**
   * The events one check emits when the cache holds `cached` and the running
   * simulator is `current`: they take the listeners from the cached id to the
   * running one and report nothing else. `DiffEventsUnique` shows no other
   * event list does both.
   */
  function DiffEvents(cached: Option<Simulator>, current: Option<Simulator>): (events: seq<DeviceEvent>)
    ensures ApplyEvents(IdsOf(cached), events) == IdsOf(current)
    ensures ReportsOnlyChanges(cached, current, events)
  {
    match current
    case Some(sim) =>
      if cached.None? then [DeviceAdded(sim)]
      else if cached.value.id != sim.id then
        var events := [DeviceRemoved(cached.value.id), DeviceAdded(sim)];
        assert events[..1] == [events[0]] && events[..1][..0] == [];
        assert ApplyEvents(IdsOf(cached), events[..1]) == {};
        events
      else []
    case None =>
      if cached.Some? then [DeviceRemoved(cached.value.id)] else []
  }

  /** Among three elements drawn from two values, two are equal. */
  lemma ThreeFromTwoRepeat<T>(s: seq<T>, x: T, y: T)
    requires forall i :: 0 <= i < |s| ==> s[i] == x || s[i] == y
    ensures |s| >= 3 ==> s[0] == s[1] || s[0] == s[2] || s[1] == s[2]
  {
  }

  /** Any event list that synchronises the listeners and reports only changes is the check's. */
  lemma DiffEventsUnique(cached: Option<Simulator>, current: Option<Simulator>, events: seq<DeviceEvent>)
    requires ApplyEvents(IdsOf(cached), events) == IdsOf(current)
    requires ReportsOnlyChanges(cached, current, events)
    ensures events == DiffEvents(cached, current)
  {
    // every event is the removal of the cached id or the addition of the running simulator
    var removal := DeviceRemoved(if cached.Some? then cached.value.id else "");
    var addition := DeviceAdded(if current.Some? then current.value else Simulator("", "", ""));
    forall i | 0 <= i < |events|
      ensures events[i] == removal || events[i] == addition
    {
    }
    ThreeFromTwoRepeat(events, removal, addition);
    if |events| == 2 {
      assert events[..1] == [events[0]] && events[..1][..0] == [];
    } else if |events| == 1 {
      assert events[..0] == [];
    }
  }

  /** The cache after one check. */
  function NextCache(cached: Option<Simulator>, current: Option<Simulator>): Option<Simulator> {
    match current
    case Some(sim) => if cached.None? || cached.value.id != sim.id then current else cached
    case None => None
  }

  /** After a check the cache stands for the running simulator: same presence, same id. */
  lemma CacheTracksRunning(cached: Option<Simulator>, current: Option<Simulator>)
    ensures NextCache(cached, current).None? <==> current.None?
    ensures current.Some? ==> NextCache(cached, current).value.id == current.value.id
    ensures IdsOf(NextCache(cached, current)) == IdsOf(current)
  {
  }

  /** One check keeps the listeners' view of the whole event log equal to the cache. */
  lemma CheckKeepsListenersInStep(log: seq<DeviceEvent>, cached: Option<Simulator>, current: Option<Simulator>)
    requires ApplyEvents({}, log) == IdsOf(cached)
    ensures ApplyEvents({}, log + DiffEvents(cached, current)) == IdsOf(NextCache(cached, current))
  {
    ApplyEventsAppend({}, log, DiffEvents(cached, current));
    CacheTracksRunning(cached, current);
  }

  /** A check with nothing changed emits nothing and keeps the cache. */
  lemma NoChangeNoEvents(cached: Option<Simulator>, current: Option<Simulator>)
    requires IdsOf(cached) == IdsOf(current)
    ensures DiffEvents(cached, current) == [] && NextCache(cached, current) == cached
  {
  }

  class IOSSimulatorDiscovery {
    /** Whether the host is macOS (`hostInfo.isDarwin`). */
    const isDarwin: bool
    /** The simulator last reported to the listeners. */
    var cachedSimulator: Option<Simulator>
    /** Every device event emitted so far, in order. */
    var events: seq<DeviceEvent>

    /** The listeners' view agrees with the cache. */
    ghost predicate Valid()
      reads this
    {
      ApplyEvents({}, events) == IdsOf(cachedSimulator)
    }

    constructor (isDarwin: bool)
      ensures this.isDarwin == isDarwin && cachedSimulator == None && events == []
      ensures Valid()
    {
      this.isDarwin := isDarwin;
      cachedSimulator := None;
      events := [];
    }

    /** `createAndAddDevice`: caches the simulator and reports it as added. */
    method CreateAndAddDevice(simulator: Simulator)
      modifies this
      ensures cachedSimulator == Some(simulator)
      ensures events == old(events) + [DeviceAdded(simulator)]
      ensures ApplyEvents({}, events) == ApplyEvents({}, old(events)) + {simulator.id}
    {
      cachedSimulator := Some(simulator);
      AddDevice(simulator);
    }

    /** DeviceDiscovery's `addDevice`, as an event. */
    method AddDevice(simulator: Simulator)
      modifies this`events
      ensures events == old(events) + [DeviceAdded(simulator)]
      ensures ApplyEvents({}, events) == ApplyEvents({}, old(events)) + {simulator.id}
    {
      events := events + [DeviceAdded(simulator)];
      assert events[..|events| - 1] == old(events);
    }

    /** DeviceDiscovery's `removeDevice`, as an event. */
    method RemoveDevice(id: string)
      modifies this`events
      ensures events == old(events) + [DeviceRemoved(id)]
      ensures ApplyEvents({}, events) == ApplyEvents({}, old(events)) - {id}
    {
      events := events + [DeviceRemoved(id)];
      assert events[..|events| - 1] == old(events);
    }

    /**
     * `checkForDevices`: on a macOS host, compares the cache with the
     * running simulator and reports the difference; elsewhere does nothing.
     * `psOutput` is the output of the process listing (None when it threw)
     * and `running` what the simulator resolver reports as running.
     */
    method CheckForDevices(psOutput: Option<string>, running: Option<Simulator>)
      requires Valid()
      modifies this
      ensures Valid()
      ensures !isDarwin ==> cachedSimulator == old(cachedSimulator) && events == old(events)
      ensures isDarwin ==>
        var current := CurrentSimulator(psOutput, running);
        cachedSimulator == NextCache(old(cachedSimulator), current) &&
        events == old(events) + DiffEvents(old(cachedSimulator), current)
    {
      if isDarwin {
        var currentSimulator: Option<Simulator> := None;
        if IsSimulatorRunning(psOutput) {
          currentSimulator := running;
        }

        if currentSimulator.Some? {
          if cachedSimulator.None? {
            CreateAndAddDevice(currentSimulator.value);
          } else if cachedSimulator.value.id != currentSimulator.value.id {
            RemoveDevice(cachedSimulator.value.id);
            CreateAndAddDevice(currentSimulator.value);
          }
        } else if cachedSimulator.Some? {
          RemoveDevice(cachedSimulator.value.id);
          cachedSimulator := None;
        }
      }
    }
  }
}
