/** StateService, KinematicsService and ThermalService: the cached motor state, and what one tick integrates. */
module Physics {
  import opened Messages

  const TICK_US: uint32 := 10_000

  /** `executing` is state_ == Executing; the only other state ever entered is Ready. */
  datatype StateCache = StateCache(executing: bool, cmdId: uint32, rpm: int16, active: bool)

  function CacheStatus(s: Status): StateCache {
    StateCache(s.active, s.cmdId, s.rpm, s.active)
  }

  /** The tick the clock thread builds from the cache. */
  function Snapshot(c: StateCache): Tick {
    Tick(c.cmdId, if c.executing then c.rpm else 0, TICK_US)
  }

  /** Speed in rpm; position in rpm * us. */
  datatype KinState = KinState(cmdId: uint32, elapsed: uint32, position: int, speed: int)

  function Integrate(k: KinState, t: Tick): KinState {
    KinState(t.cmdId, (k.elapsed + t.dt) % 0x1_0000_0000, k.position + t.rpm * t.dt, t.rpm)
  }

  function KinOnStatus(k: KinState, s: Status): KinState {
    if s.active && s.cmdId != k.cmdId then k.(cmdId := s.cmdId, elapsed := 0)
    else if !s.active then k.(speed := 0)
    else k
  }

  /** What a request is answered with. */
  function Report(k: KinState): Kinematics {
    Kinematics(k.cmdId, k.elapsed, k.position, k.speed)
  }

  datatype PowerState = PowerState(cmdId: uint32, voltage: real, current: real)

  function PowerOnStatus(p: PowerState, s: Status): PowerState {
    PowerState(s.cmdId, p.voltage, if s.active then p.current else 0.0)
  }

  datatype ThermalState = ThermalState(ambient: real, motor: real, battery: real)

  function Abs(r: int): nat { if r < 0 then -r else r }

  function Seconds(dt: uint32): real { dt as real / 1000000.0 }

  function Heat(s: ThermalState, t: Tick): ThermalState {
    var motorRate := Abs(t.rpm) as real * 0.005 - (s.motor - s.ambient) * 0.05;
    var batteryRate := Abs(t.rpm) as real * 0.002 - (s.battery - s.ambient) * 0.02;
    s.(motor := s.motor + motorRate * Seconds(t.dt), battery := s.battery + batteryRate * Seconds(t.dt))
  }
}
