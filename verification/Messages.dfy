/** The message vocabulary of the application: ids, payloads, and who handles what. */
module Messages {

  type uint8 = n: int | 0 <= n < 0x100
  type uint16 = n: int | 0 <= n < 0x1_0000
  type uint32 = n: int | 0 <= n < 0x1_0000_0000
  type int16 = n: int | -0x8000 <= n < 0x8000

  datatype MsgId =
    | Log | PhysicsTick | StateRequest | StateData
    | MotorSequence | MotorStatus | KinematicsRequest | KinematicsData
    | PowerRequest | PowerData | ThermalRequest | ThermalData
    | EnvironmentAck | EnvironmentRequest | EnvironmentData
    | AutoDriveCommand | AutoDriveStatus | InternalEnvRequest | InternalEnvData

  const MAX_SUB_CMDS := 5
  const MAX_NODES := 8
  const MAX_ENVS := 4

  datatype SubCmd = SubCmd(speed: int16, duration: uint32)

  type Steps = s: seq<SubCmd> | |s| == MAX_SUB_CMDS
    witness [SubCmd(0, 0), SubCmd(0, 0), SubCmd(0, 0), SubCmd(0, 0), SubCmd(0, 0)]

  datatype Sequence = Sequence(cmdId: uint32, numSteps: uint8, steps: Steps)

  datatype Status = Status(cmdId: uint32, rpm: int16, active: bool)

  datatype Tick = Tick(cmdId: uint32, rpm: int16, dt: uint32)

  /** Positions are exact, in rpm * us: one metre is 10^8 of them. Speeds are in rpm: 100 of them are one m/s. */
  datatype Kinematics = Kinematics(cmdId: uint32, elapsed: uint32, position: int, speed: int)

  datatype Power = Power(cmdId: uint32, voltage: real, current: real)

  datatype Region = Region(id: uint32, minX: real, minY: real, maxX: real, maxY: real,
                           ambient: real, incline: real, maxSpeed: real)

  datatype DriveMode = Eco | Performance | ManualTuning

  datatype Node = Node(x: real, timeoutMs: uint16)

  datatype RouteCommand = RouteCommand(mode: DriveMode, gain: real, tuning: bool, numNodes: uint8, route: seq<Node>)

  /** The route array has eight entries; a larger num_nodes would index past it. */
  type RoutePlan = c: RouteCommand | |c.route| == MAX_NODES && c.numNodes <= MAX_NODES
    witness RouteCommand(Eco, 0.0, false, 0,
      [Node(0.0, 0), Node(0.0, 0), Node(0.0, 0), Node(0.0, 0), Node(0.0, 0), Node(0.0, 0), Node(0.0, 0), Node(0.0, 0)])

  datatype NodeStats = NodeStats(initial: real, final: real, perMeter: real, total: real)

  datatype RouteStatus = RouteStatus(cmdId: uint32, node: nat, complete: bool, numStats: nat, stats: seq<NodeStats>,
                                     numEnvs: nat, envIds: seq<uint32>)

  /** InternalEnvData carries a shared pointer; here the position of the cache entry it points to. */
  datatype Msg =
    | MsgLog(text: string)
    | MsgSequence(seq_: Sequence)
    | MsgStatus(status: Status)
    | MsgTick(tick: Tick)
    | MsgKinematicsRequest
    | MsgKinematics(kin: Kinematics)
    | MsgPowerRequest
    | MsgPower(power: Power)
    | MsgThermalRequest
    | MsgThermal(motor: real, battery: real)
    | MsgStateRequest
    | MsgState(executing: bool)
    | MsgRoute(route: RoutePlan)
    | MsgRouteStatus(report: RouteStatus)
    | MsgRegion(region: Region)
    | MsgRegionAck(id: uint32)
    | MsgRegionRequest(x: real, y: real)
    | MsgLookup(x: real, y: real)
    | MsgFound(entry: nat)
  {
    function Id(): MsgId {
      match this
      case MsgLog(_) => Log
      case MsgSequence(_) => MotorSequence
      case MsgStatus(_) => MotorStatus
      case MsgTick(_) => PhysicsTick
      case MsgKinematicsRequest => KinematicsRequest
      case MsgKinematics(_) => KinematicsData
      case MsgPowerRequest => PowerRequest
      case MsgPower(_) => PowerData
      case MsgThermalRequest => ThermalRequest
      case MsgThermal(_, _) => ThermalData
      case MsgStateRequest => StateRequest
      case MsgState(_) => StateData
      case MsgRoute(_) => AutoDriveCommand
      case MsgRouteStatus(_) => AutoDriveStatus
      case MsgRegion(_) => EnvironmentData
      case MsgRegionAck(_) => EnvironmentAck
      case MsgRegionRequest(_, _) => EnvironmentRequest
      case MsgLookup(_, _) => InternalEnvRequest
      case MsgFound(_) => InternalEnvData
    }
  }

  datatype Component = MotorC | KinematicsC | PowerC | StateC | ThermalC | EnvironmentC | AutonomousC | LogC | BridgeC

  /** The Subscribes lists. */
  function Subscribes(c: Component): seq<MsgId> {
    match c
    case MotorC => [MotorSequence, PhysicsTick]
    case KinematicsC => [PhysicsTick, KinematicsRequest, MotorStatus]
    case PowerC => [PhysicsTick, PowerRequest, MotorStatus]
    case StateC => [StateRequest, MotorStatus]
    case ThermalC => [PhysicsTick, EnvironmentData, ThermalRequest]
    case EnvironmentC => [EnvironmentData, InternalEnvRequest]
    case AutonomousC => [AutoDriveCommand, KinematicsData, PhysicsTick, PowerData, InternalEnvData]
    case LogC => []
    case BridgeC => [Log, StateData, KinematicsData, PowerData, ThermalData, EnvironmentAck, AutoDriveStatus,
      EnvironmentRequest]
  }
}
