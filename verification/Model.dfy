/** The value and entity types of the motion runtime.

    f32 and f64 are modelled by `real`; i32 by the bounded type `I32`; u64 timestamps and
    usize component indices by `nat`.  A Uuid is identified with its printed text, because
    output names are qualified by that text. */
module Model {

  datatype Option<+T> = None | Some(value: T)

  datatype Result<+T, +E> = Ok(value: T) | Err(error: E) {
    predicate IsFailure() {
      Err?
    }

    function PropagateFailure<U>(): Result<U, E>
      requires Err?
    {
      Err(error)
    }

    function Extract(): T
      requires Ok?
    {
      value
    }
  }

  datatype Uuid = Uuid(text: string)

  const I32_MIN: int := -0x8000_0000
  const I32_MAX: int := 0x7fff_ffff
  type I32 = i: int | I32_MIN <= i <= I32_MAX

  datatype Quat = Quat(x: real, y: real, z: real, w: real)

  /** A 4x4 matrix, row by row. */
  type Mat4 = m: seq<seq<real>> | |m| == 4 && forall r :: 0 <= r < 4 ==> |m[r]| == 4
    witness seq(4, _ => [0.0, 0.0, 0.0, 0.0])

  datatype AttributeValue =
    | Bool(flag: bool)
    | Int32(int32: I32)
    | Float32(f32: real)
    | Float64(f64: real)
    | Vec2f(x: real, y: real)
    | Vec3f(x: real, y: real, z: real)
    | Vec4f(x: real, y: real, z: real, w: real)
    | Quatf(quat: Quat)
    | Mat4f(mat: Mat4)
    | Trigger(fired: bool)

  /** What `type_name` distinguishes. */
  datatype ValueType =
    | BoolType | Int32Type | Float32Type | Float64Type
    | Vec2Type | Vec3Type | Vec4Type | QuatType | Mat4Type | TriggerType

  function TypeOf(v: AttributeValue): ValueType {
    match v
    case Bool(_) => BoolType
    case Int32(_) => Int32Type
    case Float32(_) => Float32Type
    case Float64(_) => Float64Type
    case Vec2f(_, _) => Vec2Type
    case Vec3f(_, _, _) => Vec3Type
    case Vec4f(_, _, _, _) => Vec4Type
    case Quatf(_) => QuatType
    case Mat4f(_) => Mat4Type
    case Trigger(_) => TriggerType
  }

  datatype AttributeFilter =
    | Passthrough
    | Ema(alpha: real)
    | Deadband(threshold: real)
    | Clamp(min: real, max: real)

  datatype SceneAttribute = SceneAttribute(
    name: string,
    default: AttributeValue,
    current: AttributeValue,
    live: bool,
    chain: seq<AttributeFilter>)

  datatype SceneObject = SceneObject(name: string, attributes: map<string, SceneAttribute>)

  datatype Scene = Scene(id: Uuid, objects: map<Uuid, SceneObject>)

  /** The (scene, object, attribute) triple a mapping drives. */
  datatype Address = Address(scene: Uuid, obj: Uuid, attribute: string)

  type Mask = Option<seq<nat>>

  datatype MappingState = Active | Released

  datatype Mapping = Mapping(
    id: Uuid,
    sourceDevice: Uuid,
    sourceOutput: string,
    target: Address,
    mask: Mask,
    lock: bool,
    state: MappingState,
    lastHeartbeat: nat,
    disconnectedAt: Option<nat>)

  datatype MappingRequest = MappingRequest(
    sourceDevice: Uuid,
    sourceOutput: string,
    target: Address,
    mask: Mask)

  datatype AttributeUpdate = AttributeUpdate(output: string, value: AttributeValue)

  datatype LeaseConfig = LeaseConfig(timeout: nat, reclaimGrace: nat)

  datatype Mode = Idle | Live | Recording

  datatype Denial = Locked | AlreadyOwned | MappingNotFound | NoActiveScene | NoActiveMapping(output: string)

  datatype CoreError =
    | SceneNotFound(scene: Uuid)
    | ObjectNotFound(obj: Uuid)
    | AttributeNotFound(attribute: string)
    | MappingDenied(why: Denial)
    | MappingBlockedInRecording
    | InvalidModeTransition(from: Mode, to: Mode)
    | TypeMismatch(expected: ValueType, got: ValueType)
    | InvalidComponentMask
    | UnsupportedTransform

  /** `a.saturating_sub(b)` on u64. */
  function SaturatingSub(a: nat, b: nat): nat {
    if a < b then 0 else a - b
  }
}
