/** The values the broker, its database and API-M exchange. */
module Domain {

  datatype Option<+T> = None | Some(value: T)

  /** One byte, and a Go string or hash input, which is a sequence of bytes. */
  type byte = b: int | 0 <= b < 256
  type Bytes = seq<byte>

  /** The machine integers the code uses. */
  type uint32 = n: int | 0 <= n < 0x1_0000_0000
  type int32 = n: int | -0x8000_0000 <= n < 0x8000_0000
  type uint64 = n: int | 0 <= n < 0x1_0000_0000_0000_0000
  type int64 = n: int | -0x8000_0000_0000_0000 <= n < 0x8000_0000_0000_0000

  /** Durations and times are in nanoseconds. */
  const SECOND := 1_000_000_000

  /** Identifiers are opaque tokens that are only ever compared. */
  type InstanceId = nat
  type BindingId = nat
  type ResourceId = nat

  /** The three kinds of API-M resource. */
  datatype Kind = Api | Application | Subscription

  /** The catalog's three plan IDs, and every other string a platform may send. */
  datatype Plan = ApiPlan | ApplicationPlan | SubscriptionPlan | UnknownPlan(id: string)

  predicate Known(p: Plan) {
    !p.UnknownPlan?
  }

  function KindOf(p: Plan): Kind
    requires Known(p)
  {
    match p
    case ApiPlan => Api
    case ApplicationPlan => Application
    case SubscriptionPlan => Subscription
  }

  /** What key generation returns for an application, and what a binding hands out. */
  datatype Keys = Keys(consumerKey: string, consumerSecret: string, accessToken: string)

  /** The zero value of an Application struct, read as credentials. */
  const NO_KEYS := Keys("", "", "")

  /** A service instance row; its ID is the key it is stored under. */
  datatype Instance = Instance(service: string, plan: Plan, resource: ResourceId, hash: Bytes,
                               space: string, org: string)

  /** A binding row; its ID is the key it is stored under. */
  datatype BindRow = BindRow(instance: InstanceId, platformApp: string, service: string, plan: Plan,
                             serviceKey: bool)
}
