/** The record types and string unions the dashboard exchanges with its backend
    (lib/types.ts), and the status filter shared by the two user pages. */
module Types {
  import opened Wrappers

  datatype UserRole = RoleUser | RoleAdmin
  datatype SubscriptionStatus = SubActive | SubInactive | SubExpired

  datatype User = User(
    id: string,
    username: string,
    email: string,
    is_active: bool,
    role: UserRole,
    subscription_status: SubscriptionStatus,
    created_at: string)

  datatype VPNUser = VPNUser(
    user_id: string,
    name: string,
    email: string,
    phone: Option<string>,
    country: Option<string>,
    is_email_verified: bool,
    is_premium: bool,
    is_active: bool)

  datatype ServerStatus = ServerActive | ServerInactive | ServerMaintenance

  datatype VPNServer = VPNServer(
    id: string,
    name: string,
    ip_address: string,
    country: string,
    city: string,
    is_premium: bool,
    status: ServerStatus,
    max_connections: int,
    current_connections: int)

  datatype ConnectionCount = ConnectionCount(server_id: string, connections: int)

  /** Usage analytics. The type declares every field, but the analytics page reads
      `connections_per_server` through `?.`, so the model lets it be missing. */
  datatype AnalyticsUsage = AnalyticsUsage(
    active_users: int,
    total_bandwidth: real,
    connections_per_server: Option<seq<ConnectionCount>>,
    date: string)

  datatype AnalyticsPerformance = AnalyticsPerformance(
    server_id: string,
    latency_ms: real,
    uptime_percentage: real,
    timestamp: string)

  datatype HealthService = Db | Cache | System
  datatype HealthStatus = Healthy | Warning | Error

  datatype SystemHealth = SystemHealth(
    service: HealthService,
    status: HealthStatus,
    message: Option<string>,
    last_check: string)

  /** The wire spelling of each union member. */
  function UserRoleName(r: UserRole): (s: string)
    ensures s in {"user", "admin"}
  {
    match r
    case RoleUser => "user"
    case RoleAdmin => "admin"
  }

  function SubscriptionStatusName(s: SubscriptionStatus): (n: string)
    ensures n in {"active", "inactive", "expired"}
  {
    match s
    case SubActive => "active"
    case SubInactive => "inactive"
    case SubExpired => "expired"
  }

  function ServerStatusName(s: ServerStatus): (n: string)
    ensures n in {"active", "inactive", "maintenance"}
  {
    match s
    case ServerActive => "active"
    case ServerInactive => "inactive"
    case ServerMaintenance => "maintenance"
  }

  function HealthServiceName(s: HealthService): (n: string)
    ensures n in {"db", "cache", "system"}
  {
    match s
    case Db => "db"
    case Cache => "cache"
    case System => "system"
  }

  function HealthStatusName(s: HealthStatus): (n: string)
    ensures n in {"healthy", "warning", "error"}
  {
    match s
    case Healthy => "healthy"
    case Warning => "warning"
    case Error => "error"
  }

  /** Distinct members of each union have distinct wire spellings. */
  lemma NamesAreInjective()
    ensures forall a: UserRole, b: UserRole :: UserRoleName(a) == UserRoleName(b) ==> a == b
    ensures forall a: SubscriptionStatus, b: SubscriptionStatus ::
      SubscriptionStatusName(a) == SubscriptionStatusName(b) ==> a == b
    ensures forall a: ServerStatus, b: ServerStatus :: ServerStatusName(a) == ServerStatusName(b) ==> a == b
    ensures forall a: HealthService, b: HealthService :: HealthServiceName(a) == HealthServiceName(b) ==> a == b
    ensures forall a: HealthStatus, b: HealthStatus :: HealthStatusName(a) == HealthStatusName(b) ==> a == b
  {
  }

  /** The `'all' | 'active' | 'inactive'` filter of the two user list pages. */
  datatype StatusFilter = All | Active | Inactive

  function StatusFilterName(f: StatusFilter): (n: string)
    ensures n in {"all", "active", "inactive"}
  {
    match f
    case All => "all"
    case Active => "active"
    case Inactive => "inactive"
  }

  /** `filter === 'all' || (filter === 'active' && is_active) || (filter === 'inactive' && !is_active)` */
  predicate MatchesStatus(isActive: bool, f: StatusFilter) {
    f == All || (f == Active && isActive) || (f == Inactive && !isActive)
  }

  /** 'all' accepts everything; 'active' and 'inactive' split the users exactly. */
  lemma StatusFilterSemantics(isActive: bool)
    ensures MatchesStatus(isActive, All)
    ensures MatchesStatus(isActive, Active) <==> isActive
    ensures MatchesStatus(isActive, Inactive) <==> !isActive
  {
  }
}
