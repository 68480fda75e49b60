/**
 * The records and enumerations of the dashboard. Identifiers, dates and
 * timestamps are strings; amounts, prices and quantities are integers.
 * Display-only back-references between records (a club's `admin`, a
 * member's `payments`, ...) are not carried: records refer to each other
 * by id. The exception is `User.clubs` / `User.createdAdmins`, which the
 * session's access checks read.
 */
module Types {
  import opened Wrappers

  datatype UserRole = SuperAdmin | Admin

  /** Discriminant of the three visit-record variants. */
  datatype VisitorType = KindVisitor | KindTrial | KindMember

  datatype MemberStatus = StatusVisitor | StatusTrial | StatusActive | StatusInactive

  datatype PaymentStatus = Full | Partial

  datatype AttendanceStatus = Present | Absent

  datatype InventoryCategory = Equipment | Supplies | Uniforms | Safety | OtherCategory

  datatype Club = Club(
    id: string,
    name: string,
    location: string,
    contactNumber: string,
    adminId: string,
    address: string,
    phone: string,
    email: string,
    adminIds: Option<seq<string>>,
    createdAt: string,
    updatedAt: string)

  datatype User = User(
    id: string,
    username: string,
    name: string,
    email: string,
    phone: string,
    password: Option<string>,
    role: UserRole,
    createdById: Option<string>,
    createdAdmins: Option<seq<User>>,
    clubs: Option<seq<Club>>,
    clubIds: Option<seq<string>>,
    createdAt: string,
    updatedAt: string)

  datatype Visitor = Visitor(
    id: string,
    name: string,
    mobile: string,
    address: string,
    referralSource: string,
    visitDate: string,
    kind: VisitorType,
    clubId: string,
    createdAt: string,
    updatedAt: string)

  datatype Trial = Trial(
    id: string,
    name: string,
    mobile: string,
    address: string,
    referralSource: string,
    visitDate: string,
    kind: VisitorType,
    clubId: string,
    createdAt: string,
    updatedAt: string,
    fee: int,
    trialStartDate: string,
    trialEndDate: string,
    convertedToMember: bool)

  datatype Member = Member(
    id: string,
    name: string,
    mobile: string,
    address: string,
    referralSource: string,
    visitDate: string,
    kind: VisitorType,
    clubId: string,
    createdAt: string,
    updatedAt: string,
    memberId: string,
    membershipStartDate: string,
    membershipEndDate: string,
    subscriptionPlanId: string,
    isActive: bool,
    phone: string,
    email: string,
    status: MemberStatus,
    joinDate: Option<string>)

  datatype Payment = Payment(
    id: string,
    amount: int,
    date: string,
    paymentMethod: string,
    status: PaymentStatus,
    pendingAmount: int,
    clubId: string,
    memberId: Option<string>,
    trialId: Option<string>,
    createdAt: string,
    updatedAt: string)

  datatype Expense = Expense(
    id: string,
    description: string,
    amount: int,
    date: string,
    category: string,
    clubId: string,
    createdAt: string,
    updatedAt: string)

  datatype InventoryItem = InventoryItem(
    id: string,
    name: string,
    description: Option<string>,
    category: InventoryCategory,
    quantity: int,
    minThreshold: int,
    unit: string,
    unitPrice: int,
    clubId: string,
    createdAt: string,
    updatedAt: string)

  datatype InventoryUsage = InventoryUsage(
    id: string,
    date: string,
    quantity: int,
    inventoryItemId: string,
    memberId: Option<string>,
    clubId: string,
    createdAt: string,
    updatedAt: string)

  datatype Attendance = Attendance(
    id: string,
    date: string,
    status: AttendanceStatus,
    memberId: string,
    clubId: string,
    notes: Option<string>,
    createdAt: string,
    updatedAt: string)

  datatype SubscriptionPlan = SubscriptionPlan(
    id: string,
    name: string,
    description: string,
    duration: int,
    price: int,
    features: seq<string>,
    clubId: string,
    isActive: bool,
    createdAt: string,
    updatedAt: string)

  datatype DashboardMetrics = DashboardMetrics(
    dailyVisitors: int,
    trialConversions: int,
    newMemberships: int,
    dailyRevenue: int,
    monthlyRevenue: int,
    stockLevels: map<string, int>,
    attendanceRate: int,
    memberGrowth: seq<int>,
    revenueAnalytics: seq<int>,
    visitorTrends: seq<int>)

  /** Session state held by the authentication provider. */
  datatype AuthState = AuthState(
    user: Option<User>,
    isAuthenticated: bool,
    accessToken: Option<string>,
    loading: bool,
    error: Option<string>)
}
