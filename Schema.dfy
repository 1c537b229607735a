/**
 * The portal's records, one datatype per table, with the status vocabularies
 * the tables use. A `NewX` is the insert shape (no id, no server timestamps).
 */
module Schema {
  import opened Wrappers

  /** A `new Date()` value in milliseconds; the clock is an input of every operation that reads it. */
  type Time = int

  const ROLE_SOLDIER := "soldier"
  const ROLE_FAMILY := "family"
  const ROLE_ADMIN := "admin"

  const APPLICATION_PENDING := "pending"
  const APPLICATION_APPROVED := "approved"
  const APPLICATION_REJECTED := "rejected"

  const GRIEVANCE_FILED := "filed"
  const GRIEVANCE_IN_PROGRESS := "in_progress"
  const GRIEVANCE_RESOLVED := "resolved"

  const SCHEME_ACTIVE := "ACTIVE"
  const SCHEME_PAUSED := "PAUSED"
  const SCHEME_ENDED := "ENDED"
  const SCHEME_UPCOMING := "UPCOMING"

  /** JavaScript truthiness of an optional string: neither `undefined` nor "". */
  predicate Truthy(o: Option<string>) {
    o.Some? && o.value != ""
  }

  /** `o || d` on an optional string. */
  function OrDefault(o: Option<string>, d: string): string {
    if Truthy(o) then o.value else d
  }

  /** `serviceNumber` is optional in the insert shape; `None` is JavaScript's `undefined`. */
  datatype NewUser = NewUser(name: string, email: string, password: string,
                             serviceNumber: Option<string>, role: string)

  datatype User = User(id: int, name: string, email: string, password: string,
                       serviceNumber: Option<string>, role: string, createdAt: Time)

  /** A scalar of a JSON request body; `Undefined` is a field the body leaves out. */
  datatype JsValue = Undefined | Null | Bool(b: bool) | Num(n: int) | Str(s: string)

  /** JavaScript truthiness of such a value. */
  predicate IsTruthy(v: JsValue) {
    match v
    case Undefined => false
    case Null => false
    case Bool(b) => b
    case Num(n) => n != 0
    case Str(t) => t != ""
  }

  /**
   * `isActive` is whatever the request body sent: the store keeps it as is and
   * tests it for truthiness.
   */
  datatype NewScheme = NewScheme(title: string, description: string, category: string, amount: int,
                                 eligibility: string, deadline: string, processingTime: string,
                                 isActive: JsValue)

  /** A stored scheme: the inserted fields spread into a record with an id and a creation time. */
  datatype Scheme = Scheme(id: int, data: NewScheme, createdAt: Time)

  /**
   * The `status` columns have database defaults, so the insert schemas leave
   * them optional and nothing fills the default in: `None` is a status the
   * request body did not send, stored as `undefined`.
   */
  datatype NewApplication = NewApplication(userId: int, schemeId: int, status: Option<string>)

  datatype Application = Application(id: int, userId: int, schemeId: int, status: Option<string>,
                                     appliedAt: Time, reviewedAt: Option<Time>,
                                     reviewedBy: Option<int>, comments: Option<string>)

  datatype NewGrievance = NewGrievance(userId: int, category: string, subject: string,
                                       description: string, priority: string, status: Option<string>)

  datatype Grievance = Grievance(id: int, userId: int, category: string, subject: string,
                                 description: string, priority: string, status: Option<string>,
                                 filedAt: Time, resolvedAt: Option<Time>,
                                 resolvedBy: Option<int>, resolution: Option<string>)

  /** An application awaiting review: its status is "pending" (a missing status is not). */
  predicate IsPendingApplication(a: Application) { a.status == Some(APPLICATION_PENDING) }

  predicate IsApprovedApplication(a: Application) { a.status == Some(APPLICATION_APPROVED) }

  /** A grievance still open: any status but "resolved", a missing one included. */
  predicate IsUnresolvedGrievance(g: Grievance) { g.status != Some(GRIEVANCE_RESOLVED) }

  predicate IsResolvedGrievance(g: Grievance) { g.status == Some(GRIEVANCE_RESOLVED) }

  datatype NewSosAlert = NewSosAlert(userId: int, emergencyType: string, message: Option<string>)

  datatype SosAlert = SosAlert(id: int, userId: int, emergencyType: string, message: Option<string>,
                               sentAt: Time, acknowledgedAt: Option<Time>, acknowledgedBy: Option<int>)
}
