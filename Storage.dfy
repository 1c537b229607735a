/**
 * The in-memory record store `MemStorage` (server/storage.ts): five tables
 * keyed by id, each with its own id counter that starts at 1 and advances by
 * one per insert.
 *
 * A JavaScript `Map` iterates in insertion order. Every table is only ever
 * inserted into with the counter's current value, and an update (`set` on an
 * existing key) keeps the key's position, so iteration order is ascending id
 * order: `Rows` below.
 */
module Storage {
  import opened Wrappers
  import opened Seqs
  import opened Schema

  /** The values of a table in ascending key order, for the keys below `next`. */
  function Rows<T>(m: map<int, T>, next: int): seq<T>
    decreases next
  {
    if next <= 1 then [] else Rows(m, next - 1) + (if next - 1 in m then [m[next - 1]] else [])
  }

  /** Every key of the table is an id already handed out by a counter now at `next`. */
  ghost predicate KeysBelow<T>(m: map<int, T>, next: int) {
    forall k :: k in m ==> 1 <= k < next
  }

  /** The rows of a table are exactly the values stored under keys below `next`. */
  lemma {:induction false} RowsMembership<T>(m: map<int, T>, next: int)
    ensures forall x :: x in Rows(m, next) <==> exists k :: 1 <= k < next && k in m && m[k] == x
    decreases next
  {
    if next > 1 {
      RowsMembership(m, next - 1);
    }
  }

  /**
   * When every key was handed out by the counter and every record carries its
   * own key, a record is among the rows exactly when it is stored under its id.
   */
  lemma RowsById<T>(m: map<int, T>, next: int, id: T -> int)
    requires KeysBelow(m, next)
    requires forall k :: k in m ==> id(m[k]) == k
    ensures forall x :: x in Rows(m, next) <==> id(x) in m && m[id(x)] == x
  {
    RowsMembership(m, next);
    forall x
      ensures x in Rows(m, next) <==> id(x) in m && m[id(x)] == x
    {
      if x in Rows(m, next) {
        var k :| 1 <= k < next && k in m && m[k] == x;
        assert id(x) == k;
      }
      if id(x) in m && m[id(x)] == x {
        var k := id(x);
        assert 1 <= k < next && k in m && m[k] == x;
      }
    }
  }

  /** One more step of iteration over a table. */
  lemma RowsNext<T>(m: map<int, T>, k: int)
    requires k >= 1
    ensures Rows(m, k + 1) == if k in m then Rows(m, k) + [m[k]] else Rows(m, k)
  {
    assert Rows(m, k) + [] == Rows(m, k);
  }

  /** `x || null` on an optional number: `undefined` and 0 both become null. */
  function NumberOrNull(x: Option<int>): (r: Option<int>)
    ensures r.Some? <==> x.Some? && x.value != 0
    ensures r.Some? ==> r == x
  {
    if x.Some? && x.value != 0 then x else None
  }

  /** `x || null` on an optional string: `undefined` and "" both become null. */
  function TextOrNull(x: Option<string>): (r: Option<string>)
    ensures r.Some? <==> x.Some? && x.value != ""
    ensures r.Some? ==> r == x
  {
    if x.Some? && x.value != "" then x else None
  }

  /** `scheme.isActive` as `getSchemes` tests it: by truthiness. */
  function IsActiveScheme(s: Scheme): bool { IsTruthy(s.data.isActive) }

  function AppliedBy(userId: int): Application -> bool {
    (a: Application) => a.userId == userId
  }

  function FiledBy(userId: int): Grievance -> bool {
    (g: Grievance) => g.userId == userId
  }

  /** The three schemes the store is seeded with, in insertion order. */
  const SEED_SCHEMES: seq<NewScheme> := [
    NewScheme("Children Education Grant",
              "Financial assistance for children's education including school fees, books, and uniform expenses.",
              "education", 25000, "All service personnel", "March 31, 2024", "15-20 days", Bool(true)),
    NewScheme("Medical Emergency Fund",
              "Emergency medical assistance for critical health conditions and surgeries for personnel and families.",
              "medical", 50000, "Personnel & families", "Open year-round", "7-10 days", Bool(true)),
    NewScheme("Home Loan Subsidy",
              "Interest subsidy on home loans for armed forces personnel to support homeownership.",
              "housing", 200000, "Active service only", "December 31, 2024", "30-45 days", Bool(true))
  ]

  class MemStorage {
    var users: map<int, User>
    var schemes: map<int, Scheme>
    var applications: map<int, Application>
    var grievances: map<int, Grievance>
    var sosAlerts: map<int, SosAlert>

    var currentUserId: int
    var currentSchemeId: int
    var currentApplicationId: int
    var currentGrievanceId: int
    var currentSosAlertId: int

    /** Every stored id was handed out by its table's counter, and every record carries its own key. */
    ghost predicate Valid()
      reads this
    {
      && 1 <= currentUserId && KeysBelow(users, currentUserId)
      && (forall k :: k in users ==> users[k].id == k)
      && 1 <= currentSchemeId && KeysBelow(schemes, currentSchemeId)
      && (forall k :: k in schemes ==> schemes[k].id == k)
      && 1 <= currentApplicationId && KeysBelow(applications, currentApplicationId)
      && (forall k :: k in applications ==> applications[k].id == k)
      && 1 <= currentGrievanceId && KeysBelow(grievances, currentGrievanceId)
      && (forall k :: k in grievances ==> grievances[k].id == k)
      && 1 <= currentSosAlertId && KeysBelow(sosAlerts, currentSosAlertId)
      && (forall k :: k in sosAlerts ==> sosAlerts[k].id == k)
    }

    /** A new store holds no users, applications, grievances or alerts, and exactly the seeded schemes 1, 2 and 3. */
    constructor (now: Time)
      ensures Valid()
      ensures users == map[] && applications == map[] && grievances == map[] && sosAlerts == map[]
      ensures currentUserId == 1 && currentApplicationId == 1
      ensures currentGrievanceId == 1 && currentSosAlertId == 1
      ensures schemes.Keys == {1, 2, 3} && currentSchemeId == 4
      ensures forall k :: k in schemes ==> schemes[k] == Scheme(k, SEED_SCHEMES[k - 1], now)
      ensures forall k :: k in schemes ==> IsActiveScheme(schemes[k])
    {
      users := map[];
      schemes := map[];
      applications := map[];
      grievances := map[];
      sosAlerts := map[];
      currentUserId := 1;
      currentSchemeId := 1;
      currentApplicationId := 1;
      currentGrievanceId := 1;
      currentSosAlertId := 1;
      new;
      SeedData(now);
      assert forall k :: k in schemes <==> k in {1, 2, 3};
    }

    /** Inserts the seed schemes one by one, each under the next scheme id. */
    method SeedData(now: Time)
      requires Valid() && schemes == map[] && currentSchemeId == 1
      modifies this`schemes, this`currentSchemeId
      ensures Valid()
      ensures forall k :: k in schemes <==> 1 <= k <= |SEED_SCHEMES|
      ensures currentSchemeId == |SEED_SCHEMES| + 1
      ensures forall k :: k in schemes ==> schemes[k] == Scheme(k, SEED_SCHEMES[k - 1], now)
    {
      var i := 0;
      while i < |SEED_SCHEMES|
        invariant 0 <= i <= |SEED_SCHEMES|
        invariant currentSchemeId == i + 1
        invariant forall k :: k in schemes <==> 1 <= k <= i
        invariant forall k :: k in schemes ==> schemes[k] == Scheme(k, SEED_SCHEMES[k - 1], now)
        invariant Valid()
      {
        var id := currentSchemeId;
        currentSchemeId := currentSchemeId + 1;
        schemes := schemes[id := Scheme(id, SEED_SCHEMES[i], now)];
        i := i + 1;
      }
    }

    // ----- users -----

    /** `users.get(id)`: a stored user is found under its own id. */
    function GetUser(id: int): (r: Option<User>)
      requires Valid()
      reads this
      ensures r.Some? <==> id in users
      ensures r.Some? ==> r.value.id == id && r.value in users.Values
    {
      if id in users then Some(users[id]) else None
    }

    /** The first user, in insertion order, whose email is `email`; none when no user has it. */
    method GetUserByEmail(email: string) returns (r: Option<User>)
      requires Valid()
      ensures r.None? <==> forall k :: k in users ==> users[k].email != email
      ensures r.Some? ==> r.value.id in users && users[r.value.id] == r.value && r.value.email == email
      ensures r.Some? ==> forall k :: k in users && k < r.value.id ==> users[k].email != email
    {
      var k := 1;
      while k < currentUserId
        invariant 1 <= k <= currentUserId
        invariant forall j :: j in users && j < k ==> users[j].email != email
      {
        if k in users && users[k].email == email {
          return Some(users[k]);
        }
        k := k + 1;
      }
      return None;
    }

    /**
     * The first user, in insertion order, whose service number equals
     * `serviceNumber` (`undefined` matches users registered without one).
     */
    method GetUserByServiceNumber(serviceNumber: Option<string>) returns (r: Option<User>)
      requires Valid()
      ensures r.None? <==> forall k :: k in users ==> users[k].serviceNumber != serviceNumber
      ensures r.Some? ==> r.value.id in users && users[r.value.id] == r.value
                          && r.value.serviceNumber == serviceNumber
      ensures r.Some? ==> forall k :: k in users && k < r.value.id ==> users[k].serviceNumber != serviceNumber
    {
      var k := 1;
      while k < currentUserId
        invariant 1 <= k <= currentUserId
        invariant forall j :: j in users && j < k ==> users[j].serviceNumber != serviceNumber
      {
        if k in users && users[k].serviceNumber == serviceNumber {
          return Some(users[k]);
        }
        k := k + 1;
      }
      return None;
    }

    /** Stores the user under the current counter value, a fresh id above every existing one. */
    method CreateUser(u: NewUser, now: Time) returns (user: User)
      requires Valid()
      modifies this`users, this`currentUserId
      ensures Valid()
      ensures user == User(old(currentUserId), u.name, u.email, u.password, u.serviceNumber, u.role, now)
      ensures forall k :: k in old(users) ==> k < user.id
      ensures users == old(users)[user.id := user]
      ensures currentUserId == old(currentUserId) + 1
    {
      var id := currentUserId;
      currentUserId := currentUserId + 1;
      user := User(id, u.name, u.email, u.password, u.serviceNumber, u.role, now);
      users := users[id := user];
    }

    // ----- schemes -----

    /** The active schemes, in insertion order. */
    method GetSchemes() returns (r: seq<Scheme>)
      requires Valid()
      ensures r == Filter(IsActiveScheme, Rows(schemes, currentSchemeId))
      ensures forall s :: s in r <==> s.id in schemes && schemes[s.id] == s && IsActiveScheme(s)
    {
      r := [];
      var k := 1;
      while k < currentSchemeId
        invariant 1 <= k <= currentSchemeId
        invariant r == Filter(IsActiveScheme, Rows(schemes, k))
      {
        if k in schemes {
          FilterSnoc(IsActiveScheme, Rows(schemes, k), schemes[k]);
          if IsActiveScheme(schemes[k]) {
            r := r + [schemes[k]];
          }
        }
        RowsNext(schemes, k);
        k := k + 1;
      }
      FilterMembership(IsActiveScheme, Rows(schemes, currentSchemeId));
      RowsById(schemes, currentSchemeId, (x: Scheme) => x.id);
    }

    /** `schemes.get(id)`: a stored scheme is found under its own id. */
    function GetScheme(id: int): (r: Option<Scheme>)
      requires Valid()
      reads this
      ensures r.Some? <==> id in schemes
      ensures r.Some? ==> r.value.id == id && r.value in schemes.Values
    {
      if id in schemes then Some(schemes[id]) else None
    }

    method CreateScheme(s: NewScheme, now: Time) returns (scheme: Scheme)
      requires Valid()
      modifies this`schemes, this`currentSchemeId
      ensures Valid()
      ensures scheme == Scheme(old(currentSchemeId), s, now)
      ensures forall k :: k in old(schemes) ==> k < scheme.id
      ensures schemes == old(schemes)[scheme.id := scheme]
      ensures currentSchemeId == old(currentSchemeId) + 1
    {
      var id := currentSchemeId;
      currentSchemeId := currentSchemeId + 1;
      scheme := Scheme(id, s, now);
      schemes := schemes[id := scheme];
    }

    // ----- applications -----

    /** The applications of user `userId`, in insertion order. */
    method GetApplicationsByUser(userId: int) returns (r: seq<Application>)
      requires Valid()
      ensures r == Filter(AppliedBy(userId), Rows(applications, currentApplicationId))
      ensures forall a :: a in r <==> a.id in applications && applications[a.id] == a && a.userId == userId
    {
      r := [];
      var k := 1;
      while k < currentApplicationId
        invariant 1 <= k <= currentApplicationId
        invariant r == Filter(AppliedBy(userId), Rows(applications, k))
      {
        if k in applications {
          FilterSnoc(AppliedBy(userId), Rows(applications, k), applications[k]);
          if applications[k].userId == userId {
            r := r + [applications[k]];
          }
        }
        RowsNext(applications, k);
        k := k + 1;
      }
      FilterMembership(AppliedBy(userId), Rows(applications, currentApplicationId));
      RowsById(applications, currentApplicationId, (x: Application) => x.id);
    }

    /** A new application is unreviewed: no review time, reviewer or comments. */
    method CreateApplication(a: NewApplication, now: Time) returns (app: Application)
      requires Valid()
      modifies this`applications, this`currentApplicationId
      ensures Valid()
      ensures app == Application(old(currentApplicationId), a.userId, a.schemeId, a.status, now, None, None, None)
      ensures forall k :: k in old(applications) ==> k < app.id
      ensures applications == old(applications)[app.id := app]
      ensures currentApplicationId == old(currentApplicationId) + 1
    {
      var id := currentApplicationId;
      currentApplicationId := currentApplicationId + 1;
      app := Application(id, a.userId, a.schemeId, a.status, now, None, None, None);
      applications := applications[id := app];
    }

    /**
     * Sets the status of application `id` and stamps the review; a falsy
     * reviewer or comment is stored as null. An absent id changes nothing.
     */
    method UpdateApplicationStatus(id: int, status: Option<string>, reviewedBy: Option<int>,
                                   comments: Option<string>, now: Time)
      returns (r: Option<Application>)
      requires Valid()
      modifies this`applications
      ensures Valid()
      ensures id !in old(applications) ==> r.None? && applications == old(applications)
      ensures id in old(applications) ==>
                var a := old(applications)[id];
                && r == Some(a.(status := status, reviewedAt := Some(now),
                                reviewedBy := NumberOrNull(reviewedBy), comments := TextOrNull(comments)))
                && applications == old(applications)[id := r.value]
    {
      if id !in applications {
        return None;
      }
      var updated := applications[id].(status := status, reviewedAt := Some(now),
                                       reviewedBy := NumberOrNull(reviewedBy), comments := TextOrNull(comments));
      applications := applications[id := updated];
      return Some(updated);
    }

    // ----- grievances -----

    /** The grievances filed by user `userId`, in insertion order. */
    method GetGrievancesByUser(userId: int) returns (r: seq<Grievance>)
      requires Valid()
      ensures r == Filter(FiledBy(userId), Rows(grievances, currentGrievanceId))
      ensures forall g :: g in r <==> g.id in grievances && grievances[g.id] == g && g.userId == userId
    {
      r := [];
      var k := 1;
      while k < currentGrievanceId
        invariant 1 <= k <= currentGrievanceId
        invariant r == Filter(FiledBy(userId), Rows(grievances, k))
      {
        if k in grievances {
          FilterSnoc(FiledBy(userId), Rows(grievances, k), grievances[k]);
          if grievances[k].userId == userId {
            r := r + [grievances[k]];
          }
        }
        RowsNext(grievances, k);
        k := k + 1;
      }
      FilterMembership(FiledBy(userId), Rows(grievances, currentGrievanceId));
      RowsById(grievances, currentGrievanceId, (x: Grievance) => x.id);
    }

    /** Every grievance, in insertion order. */
    method GetAllGrievances() returns (r: seq<Grievance>)
      requires Valid()
      ensures r == Rows(grievances, currentGrievanceId)
      ensures forall g :: g in r <==> g.id in grievances && grievances[g.id] == g
    {
      r := [];
      var k := 1;
      while k < currentGrievanceId
        invariant 1 <= k <= currentGrievanceId
        invariant r == Rows(grievances, k)
      {
        if k in grievances {
          r := r + [grievances[k]];
        }
        RowsNext(grievances, k);
        k := k + 1;
      }
      RowsById(grievances, currentGrievanceId, (x: Grievance) => x.id);
    }

    /** A new grievance is unresolved: no resolution time, resolver or resolution. */
    method CreateGrievance(g: NewGrievance, now: Time) returns (grievance: Grievance)
      requires Valid()
      modifies this`grievances, this`currentGrievanceId
      ensures Valid()
      ensures grievance == Grievance(old(currentGrievanceId), g.userId, g.category, g.subject, g.description,
                                     g.priority, g.status, now, None, None, None)
      ensures forall k :: k in old(grievances) ==> k < grievance.id
      ensures grievances == old(grievances)[grievance.id := grievance]
      ensures currentGrievanceId == old(currentGrievanceId) + 1
    {
      var id := currentGrievanceId;
      currentGrievanceId := currentGrievanceId + 1;
      grievance := Grievance(id, g.userId, g.category, g.subject, g.description,
                             g.priority, g.status, now, None, None, None);
      grievances := grievances[id := grievance];
    }

    /**
     * Sets the status of grievance `id`; the resolution time is set exactly
     * when the new status is "resolved", and a falsy resolver or resolution is
     * stored as null. An absent id changes nothing.
     */
    method UpdateGrievanceStatus(id: int, status: Option<string>, resolvedBy: Option<int>,
                                 resolution: Option<string>, now: Time)
      returns (r: Option<Grievance>)
      requires Valid()
      modifies this`grievances
      ensures Valid()
      ensures id !in old(grievances) ==> r.None? && grievances == old(grievances)
      ensures id in old(grievances) ==>
                var g := old(grievances)[id];
                && r == Some(g.(status := status,
                                resolvedAt := if status == Some(GRIEVANCE_RESOLVED) then Some(now) else None,
                                resolvedBy := NumberOrNull(resolvedBy), resolution := TextOrNull(resolution)))
                && grievances == old(grievances)[id := r.value]
    {
      if id !in grievances {
        return None;
      }
      var updated := grievances[id].(status := status,
                                     resolvedAt := if status == Some(GRIEVANCE_RESOLVED) then Some(now) else None,
                                     resolvedBy := NumberOrNull(resolvedBy), resolution := TextOrNull(resolution));
      grievances := grievances[id := updated];
      return Some(updated);
    }

    // ----- SOS alerts -----

    /** A new alert is unacknowledged: no acknowledgement time or acknowledging admin. */
    method CreateSosAlert(a: NewSosAlert, now: Time) returns (alert: SosAlert)
      requires Valid()
      modifies this`sosAlerts, this`currentSosAlertId
      ensures Valid()
      ensures alert == SosAlert(old(currentSosAlertId), a.userId, a.emergencyType, a.message, now, None, None)
      ensures forall k :: k in old(sosAlerts) ==> k < alert.id
      ensures sosAlerts == old(sosAlerts)[alert.id := alert]
      ensures currentSosAlertId == old(currentSosAlertId) + 1
    {
      var id := currentSosAlertId;
      currentSosAlertId := currentSosAlertId + 1;
      alert := SosAlert(id, a.userId, a.emergencyType, a.message, now, None, None);
      sosAlerts := sosAlerts[id := alert];
    }

    /** Every SOS alert, in insertion order. */
    method GetSosAlerts() returns (r: seq<SosAlert>)
      requires Valid()
      ensures r == Rows(sosAlerts, currentSosAlertId)
      ensures forall a :: a in r <==> a.id in sosAlerts && sosAlerts[a.id] == a
    {
      r := [];
      var k := 1;
      while k < currentSosAlertId
        invariant 1 <= k <= currentSosAlertId
        invariant r == Rows(sosAlerts, k)
      {
        if k in sosAlerts {
          r := r + [sosAlerts[k]];
        }
        RowsNext(sosAlerts, k);
        k := k + 1;
      }
      RowsById(sosAlerts, currentSosAlertId, (x: SosAlert) => x.id);
    }
  }
}
