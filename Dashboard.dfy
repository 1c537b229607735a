/**
 * The dashboard page (client/src/pages/dashboard.tsx): the role-dependent
 * notification list, the counts shown on the admin quick actions, and the
 * recent-activity list. Query results that have not arrived are `None`.
 */
module Dashboard {
  import opened Wrappers
  import opened Text
  import opened Seqs
  import opened Schema

  datatype Notification = Notification(id: int, kind: string, message: string, time: string)

  const SOLDIER_NOTIFICATIONS := [
    Notification(1, "success", "Medical Grant application approved - \U{20B9}15,000 credited", "2 hours ago"),
    Notification(2, "info", "New education schemes available for children", "1 day ago")]

  const FAMILY_NOTIFICATIONS := [
    Notification(1, "info", "Family medical camp scheduled for next week", "1 day ago"),
    Notification(2, "success", "Emergency contact details updated successfully", "3 days ago")]

  predicate IsUnacknowledged(s: SosAlert) { s.acknowledgedAt.None? }

  /** The grievance count of the admin view: those not resolved. */
  function PendingGrievances(grievances: Option<seq<Grievance>>): (n: nat)
    ensures n > 0 <==> grievances.Some? && exists g :: g in grievances.value && IsUnresolvedGrievance(g)
    ensures grievances.Some? ==> n <= |grievances.value|
  {
    CountWhere(IsUnresolvedGrievance, grievances)
  }

  /** The SOS count of the admin view: those without an acknowledgement time. */
  function UnacknowledgedAlerts(alerts: Option<seq<SosAlert>>): (n: nat)
    ensures n > 0 <==> alerts.Some? && exists s :: s in alerts.value && IsUnacknowledged(s)
    ensures alerts.Some? ==> n <= |alerts.value|
  {
    CountWhere(IsUnacknowledged, alerts)
  }

  /** The application count of the admin review button: those pending. */
  function PendingApplications(applications: Option<seq<Application>>): (n: nat)
    ensures n > 0 <==> applications.Some? && exists a :: a in applications.value && IsPendingApplication(a)
    ensures applications.Some? ==> n <= |applications.value|
  {
    CountWhere(IsPendingApplication, applications)
  }

  function WarningNotification(pending: nat): Notification {
    Notification(1, "warning", NatToString(pending) + " pending grievances require attention", "now")
  }

  function AlertNotification(unacknowledged: nat): Notification {
    Notification(2, "alert", NatToString(unacknowledged) + " unacknowledged SOS alerts", "now")
  }

  /**
   * `getNotifications`: two fixed notifications for soldiers and for family
   * members; for admins a warning when some grievance is unresolved and an
   * alert when some SOS alert is unacknowledged, each carrying its count and
   * the warning first; nothing for any other role.
   */
  method GetNotifications(role: string, grievances: Option<seq<Grievance>>, alerts: Option<seq<SosAlert>>)
    returns (notifications: seq<Notification>)
    ensures role == ROLE_SOLDIER ==> notifications == SOLDIER_NOTIFICATIONS
    ensures role == ROLE_FAMILY ==> notifications == FAMILY_NOTIFICATIONS
    ensures role !in {ROLE_SOLDIER, ROLE_FAMILY, ROLE_ADMIN} ==> notifications == []
    ensures role == ROLE_ADMIN ==>
      && |notifications| <= 2
      && (WarningNotification(PendingGrievances(grievances)) in notifications
          <==> grievances.Some? && exists g :: g in grievances.value && IsUnresolvedGrievance(g))
      && (AlertNotification(UnacknowledgedAlerts(alerts)) in notifications
          <==> alerts.Some? && exists s :: s in alerts.value && IsUnacknowledged(s))
      && (forall i :: 0 <= i < |notifications| ==>
            notifications[i] == WarningNotification(PendingGrievances(grievances))
            || notifications[i] == AlertNotification(UnacknowledgedAlerts(alerts)))
      && (|notifications| == 2 ==> notifications[0].id == 1 && notifications[1].id == 2)
  {
    notifications := [];
    if role == ROLE_SOLDIER {
      notifications := notifications + SOLDIER_NOTIFICATIONS;
    } else if role == ROLE_FAMILY {
      notifications := notifications + FAMILY_NOTIFICATIONS;
    } else if role == ROLE_ADMIN {
      var pendingCount := PendingGrievances(grievances);
      var sosCount := UnacknowledgedAlerts(alerts);
      if pendingCount > 0 {
        notifications := notifications + [WarningNotification(pendingCount)];
      }
      if sosCount > 0 {
        notifications := notifications + [AlertNotification(sosCount)];
      }
    }
  }

  /** The recent-activity card: at most the first five applications, or the empty state when there are none. */
  function RecentApplications(applications: Option<seq<Application>>): (r: Option<seq<Application>>)
    ensures r.None? <==> applications.None? || applications.value == []
    ensures r.Some? ==> r.value <= applications.value && |r.value| == if |applications.value| < 5 then |applications.value| else 5
  {
    Preview(applications, 5)
  }

  /** The role badge: the role with its first letter upper-cased. */
  function RoleLabel(role: string): (r: string)
    ensures |r| == |role|
  {
    Capitalize(role)
  }

  lemma RoleLabels()
    ensures RoleLabel(ROLE_SOLDIER) == "Soldier"
    ensures RoleLabel(ROLE_FAMILY) == "Family"
    ensures RoleLabel(ROLE_ADMIN) == "Admin"
  {
  }
}
