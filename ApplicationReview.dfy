/**
 * The admin application list (client/src/components/admin/application-review.tsx):
 * badge colouring, the pending-first ordering of the fetched applications and
 * the rule for when Approve and Reject are enabled.
 */
module ApplicationReview {
  import opened Wrappers
  import opened Seqs

  /**
   * The fields of a fetched application that the ordering and the buttons
   * look at; a status `None` is an application stored without one.
   */
  datatype AdminApplication = AdminApplication(id: int, userId: int, schemeId: int, status: Option<string>)

  const PENDING := "pending"

  /**
   * `statusBadgeVariant`: approved is "default", rejected "destructive",
   * anything else (a missing status too) "secondary".
   */
  function StatusBadgeVariant(status: Option<string>): (v: string)
    ensures v == "default" <==> status == Some("approved")
    ensures v == "destructive" <==> status == Some("rejected")
    ensures v == "secondary" <==> status != Some("approved") && status != Some("rejected")
  {
    match status
    case Some("approved") => "default"
    case Some("rejected") => "destructive"
    case _ => "secondary"
  }

  function IsPending(a: AdminApplication): bool { a.status == Some(PENDING) }

  function NotPending(a: AdminApplication): bool { a.status != Some(PENDING) }

  /** The comparator handed to `sort`: pending before everything else, all other pairs tied. */
  function Compare(a: AdminApplication, b: AdminApplication): int {
    if a.status == b.status then 0
    else if a.status == Some(PENDING) then -1
    else if b.status == Some(PENDING) then 1
    else 0
  }

  /** `[...applications].sort(Compare)`: a sorted copy; the fetched list itself is a value and stays as it was. */
  function PendingFirst(applications: seq<AdminApplication>): seq<AdminApplication> {
    StableSort(Compare, applications)
  }

  /** The sorted list is the pending applications, then the rest, each group in fetched order. */
  lemma {:induction false} PendingFirstPartition(s: seq<AdminApplication>)
    ensures PendingFirst(s) == Filter(IsPending, s) + Filter(NotPending, s)
    decreases |s|
  {
    if s != [] {
      var init := s[..|s| - 1];
      var x := s[|s| - 1];
      assert s == init + [x];
      assert PendingFirst(s) == InsertStable(Compare, PendingFirst(init), x);
      PendingFirstPartition(init);
      FilterSnoc(IsPending, init, x);
      FilterSnoc(NotPending, init, x);
      InsertIntoPartition(Filter(IsPending, init), Filter(NotPending, init), x);
    }
  }

  /** Inserting one more application into a pending-then-rest list puts it at the end of its group. */
  lemma InsertIntoPartition(p: seq<AdminApplication>, n: seq<AdminApplication>, x: AdminApplication)
    requires forall i :: 0 <= i < |p| ==> IsPending(p[i])
    requires forall i :: 0 <= i < |n| ==> NotPending(n[i])
    ensures IsPending(x) ==> InsertStable(Compare, p + n, x) == (p + [x]) + n
    ensures !IsPending(x) ==> InsertStable(Compare, p + n, x) == p + (n + [x])
  {
    if IsPending(x) {
      assert forall i :: 0 <= i < |n| ==> Compare(n[i], x) > 0;
      InsertStableAfter(Compare, p, n, x);
    } else {
      var pn := p + n;
      assert pn == [] || Compare(pn[|pn| - 1], x) <= 0;
      InsertStableAfter(Compare, pn, [], x);
      assert pn + [x] + [] == p + (n + [x]);
    }
  }

  /** Sorting only reorders: the sorted list is a permutation of the fetched one. */
  lemma PendingFirstPermutation(s: seq<AdminApplication>)
    ensures multiset(PendingFirst(s)) == multiset(s)
  {
    PendingFirstPartition(s);
    FilterComplementMultiset(IsPending, NotPending, s);
  }

  /** Every pending application comes before every other one. */
  lemma PendingPrecede(s: seq<AdminApplication>)
    ensures var r := PendingFirst(s);
            forall i, j :: 0 <= i < |r| && 0 <= j < |r| && IsPending(r[j]) && !IsPending(r[i]) ==> j < i
  {
    PendingFirstPartition(s);
    var p := Filter(IsPending, s);
    var n := Filter(NotPending, s);
    var r := p + n;
    assert forall k :: 0 <= k < |p| ==> r[k] == p[k];
    assert forall k :: |p| <= k < |r| ==> r[k] == n[k - |p|];
  }

  /** Within each group the sort keeps the fetched order (it is stable and the comparator ties them). */
  lemma PendingFirstKeepsOrder(s: seq<AdminApplication>)
    ensures Filter(IsPending, PendingFirst(s)) == Filter(IsPending, s)
    ensures Filter(NotPending, PendingFirst(s)) == Filter(NotPending, s)
  {
    PendingFirstPartition(s);
    var p := Filter(IsPending, s);
    var n := Filter(NotPending, s);
    FilterAppend(IsPending, p, n);
    FilterAppend(NotPending, p, n);
    FilterKeepsAll(IsPending, p);
    FilterKeepsNone(IsPending, n);
    FilterKeepsAll(NotPending, n);
    FilterKeepsNone(NotPending, p);
    assert p + [] == p && [] + n == n;
  }

  /** `canAct`: Approve and Reject are enabled for a pending application while no update is in flight. */
  predicate CanAct(a: AdminApplication, updatePending: bool) {
    a.status == Some(PENDING) && !updatePending
  }

  /**
   * An application stored without a status sorts among the non-pending rows
   * and never gets enabled buttons, so it can be neither approved nor rejected.
   */
  lemma StatuslessNeverActionable(s: seq<AdminApplication>, a: AdminApplication, updatePending: bool)
    requires a in s && a.status.None?
    ensures a in Filter(NotPending, PendingFirst(s))
    ensures !CanAct(a, updatePending)
  {
    PendingFirstKeepsOrder(s);
    FilterMembership(NotPending, s);
    FilterMembership(NotPending, PendingFirst(s));
  }

  /** The rows with enabled buttons form a prefix of the sorted table. */
  lemma ActionableRowsFirst(s: seq<AdminApplication>, updatePending: bool)
    ensures var r := PendingFirst(s);
            forall i, j :: 0 <= i < j < |r| && CanAct(r[j], updatePending) ==> CanAct(r[i], updatePending)
  {
    PendingPrecede(s);
    var r := PendingFirst(s);
    forall i, j | 0 <= i < j < |r| && CanAct(r[j], updatePending)
      ensures CanAct(r[i], updatePending)
    {
      assert IsPending(r[j]);
    }
  }
}
