/**
 * The grievance portal page (client/src/pages/grievances.tsx): the form's
 * validation schema, the status labels and colours, and the statistics and
 * recent-grievance cards.
 */
module GrievancesPage {
  import opened Wrappers
  import opened Text
  import opened Seqs
  import opened Schema

  datatype GrievanceFormData = GrievanceFormData(category: string, subject: string, description: string, priority: string)

  /** One failed check: the field and its message. */
  datatype FieldError = FieldError(field: string, message: string)

  const CATEGORY_REQUIRED := FieldError("category", "Category is required")
  const SUBJECT_REQUIRED := FieldError("subject", "Subject is required")
  const DESCRIPTION_TOO_SHORT := FieldError("description", "Description must be at least 10 characters")
  const PRIORITY_REQUIRED := FieldError("priority", "Priority is required")

  /** `z.string().min(n)`: at least `n` UTF-16 code units. */
  predicate MinLength(s: string, n: nat) { Utf16Length(s) >= n }

  /** A string has at least one code unit exactly when it is not empty. */
  lemma MinLengthOne(s: string)
    ensures MinLength(s, 1) <==> s != ""
  {
    if s != "" {
      assert Utf16Length(s) >= |s| >= 1;
    }
  }

  /**
   * `grievanceSchema`: every failed check in field order. The form is
   * accepted exactly when there are none: category, subject and priority
   * non-empty and a description of at least ten code units.
   */
  function Validate(d: GrievanceFormData): (errors: seq<FieldError>)
    ensures errors == [] <==> d.category != "" && d.subject != "" && d.priority != "" && MinLength(d.description, 10)
    ensures CATEGORY_REQUIRED in errors <==> d.category == ""
    ensures SUBJECT_REQUIRED in errors <==> d.subject == ""
    ensures DESCRIPTION_TOO_SHORT in errors <==> !MinLength(d.description, 10)
    ensures PRIORITY_REQUIRED in errors <==> d.priority == ""
    ensures |errors| <= 4
  {
    MinLengthOne(d.category);
    MinLengthOne(d.subject);
    MinLengthOne(d.priority);
    (if MinLength(d.category, 1) then [] else [CATEGORY_REQUIRED])
    + (if MinLength(d.subject, 1) then [] else [SUBJECT_REQUIRED])
    + (if MinLength(d.description, 10) then [] else [DESCRIPTION_TOO_SHORT])
    + (if MinLength(d.priority, 1) then [] else [PRIORITY_REQUIRED])
  }

  /** The default values fail every check. */
  lemma EmptyFormRejected()
    ensures Validate(GrievanceFormData("", "", "", "")) == [CATEGORY_REQUIRED, SUBJECT_REQUIRED, DESCRIPTION_TOO_SHORT, PRIORITY_REQUIRED]
  {
  }

  /** The length counts code units: five characters outside the Basic Multilingual Plane make a long enough description. */
  lemma DescriptionCountsCodeUnits()
    ensures MinLength("\U{1F600}\U{1F600}\U{1F600}\U{1F600}\U{1F600}", 10)
  {
  }

  const COLOR_FILED := "bg-blue-100 text-blue-800"
  const COLOR_IN_PROGRESS := "bg-yellow-100 text-yellow-800"
  const COLOR_RESOLVED := "bg-green-100 text-green-800"
  const COLOR_OTHER := "bg-gray-100 text-gray-800"

  /** A status the page has a label and a colour for. */
  predicate KnownStatus(status: Option<string>) {
    status.Some? && status.value in {GRIEVANCE_FILED, GRIEVANCE_IN_PROGRESS, GRIEVANCE_RESOLVED}
  }

  /** `getStatusColor`: one colour per known status, gray for any other, `undefined` included. */
  function StatusColor(status: Option<string>): (c: string)
    ensures !KnownStatus(status) <==> c == COLOR_OTHER
  {
    match status
    case Some("filed") => COLOR_FILED
    case Some("in_progress") => COLOR_IN_PROGRESS
    case Some("resolved") => COLOR_RESOLVED
    case _ => COLOR_OTHER
  }

  /**
   * `getStatusText`: a label for each known status; any other status is shown
   * as it is, so an `undefined` status renders no label (`None`).
   */
  function StatusText(status: Option<string>): (t: Option<string>)
    ensures !KnownStatus(status) ==> t == status
    ensures KnownStatus(status) ==> t.Some? && t.value in {"Filed", "In Progress", "Resolved"}
  {
    match status
    case Some("filed") => Some("Filed")
    case Some("in_progress") => Some("In Progress")
    case Some("resolved") => Some("Resolved")
    case _ => status
  }

  /** The three known statuses get three different labels and three different colours. */
  lemma KnownStatusesDistinct(a: Option<string>, b: Option<string>)
    requires KnownStatus(a) && KnownStatus(b) && a != b
    ensures StatusText(a) != StatusText(b)
    ensures StatusColor(a) != StatusColor(b)
  {
  }

  /** The statistics card: total, pending (not resolved) and resolved, each 0 while the list is not there. */
  datatype Statistics = Statistics(total: nat, pending: nat, resolved: nat)

  function Stats(grievances: Option<seq<Grievance>>): (s: Statistics)
    ensures s.pending + s.resolved == s.total
    ensures grievances.Some? ==> s.total == |grievances.value|
    ensures s.pending > 0 <==> grievances.Some? && exists g :: g in grievances.value && IsUnresolvedGrievance(g)
  {
    if grievances.None? then Statistics(0, 0, 0)
    else
      FilterComplementCount(IsUnresolvedGrievance, IsResolvedGrievance, grievances.value);
      Statistics(|grievances.value|, CountWhere(IsUnresolvedGrievance, grievances), CountWhere(IsResolvedGrievance, grievances))
  }

  /** The recent-grievances card: at most the first three, or the empty state. */
  function RecentGrievances(grievances: Option<seq<Grievance>>): (r: Option<seq<Grievance>>)
    ensures r.None? <==> grievances.None? || grievances.value == []
    ensures r.Some? ==> r.value <= grievances.value && |r.value| == if |grievances.value| < 3 then |grievances.value| else 3
  {
    Preview(grievances, 3)
  }
}
