/** The learning-progress list: an empty state, or one row per course with
    its status badge, progress and dates. */
module LearningProgressTracker {
  import opened Wrappers
  import opened AppTypes
  import opened Ui

  datatype StatusIcon = CheckCircle | PlayCircle | ClockIcon

  /** The status badge of a course row. */
  datatype CourseBadge = CourseBadge(variant: BadgeVariant, className: string, icon: StatusIcon, text: string)

  /** `course.status === 'completed'` etc.: which icon shows. */
  function Icon(s: CourseStatus): StatusIcon {
    match s
    case Completed => CheckCircle
    case InProgress => PlayCircle
    case NotStarted => ClockIcon
  }

  function StatusLabel(s: CourseStatus): string {
    if s == Completed then "Completed"
    else if s == InProgress then "In Progress"
    else "Not Started"
  }

  function Badge(s: CourseStatus): (b: CourseBadge)
    ensures b.variant == Default <==> s == Completed
    ensures b.variant == Default || b.variant == Secondary
    ensures b.className == (if s == Completed then "bg-green-600" else "")
    ensures b.icon == Icon(s) && b.text == StatusLabel(s)
  {
    CourseBadge(if s == Completed then Default else Secondary,
                if s == Completed then "bg-green-600" else "",
                Icon(s), StatusLabel(s))
  }

  /** Different statuses get different icons and different labels, so the
      badge tells the status apart exactly. */
  lemma BadgeIdentifiesStatus(s: CourseStatus, t: CourseStatus)
    ensures Icon(s) == Icon(t) <==> s == t
    ensures StatusLabel(s) == StatusLabel(t) <==> s == t
  {
  }

  /** JavaScript truthiness of an optional date string: absent or empty is false. */
  predicate Present(d: Option<string>) {
    d.Some? && d.value != ""
  }

  /** The dates line: `Started: ...` and, inside it, ` • Completed: ...`. */
  datatype DatesLine = DatesLine(started: string, completed: Option<string>)

  function Dates(c: CourseProgress): (d: Option<DatesLine>)
    ensures d.Some? <==> Present(c.startedDate)
    ensures d.Some? ==> d.value.started == c.startedDate.value
    ensures d.Some? && d.value.completed.Some? <==> Present(c.startedDate) && Present(c.completedDate)
    ensures d.Some? && d.value.completed.Some? ==> d.value.completed.value == c.completedDate.value
  {
    if Present(c.startedDate) then
      Some(DatesLine(c.startedDate.value, if Present(c.completedDate) then Some(c.completedDate.value) else None))
    else None
  }

  /** A completion date is never shown for a course without a start date. */
  lemma CompletedOnlyWithStarted(c: CourseProgress)
    requires !Present(c.startedDate)
    ensures Dates(c) == None
  {
  }

  datatype CourseRow = CourseRow(title: string, platform: string, badge: CourseBadge, progress: int,
                                 skills: seq<string>, dates: Option<DatesLine>)

  datatype TrackerView =
    | EmptyState(message: string, hint: string)
    | CourseList(rows: seq<CourseRow>)

  function RenderRow(c: CourseProgress): CourseRow {
    CourseRow(c.courseTitle, c.platform, Badge(c.status), c.progress, c.skillsImproved, Dates(c))
  }

  function RenderRows(cs: seq<CourseProgress>): (rs: seq<CourseRow>)
    ensures |rs| == |cs|
    ensures forall i :: 0 <= i < |cs| ==> rs[i] == RenderRow(cs[i])
  {
    if cs == [] then [] else [RenderRow(cs[0])] + RenderRows(cs[1..])
  }

  function Render(courses: seq<CourseProgress>): (v: TrackerView)
    ensures v.EmptyState? <==> courses == []
    ensures v.EmptyState? ==> v == EmptyState("No courses in progress yet.", "Start learning to boost your readiness score!")
    ensures v.CourseList? ==> |v.rows| == |courses|
    ensures v.CourseList? ==> v.rows == RenderRows(courses)
    ensures v.CourseList? ==> forall i :: 0 <= i < |courses| ==> v.rows[i].badge == Badge(courses[i].status)
    ensures v.CourseList? ==> forall i :: 0 <= i < |courses| ==>
              && v.rows[i].title == courses[i].courseTitle && v.rows[i].platform == courses[i].platform
              && v.rows[i].progress == courses[i].progress && v.rows[i].skills == courses[i].skillsImproved
              && v.rows[i].dates == Dates(courses[i])
  {
    if |courses| == 0 then EmptyState("No courses in progress yet.", "Start learning to boost your readiness score!")
    else CourseList(RenderRows(courses))
  }
}
