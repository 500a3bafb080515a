/** The course cards: colour classes looked up with a blue fallback, the
    status badge, the action button and whether the progress bar shows. */
module Courses {

  datatype Course = Course(
    id: int, title: string, description: string, duration: string, modules: int,
    progress: int, status: string, color: string, locked: bool)

  // ---------------------------------------------------------------------------
  // Colours

  datatype ColorClasses = ColorClasses(bg: string, text: string, border: string)

  const ColorTable: map<string, ColorClasses> := map[
    "blue" := ColorClasses("bg-blue-100", "text-blue-600", "border-blue-200"),
    "green" := ColorClasses("bg-green-100", "text-green-600", "border-green-200"),
    "purple" := ColorClasses("bg-purple-100", "text-purple-600", "border-purple-200"),
    "orange" := ColorClasses("bg-orange-100", "text-orange-600", "border-orange-200"),
    "yellow" := ColorClasses("bg-yellow-100", "text-yellow-600", "border-yellow-200"),
    "pink" := ColorClasses("bg-pink-100", "text-pink-600", "border-pink-200")
  ]

  const KnownColors: set<string> := {"blue", "green", "purple", "orange", "yellow", "pink"}

  lemma {:induction false} TableKeys()
    ensures ColorTable.Keys == KnownColors
  {
  }

  /** The table's entry for one of the six colours, the blue entry for any other string. */
  function ColorClassesFor(color: string): (r: ColorClasses)
    ensures color in KnownColors ==> color in ColorTable && r == ColorTable[color]
    ensures color !in KnownColors ==> r == ColorTable["blue"]
  {
    TableKeys();
    if color in ColorTable then ColorTable[color] else ColorTable["blue"]
  }

  // ---------------------------------------------------------------------------
  // Status badge

  datatype BadgeVariant = DefaultBadge(className: string) | SecondaryBadge | OutlineBadge
  datatype BadgeIcon = CheckIcon | LockIcon | NoIcon
  datatype Badge = Badge(caption: string, variant: BadgeVariant, icon: BadgeIcon)

  const KnownStatuses: set<string> := {"Completed", "In Progress", "Locked", "Not Started"}

  /** The badge for a status. Its caption is the status itself for the four
      statuses a course can have, and "Not Started" for anything else. */
  function StatusBadge(status: string): (b: Badge)
    ensures b.caption == if status in KnownStatuses then status else "Not Started"
    ensures b.icon == CheckIcon <==> status == "Completed"
    ensures b.icon == LockIcon <==> status == "Locked"
  {
    if status == "Completed" then Badge("Completed", DefaultBadge("bg-green-500 hover:bg-green-600"), CheckIcon)
    else if status == "In Progress" then Badge("In Progress", DefaultBadge("bg-blue-500 hover:bg-blue-600"), NoIcon)
    else if status == "Locked" then Badge("Locked", SecondaryBadge, LockIcon)
    else Badge("Not Started", OutlineBadge, NoIcon)
  }

  // ---------------------------------------------------------------------------
  // Action button and progress bar

  const UnlockMessage := "Complete previous courses to unlock"

  datatype ButtonVariant = DefaultButton | SecondaryButton
  datatype ButtonIcon = LockGlyph | PlayGlyph | CheckGlyph
  datatype CourseButton = CourseButton(caption: string, disabled: bool, variant: ButtonVariant, icon: ButtonIcon)

  /** The card's button: a disabled unlock prompt for a locked course,
      otherwise start, review or continue by progress. */
  function ActionButton(c: Course): (b: CourseButton)
    ensures b.disabled <==> c.locked
    ensures b.caption == UnlockMessage <==> c.locked
    ensures b.variant == SecondaryButton <==> c.locked
    ensures !c.locked ==> b.caption == (if c.progress == 0 then "Start Course"
                                        else if c.progress == 100 then "Review Course"
                                        else "Continue Learning")
    ensures !c.locked ==> (b.icon == CheckGlyph <==> c.progress == 100)
  {
    if c.locked then CourseButton(UnlockMessage, true, SecondaryButton, LockGlyph)
    else if c.progress == 0 then CourseButton("Start Course", false, DefaultButton, PlayGlyph)
    else if c.progress == 100 then CourseButton("Review Course", false, DefaultButton, CheckGlyph)
    else CourseButton("Continue Learning", false, DefaultButton, PlayGlyph)
  }

  /** A locked course's button does not depend on its progress. */
  lemma LockedButtonIgnoresProgress(c: Course, progress: int)
    requires c.locked
    ensures ActionButton(c.(progress := progress)) == ActionButton(c)
  {
  }

  /** An unlocked course's button depends on its progress alone. */
  lemma UnlockedButtonByProgress(c: Course, c': Course)
    requires !c.locked && !c'.locked && c.progress == c'.progress
    ensures ActionButton(c) == ActionButton(c')
  {
  }

  /** The progress bar is rendered for a course that is not locked. */
  predicate ShowsProgressBar(c: Course)
  {
    !c.locked
  }

  /** The progress bar shows exactly when the button is enabled. */
  lemma ProgressBarIffEnabled(c: Course)
    ensures ShowsProgressBar(c) <==> !ActionButton(c).disabled
  {
  }

  // ---------------------------------------------------------------------------
  // The course list

  const CourseList: seq<Course> := [
    Course(1, "Leadership Foundations", "Develop core leadership skills essential for fellowship success",
           "2 hours", 8, 75, "In Progress", "blue", false),
    Course(2, "Systems Thinking Essentials", "Learn to analyze complex problems and design innovative solutions",
           "1.5 hours", 6, 100, "Completed", "green", false),
    Course(3, "Global Citizenship", "Understand global challenges and your role in creating change",
           "2.5 hours", 10, 30, "In Progress", "purple", false),
    Course(4, "Effective Communication", "Master the art of clear, persuasive communication in writing and speech",
           "2 hours", 7, 0, "Not Started", "orange", false),
    Course(5, "Innovation & Entrepreneurship", "Develop an entrepreneurial mindset and learn to drive innovation",
           "3 hours", 12, 0, "Locked", "yellow", true),
    Course(6, "Cultural Intelligence", "Navigate diverse cultural contexts with sensitivity and awareness",
           "1.5 hours", 5, 0, "Locked", "pink", true)
  ]

  /** The button a course's status calls for. */
  function ExpectedCaption(status: string): string
  {
    if status == "Locked" then UnlockMessage
    else if status == "Not Started" then "Start Course"
    else if status == "Completed" then "Review Course"
    else "Continue Learning"
  }

  /** In the course list, each card's badge and button tell the same story:
      every colour is in the table, a course is locked exactly when its status
      says so, and the button's caption matches the status. */
  lemma CourseListConsistent()
    ensures forall c :: c in CourseList ==>
      c.color in KnownColors && (c.locked <==> c.status == "Locked") &&
      ActionButton(c).caption == ExpectedCaption(c.status)
  {
  }
}
