/**
 * The courses catalogue (src/pages/Courses.tsx): category filter, level colours, the
 * progress bar of enrolled courses and the course detail view.
 */
module Courses {
  import opened Common

  /**
   * A course. `progress` and `isEnrolled` are optional in the page; an absent enrolment
   * flag reads as false. The decimal rating is left out.
   */
  datatype Course = Course(id: string, title: string, level: string, duration: int, lessons: int,
                           enrolled: int, progress: Option<int>, category: string, instructor: string,
                           isEnrolled: bool)

  const Catalogue: seq<Course> := [
    Course("intro-basics", "أساسيات الشطرنج للمبتدئين", "مبتدئ", 120, 8, 1234, Some(75), "مقدمة", "أستاذ محمد أحمد", true),
    Course("openings-guide", "دليل الافتتاحيات الكلاسيكية", "متوسط", 180, 12, 856, Some(30), "افتتاحيات", "أستاذة سارة محمود", true),
    Course("tactics-mastery", "إتقان التكتيكات المتقدمة", "متقدم", 240, 15, 642, None, "تكتيكات", "أستاذ أحمد علي", false),
    Course("endgame-theory", "نظريات النهايات الأساسية", "متوسط", 160, 10, 723, None, "النهايات", "أستاذ خالد حسن", false)
  ]

  /** The category buttons, "all" first. */
  const Categories: seq<string> := ["all", "مقدمة", "افتتاحيات", "تكتيكات", "إستراتيجيا", "النهايات"]

  // ---------------------------------------------------------------------------
  // filteredCourses (lines 129-131)
  // ---------------------------------------------------------------------------

  /** "all" shows the whole list; any other category shows exactly its courses, in order. */
  function FilteredCourses(courses: seq<Course>, category: string): (r: seq<Course>)
    ensures category == "all" ==> r == courses
    ensures category != "all" ==> forall c :: c in r <==> c in courses && c.category == category
    ensures category != "all" ==> forall c: Course :: c.category == category ==> multiset(r)[c] == multiset(courses)[c]
  {
    var keep := (c: Course) => c.category == category;
    FilterCounts(courses, keep);
    if category == "all" then courses else Filter(courses, keep)
  }

  /** Choosing the same category again shows the same list. */
  lemma FilterByCategoryIdempotent(courses: seq<Course>, category: string)
    ensures FilteredCourses(FilteredCourses(courses, category), category) == FilteredCourses(courses, category)
  {
    if category != "all" {
      FilterIdempotent(courses, (c: Course) => c.category == category);
    }
  }

  /** The filtered list keeps catalogue order: it distributes over a split of the list. */
  lemma FilterByCategoryKeepsOrder(front: seq<Course>, back: seq<Course>, category: string)
    requires category != "all"
    ensures FilteredCourses(front + back, category) == FilteredCourses(front, category) + FilteredCourses(back, category)
  {
    FilterAppend(front, back, (c: Course) => c.category == category);
  }

  /** The strategy category has a button but no course in the catalogue. */
  lemma StrategyCategoryEmpty()
    ensures "إستراتيجيا" in Categories
    ensures FilteredCourses(Catalogue, "إستراتيجيا") == []
  {
  }

  // ---------------------------------------------------------------------------
  // getLevelColor (lines 149-156)
  // ---------------------------------------------------------------------------

  function LevelColor(level: string): (cls: string)
    ensures level == "مبتدئ" ==> cls == "text-green-600 bg-green-100"
    ensures level == "متوسط" ==> cls == "text-yellow-600 bg-yellow-100"
    ensures level == "متقدم" ==> cls == "text-red-600 bg-red-100"
    ensures level !in {"مبتدئ", "متوسط", "متقدم"} ==> cls == "text-gray-600 bg-gray-100"
  {
    if level == "مبتدئ" then "text-green-600 bg-green-100"
    else if level == "متوسط" then "text-yellow-600 bg-yellow-100"
    else if level == "متقدم" then "text-red-600 bg-red-100"
    else "text-gray-600 bg-gray-100"
  }

  /** The three levels get three colours, none of them the gray of an unknown level. */
  lemma LevelColorsDistinct(level: string)
    requires level in {"مبتدئ", "متوسط", "متقدم"}
    ensures LevelColor(level) != LevelColor("")
    ensures forall other :: other in {"مبتدئ", "متوسط", "متقدم"} && other != level ==> LevelColor(other) != LevelColor(level)
  {
  }

  // ---------------------------------------------------------------------------
  // The progress cell (lines 242-250 and 424-432)
  // ---------------------------------------------------------------------------

  /** What `{course.isEnrolled && course.progress && <bar/>}` renders. */
  datatype ProgressView = Hidden | StrayZero | Bar(percent: int)

  /** The evident intent: a bar for an enrolled course with defined, non-zero progress. */
  predicate ShowsProgress(c: Course) {
    c.isEnrolled && c.progress.Some? && c.progress.value != 0
  }

  /**
   * As written: when the course is enrolled and its progress is 0, the guard evaluates to
   * the number 0, which React renders as the text "0".
   */
  function ProgressCellAsWritten(c: Course): (cell: ProgressView)
    ensures cell == StrayZero <==> c.isEnrolled && c.progress == Some(0)
    ensures cell.Bar? <==> ShowsProgress(c)
    ensures cell.Bar? ==> cell.percent == c.progress.value
  {
    if !c.isEnrolled || c.progress.None? then Hidden
    else if c.progress.value == 0 then StrayZero
    else Bar(c.progress.value)
  }

  /** A freshly enrolled course (progress 0) shows a stray "0" in place of the bar. */
  lemma FreshEnrolmentShowsZero()
    ensures ProgressCellAsWritten(Catalogue[2].(isEnrolled := true, progress := Some(0))) == StrayZero
  {
  }

  /** The intended cell: the bar when progress is shown, and nothing otherwise. */
  function ProgressCell(c: Course): (cell: ProgressView)
    ensures cell != StrayZero
    ensures cell.Bar? <==> ShowsProgress(c)
    ensures cell.Bar? ==> cell.percent == c.progress.value
    ensures ProgressCellAsWritten(c) != StrayZero ==> cell == ProgressCellAsWritten(c)
  {
    if ShowsProgress(c) then Bar(c.progress.value) else Hidden
  }

  /** In the catalogue exactly the two enrolled courses with progress show a bar. */
  lemma CatalogueProgress()
    ensures ProgressCell(Catalogue[0]) == Bar(75) && ProgressCell(Catalogue[1]) == Bar(30)
    ensures ProgressCell(Catalogue[2]) == Hidden && ProgressCell(Catalogue[3]) == Hidden
  {
  }

  // ---------------------------------------------------------------------------
  // The page's state
  // ---------------------------------------------------------------------------

  class CoursesPage {
    var selectedCourse: Option<Course>
    var selectedCategory: string

    constructor ()
      ensures selectedCourse.None? && selectedCategory == "all"
    {
      selectedCourse := None;
      selectedCategory := "all";
    }

    /** The course cards shown under the category buttons. */
    function VisibleCourses(): (r: seq<Course>)
      reads this
      ensures selectedCategory == "all" ==> r == Catalogue
      ensures forall c :: c in r ==> c in Catalogue
    {
      FilteredCourses(Catalogue, selectedCategory)
    }

    method SelectCategory(category: string)
      modifies this`selectedCategory
      ensures selectedCategory == category && selectedCourse == old(selectedCourse)
    {
      selectedCategory := category;
    }

    /** A course card opens the detail view. */
    method OpenCourse(c: Course)
      modifies this`selectedCourse
      ensures selectedCourse == Some(c) && selectedCategory == old(selectedCategory)
    {
      selectedCourse := Some(c);
    }

    /** The back button returns to the catalogue with the category kept. */
    method CloseCourse()
      modifies this`selectedCourse
      ensures selectedCourse.None? && selectedCategory == old(selectedCategory)
    {
      selectedCourse := None;
    }

    /** `enrollInCourse`: only a notice; no state of the page changes. */
    method EnrollInCourse(courseId: string)
      ensures selectedCourse == old(selectedCourse) && selectedCategory == old(selectedCategory)
    {
    }

    /** `startLesson`: only a notice; no state of the page changes. */
    method StartLesson(lessonId: string)
      ensures selectedCourse == old(selectedCourse) && selectedCategory == old(selectedCategory)
    {
    }
  }
}
