/** CourseService (School.Domain): validates a course, given ready-made or as
    loose fields, and hands it to the course repository exactly once. The
    repository is modelled as a store whose `Add` appends the course and
    returns it. */
module CourseServices {
  import opened Common
  import opened Text

  /** The `Course` entity: every property has a public setter. */
  class Course {
    var courseId: int
    var name: string
    var workloadHours: int
    var isActive: bool

    /** `new Course { Name = name, WorkloadHours = hours, IsActive = active }`;
        CourseId keeps its default 0. */
    constructor (name: string, workloadHours: int, isActive: bool)
      ensures courseId == 0 && this.name == name
      ensures this.workloadHours == workloadHours && this.isActive == isActive
    {
      courseId := 0;
      this.name := name;
      this.workloadHours := workloadHours;
      this.isActive := isActive;
    }
  }

  /** The course repository, seen through the calls made to its `Add`. */
  class CourseStore {
    /** The courses passed to `Add`, oldest first. */
    var added: seq<Course>

    constructor ()
      ensures added == []
    {
      added := [];
    }

    /** `Add(course)`: records the course and returns it. A repository
        backed by a database writes the key it assigns into CourseId, so
        CourseId is left open; the other fields are kept. */
    method Add(course: Course) returns (r: Course)
      modifies this, course
      ensures added == old(added) + [course]
      ensures r == course
      ensures course.name == old(course.name) && course.workloadHours == old(course.workloadHours)
      ensures course.isActive == old(course.isActive)
    {
      added := added + [course];
      r := course;
    }
  }

  /** The checks both creation paths run, in order: a null or blank name
      throws ArgumentException, then a missing or non-positive workload throws
      ArgumentOutOfRangeException. The two paths report different parameter
      names. */
  function CourseInputError(name: Option<string>, workloadHours: Option<int>,
                            nameParam: string, hoursParam: string): (r: Option<Exception>)
    ensures r.None? <==> !IsNullOrWhiteSpace(name) && workloadHours.Some? && workloadHours.value > 0
    ensures r.Some? ==> r.value in {Argument(nameParam), ArgumentOutOfRange(hoursParam)}
  {
    if IsNullOrWhiteSpace(name) then Some(Argument(nameParam))
    else if workloadHours.None? || workloadHours.value <= 0 then Some(ArgumentOutOfRange(hoursParam))
    else None
  }

  /** The name check comes first: a bad name is reported whatever the
      workload. */
  lemma NameCheckedFirst(name: Option<string>, workloadHours: Option<int>, nameParam: string, hoursParam: string)
    requires IsNullOrWhiteSpace(name)
    ensures CourseInputError(name, workloadHours, nameParam, hoursParam) == Some(Argument(nameParam))
  {
  }

  /** A given course is checked on its own name and workload. */
  function GivenCourseError(name: string, workloadHours: int): Option<Exception> {
    CourseInputError(Some(name), Some(workloadHours), "Name", "WorkloadHours")
  }

  /** Loose fields are checked under the parameters' own names. */
  function NewCourseError(name: Option<string>, workloadHours: Option<int>): Option<Exception> {
    CourseInputError(name, workloadHours, "name", "workloadHours")
  }

  class CourseService {
    const repository: CourseStore

    constructor (repository: CourseStore)
      ensures this.repository == repository
    {
      this.repository := repository;
    }

    /** `new CourseService(courseRepository)`: null throws
        ArgumentNullException ("courseRepository"). */
    static method Create(repository: CourseStore?) returns (r: Result<CourseService>)
      ensures repository == null ==> r == Err(ArgumentNull("courseRepository"))
      ensures repository != null ==> r.Ok? && fresh(r.value) && r.value.repository == repository
    {
      if repository == null {
        return Err(ArgumentNull("courseRepository"));
      }
      var s := new CourseService(repository);
      return Ok(s);
    }

    /** `CreateCourse(name, workloadHours, isActive, course)`: a supplied
        course is validated and added as it is, and the loose fields are then
        ignored; otherwise a new course is built from the fields. Either way a
        failed check throws before the repository is called, and success means
        exactly one `Add`, whose result is returned. */
    method CreateCourse(name: Option<string>, workloadHours: Option<int>, isActive: bool, course: Course?)
      returns (r: Result<Course>)
      modifies repository, course
      ensures course != null ==> (course.name == old(course.name) &&
                course.workloadHours == old(course.workloadHours) && course.isActive == old(course.isActive))
      ensures course != null ==> (
                var e := GivenCourseError(old(course.name), old(course.workloadHours));
                (e.Some? ==> r == Err(e.value) && repository.added == old(repository.added)) &&
                (e.None? ==> r == Ok(course) && repository.added == old(repository.added) + [course]))
      ensures course == null ==> (
                var e := NewCourseError(name, workloadHours);
                (e.Some? ==> r == Err(e.value) && repository.added == old(repository.added)) &&
                (e.None? ==> (r.Ok? && fresh(r.value) &&
                   repository.added == old(repository.added) + [r.value] &&
                   Some(r.value.name) == name && Some(r.value.workloadHours) == workloadHours &&
                   r.value.isActive == isActive)))
    {
      if course != null {
        r := ValidateAndAddCourse(course);
      } else {
        r := CreateAndAddCourse(name, workloadHours, isActive);
      }
    }

    /** `ValidateAndAddCourse(course)`: a blank Name throws ArgumentException
        ("Name"), then WorkloadHours <= 0 throws ArgumentOutOfRangeException
        ("WorkloadHours"); otherwise the course is added unchanged. */
    method ValidateAndAddCourse(course: Course) returns (r: Result<Course>)
      modifies repository, course
      ensures course.name == old(course.name) && course.workloadHours == old(course.workloadHours)
      ensures course.isActive == old(course.isActive)
      ensures IsBlank(course.name) ==> r == Err(Argument("Name"))
      ensures !IsBlank(course.name) && course.workloadHours <= 0 ==> r == Err(ArgumentOutOfRange("WorkloadHours"))
      ensures r.Err? <==> GivenCourseError(course.name, course.workloadHours).Some?
      ensures r.Err? ==> repository.added == old(repository.added) && course.courseId == old(course.courseId)
      ensures r.Ok? ==> r.value == course && repository.added == old(repository.added) + [course]
    {
      if IsNullOrWhiteSpace(Some(course.name)) {
        return Err(Argument("Name"));
      }
      if course.workloadHours <= 0 {
        return Err(ArgumentOutOfRange("WorkloadHours"));
      }
      var added := repository.Add(course);
      return Ok(added);
    }

    /** `CreateAndAddCourse(name, workloadHours, isActive)`: a null or blank
        name throws ArgumentException ("name"), then a missing or non-positive
        workload throws ArgumentOutOfRangeException ("workloadHours");
        otherwise a new course with these fields is added. */
    method CreateAndAddCourse(name: Option<string>, workloadHours: Option<int>, isActive: bool)
      returns (r: Result<Course>)
      modifies repository
      ensures IsNullOrWhiteSpace(name) ==> r == Err(Argument("name"))
      ensures !IsNullOrWhiteSpace(name) && (workloadHours.None? || workloadHours.value <= 0) ==>
                r == Err(ArgumentOutOfRange("workloadHours"))
      ensures r.Err? <==> NewCourseError(name, workloadHours).Some?
      ensures r.Err? ==> repository.added == old(repository.added)
      ensures r.Ok? ==> (fresh(r.value) && repository.added == old(repository.added) + [r.value] &&
                Some(r.value.name) == name && Some(r.value.workloadHours) == workloadHours &&
                r.value.isActive == isActive)
    {
      if IsNullOrWhiteSpace(name) {
        return Err(Argument("name"));
      }
      if workloadHours.None? || workloadHours.value <= 0 {
        return Err(ArgumentOutOfRange("workloadHours"));
      }
      var c := new Course(name.value, workloadHours.value, isActive);
      var added := repository.Add(c);
      return Ok(added);
    }
  }

  /** Every course the service hands to the repository passed the checks:
      its name has content and its workload is positive. */
  ghost predicate AllAccepted(added: seq<Course>)
    reads added
  {
    forall c :: c in added ==> !IsBlank(c.name) && c.workloadHours > 0
  }

  /** Creating a course keeps the repository holding only accepted courses,
      as long as nobody edits them afterwards. */
  method CreateKeepsAccepted(service: CourseService, name: Option<string>, workloadHours: Option<int>,
                             isActive: bool, course: Course?) returns (r: Result<Course>)
    requires AllAccepted(service.repository.added)
    modifies service.repository, course
    ensures AllAccepted(service.repository.added)
    ensures r.Ok? ==> !IsBlank(r.value.name) && r.value.workloadHours > 0
  {
    r := service.CreateCourse(name, workloadHours, isActive, course);
  }
}
