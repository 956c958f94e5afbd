/** The types shared by every scenario (pkg/scenario/scenario.go): its
    metadata, the outcome of a validation, and the shape of a value fetched
    from the cluster API. */
module ScenarioTypes {

  datatype Difficulty = Easy | Medium | Hard

  /** Descriptive information about a scenario; `timeLimitMinutes` is 0 when
      the scenario has no limit. */
  datatype Metadata = Metadata(
    id: string,
    name: string,
    description: string,
    difficulty: Difficulty,
    category: string,
    hints: seq<string>,
    timeLimitMinutes: nat)

  /** The outcome of a validation check. */
  datatype Result = Result(solved: bool, message: string)

  /** What a single cluster API call returned: an error with its text, or the
      object (reduced to the fields the caller reads). */
  datatype Fetch<T> = FetchErr(err: string) | Fetched(obj: T)

  /** Kubernetes' int-or-string value: one of the two alternatives is set and
      the other field reads as its zero value. */
  datatype IntOrString = IntVal(i: int) | StrVal(s: string)

  /** The `IntVal` field as Go reads it: 0 when the string alternative is set. */
  function IntValField(x: IntOrString): (r: int)
    ensures x.StrVal? ==> r == 0
    ensures x.IntVal? ==> r == x.i
  {
    match x
    case IntVal(i) => i
    case StrVal(_) => 0
  }

  /** The `StrVal` field as Go reads it: "" when the integer alternative is set. */
  function StrValField(x: IntOrString): (r: string)
    ensures x.IntVal? ==> r == ""
    ensures x.StrVal? ==> r == x.s
  {
    match x
    case IntVal(_) => ""
    case StrVal(s) => s
  }

  /** Port 80 given either as the integer 80 or as the string "80", the test
      several validators apply to a target port. */
  predicate IsPort80(x: IntOrString)
  {
    IntValField(x) == 80 || StrValField(x) == "80"
  }

  /** The phase string Kubernetes reports for a running pod. */
  const PodRunning := "Running"
}
