/** `LifecycleMode` of src/mode.rs: the process-wide mode a buildpack runs in,
    parsed from a string. */
module Mode {

  datatype LifecycleMode = Dev | CI | Test | Package

  /** `LifecycleMode::from`: exact, case-sensitive names for the three named
      modes; every other string, "CI" included, falls back to `CI`. */
  function FromString(s: string): (m: LifecycleMode)
    ensures m == Dev <==> s == "Dev"
    ensures m == Test <==> s == "Test"
    ensures m == Package <==> s == "Package"
    ensures m == CI <==> s !in {"Dev", "Test", "Package"}
  {
    match s
    case "Dev" => Dev
    case "Test" => Test
    case "Package" => Package
    case _ => CI
  }

  /** The canonical spelling of each mode. */
  function Name(m: LifecycleMode): string {
    match m
    case Dev => "Dev"
    case CI => "CI"
    case Test => "Test"
    case Package => "Package"
  }

  /** Parsing the canonical spelling gives the mode back: the parser loses no mode. */
  lemma FromNameRoundTrip(m: LifecycleMode)
    ensures FromString(Name(m)) == m
  {
  }

  /** Matching is case-sensitive: the lower-case spellings are not recognised. */
  lemma LowerCaseFallsBackToCI()
    ensures FromString("dev") == CI
    ensures FromString("test") == CI
    ensures FromString("package") == CI
    ensures FromString("ci") == CI
    ensures FromString("") == CI
  {
  }
}
