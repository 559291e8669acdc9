/** The closed lookup from a solver name to the solver variant it selects. */
module SolverDispatch {
  import opened Outcomes

  /** The six solver variants a loss object can be configured with. */
  datatype SolverKind = Epd | Ipndm | Dpm | Heun | NoiseEnsemble | EpdParallel

  /** The configuration string that selects each variant. */
  function Name(k: SolverKind): string {
    match k
    case Epd => "epd"
    case Ipndm => "ipndm"
    case Dpm => "dpm"
    case Heun => "heun"
    case NoiseEnsemble => "noise_ensemble"
    case EpdParallel => "epd_parallel"
  }

  const KnownNames: set<string> :=
    {"epd", "ipndm", "dpm", "heun", "noise_ensemble", "epd_parallel"}

  /** Resolves a solver name; every name outside the six known ones is a ValueError. */
  function GetSolverFn(name: string): (r: Result<SolverKind>)
    ensures r.Ok? <==> name in KnownNames
    ensures r.Ok? ==> Name(r.value) == name
    ensures r.Err? ==> r.error == WrongSolverName(name)
  {
    if name == "epd" then Ok(Epd)
    else if name == "ipndm" then Ok(Ipndm)
    else if name == "dpm" then Ok(Dpm)
    else if name == "heun" then Ok(Heun)
    else if name == "noise_ensemble" then Ok(NoiseEnsemble)
    else if name == "epd_parallel" then Ok(EpdParallel)
    else Err(WrongSolverName(name))
  }

  /** Looking a variant up by its own name gives that variant back, so the names are distinct. */
  lemma NameRoundTrip(k: SolverKind)
    ensures Name(k) in KnownNames
    ensures GetSolverFn(Name(k)) == Ok(k)
  {
  }

  /**
   * The two eager lookups of the loss constructor: the student solver first, then the
   * teacher solver, so an unknown student name is the one reported when both are unknown.
   */
  function ResolveSolvers(student: string, teacher: string): (r: Result<(SolverKind, SolverKind)>)
    ensures r.Ok? <==> student in KnownNames && teacher in KnownNames
    ensures r.Ok? ==> Name(r.value.0) == student && Name(r.value.1) == teacher
    ensures student !in KnownNames ==> r == Err(WrongSolverName(student))
    ensures student in KnownNames && teacher !in KnownNames ==> r == Err(WrongSolverName(teacher))
  {
    match GetSolverFn(student)
    case Err(e) => Err(e)
    case Ok(s) =>
      match GetSolverFn(teacher)
      case Err(e) => Err(e)
      case Ok(t) => Ok((s, t))
  }
}
