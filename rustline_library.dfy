/** Shared libraries of reusable steps in the `src/` code. */
module RustlineLibrary {
  import opened Wrappers
  import opened RustlineSteps

  datatype LibraryStep = LibraryStep(name: string, description: string, parameters: seq<string>, stepType: StepType)

  /** `LibraryStep::new`: the step's kind is copied and there are no parameters. */
  function NewLibraryStep(name: string, description: string, step: Step): (l: LibraryStep)
    ensures l.name == name && l.description == description
    ensures l.parameters == [] && l.stepType == step.stepType
  {
    LibraryStep(name, description, [], step.stepType)
  }

  /** `LibraryStep::with_parameters`: the parameter list is replaced. */
  function WithParameters(l: LibraryStep, params: seq<string>): (r: LibraryStep)
    ensures r.parameters == params && r.(parameters := l.parameters) == l
  {
    l.(parameters := params)
  }

  datatype SharedLibrary = SharedLibrary(name: string, version: string, steps: map<string, LibraryStep>)

  datatype SharedLibraryError =
    | NotYetImplemented(message: string)
    | StepNotFound(step: string, library: string)
    | CratesLoadError(message: string)
    | GitLoadError(message: string)

  /** The version a new library starts with. */
  const InitialVersion: string := "0.1.0"

  /** Every step is keyed by its own name. */
  predicate LibraryValid(lib: SharedLibrary) {
    forall k :: k in lib.steps ==> lib.steps[k].name == k
  }

  /** `SharedLibrary::new`: version "0.1.0", no steps. */
  function NewLibrary(name: string): (lib: SharedLibrary)
    ensures lib.name == name && lib.version == InitialVersion && lib.steps == map[]
    ensures LibraryValid(lib)
  {
    SharedLibrary(name, InitialVersion, map[])
  }

  /** `with_version`: only the version changes. */
  function WithVersion(lib: SharedLibrary, version: string): (r: SharedLibrary)
    ensures r.version == version && r.(version := lib.version) == lib
  {
    lib.(version := version)
  }

  /** `from_crates`: not implemented, always an error. */
  function FromCrates(name: string): (r: Result<SharedLibrary, SharedLibraryError>)
    ensures r.Err? && r.error.NotYetImplemented?
  {
    Err(NotYetImplemented("Loading from crates not yet implemented"))
  }

  /** `from_git`: not implemented, always an error. */
  function FromGit(url: string, version: string): (r: Result<SharedLibrary, SharedLibraryError>)
    ensures r.Err? && r.error.NotYetImplemented?
  {
    Err(NotYetImplemented("Loading from Git not yet implemented"))
  }

  /** `register_step`: keyed by the step's name, replacing a step of the same name. */
  function RegisterStep(lib: SharedLibrary, step: LibraryStep): (r: SharedLibrary)
    ensures LibraryValid(lib) ==> LibraryValid(r)
    ensures r.name == lib.name && r.version == lib.version
    ensures r.steps.Keys == lib.steps.Keys + {step.name}
  {
    lib.(steps := lib.steps[step.name := step])
  }

  /** `get_step`. */
  function GetStep(lib: SharedLibrary, name: string): (r: Option<LibraryStep>)
    ensures r.Some? <==> name in lib.steps
    ensures LibraryValid(lib) && r.Some? ==> r.value.name == name
  {
    if name in lib.steps then Some(lib.steps[name]) else None
  }

  /** After registration, `get_step` finds the step by its name and every other name is unaffected. */
  lemma GetAfterRegister(lib: SharedLibrary, step: LibraryStep, other: string)
    ensures GetStep(RegisterStep(lib, step), step.name) == Some(step)
    ensures other != step.name ==> GetStep(RegisterStep(lib, step), other) == GetStep(lib, other)
  {
  }

  /** A fresh library holds no step. */
  lemma NewLibraryEmpty(name: string, step: string)
    ensures GetStep(NewLibrary(name), step).None?
  {
  }
}
