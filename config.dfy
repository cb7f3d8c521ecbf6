/** The answer record the prompts produce and the external commands the CLI runs. */
module Config {

  /** `{ name, framework, language, pkgManager, git, want3d }`, compared as strings
      the way the source compares them. */
  datatype Answers = Answers(
    name: string,
    framework: string,
    language: string,
    pkgManager: string,
    git: bool,
    want3d: bool)
  {
    predicate IsTs() {
      language == "TypeScript"
    }
  }

  /** One `execa(program, args, { cwd })` call; `cwd` is the process's own directory when
      the call names none. */
  datatype Command = Command(program: string, args: seq<string>, cwd: string)

  /** The external commands that succeed when run: the outcome of every process run. */
  type Exec = iset<Command>
}
