/** The reader's configuration record and the operating-system services it calls. */
module Configuration {

  /** The settings of `gccxml_configuration_t` that the reader consults. */
  datatype Config = Config(
    caster: string,
    gccxmlPath: string,
    workingDirectory: string,
    includePaths: seq<string>,
    defineSymbols: seq<string>,
    undefineSymbols: seq<string>,
    startWithDeclarations: seq<string>,
    cflags: string,
    compiler: string,              // "" stands for an unset compiler
    ignoreGccxmlOutput: bool)

  /**
   * `os.name`, `os.path.sep` and the path functions of `os.path`, taken as given:
   * the model relies on nothing about them beyond their being functions.
   */
  datatype Env = Env(
    osName: string,
    sep: string,
    isAbs: string -> bool,
    join: (string, string) -> string,
    realpath: string -> string,
    normpath: string -> string)
}

/** `__create_command_line`, its two caster-specific builders and `__add_symbols`. */
module CommandLine {
  import opened Wrappers
  import opened Strings
  import opened Configuration

  /** The executable, quoted on Windows. */
  function Executable(osName: string, normpath: string -> string, path: string): string
  {
    if osName == "nt" then "\"" + normpath(path) + "\"" else normpath(path)
  }

  /** The cflags option, present only when cflags is not the empty string. */
  function CflagsParts(cflags: string): seq<string>
  {
    if cflags != "" then [" " + cflags + " "] else []
  }

  /** The `-D` group and then the `-U` group, each only when its list is non-empty. */
  function SymbolParts(defines: seq<string>, undefines: seq<string>): seq<string>
  {
    (if |defines| != 0 then [Concat(" -D\"", "\"", defines)] else [])
    + (if |undefines| != 0 then [Concat(" -U\"", "\"", undefines)] else [])
  }

  /** The start-with option, present only when the list of declarations is non-empty. */
  function StartParts(option: string, start: seq<string>): seq<string>
  {
    if |start| != 0 then [option + Join(",", start) + "\""] else []
  }

  /** The platform option castxml gets everywhere but on Windows. */
  function GnuParts(osName: string): seq<string>
  {
    if osName != "nt" then ["--castxml-cc-gnu /usr/bin/c++"] else []
  }

  /** The compiler option gccxml gets when a compiler is configured. */
  function CompilerParts(compiler: string): seq<string>
  {
    if compiler != "" then [" --gccxml-compiler " + compiler] else []
  }

  /** The parts of a castxml command line, in the order they are emitted. */
  function CastxmlParts(cfg: Config, dirs: seq<string>, env: Env, file: string, xmlfile: string): seq<string>
  {
    [Executable(env.osName, env.normpath, cfg.gccxmlPath)]
    + CflagsParts(cfg.cflags)
    + [Concat(" -I", "", dirs), "-c"]
    + GnuParts(env.osName)
    + ["--castxml-gccxml"]
    + SymbolParts(cfg.defineSymbols, cfg.undefineSymbols)
    + ["-o " + xmlfile, file]
    + StartParts("--castxml-start=\"", cfg.startWithDeclarations)
  }

  /** The parts of a gccxml command line, in the order they are emitted. */
  function GccxmlParts(cfg: Config, dirs: seq<string>, env: Env, file: string, xmlfile: string): seq<string>
  {
    [Executable(env.osName, env.normpath, cfg.gccxmlPath)]
    + CflagsParts(cfg.cflags)
    + [Concat(" -I\"", "\"", dirs)]
    + SymbolParts(cfg.defineSymbols, cfg.undefineSymbols)
    + ["\"" + file + "\"", "-fxml=\"" + xmlfile + "\""]
    + StartParts("-fxml-start=\"", cfg.startWithDeclarations)
    + CompilerParts(cfg.compiler)
  }

  /** The command line for the configured caster; none for an unknown caster. */
  function CommandLineFor(cfg: Config, dirs: seq<string>, env: Env, file: string, xmlfile: string): Option<string>
  {
    if cfg.caster == "gccxml" then Some(Join(" ", GccxmlParts(cfg, dirs, env, file, xmlfile)))
    else if cfg.caster == "castxml" then Some(Join(" ", CastxmlParts(cfg, dirs, env, file, xmlfile)))
    else None
  }

  /** `__add_symbols(cmd)`: appends the define group, then the undefine group. */
  method AddSymbols(cmd: seq<string>, defines: seq<string>, undefines: seq<string>) returns (r: seq<string>)
    ensures r == cmd + SymbolParts(defines, undefines)
  {
    r := cmd;
    if |defines| != 0 {
      r := r + [Concat(" -D\"", "\"", defines)];
    }
    if |undefines| != 0 {
      r := r + [Concat(" -U\"", "\"", undefines)];
    }
  }

  /** `__create_command_line_castxml(file, xmlfile)`: the parts joined by single spaces. */
  method CreateCommandLineCastxml(cfg: Config, dirs: seq<string>, env: Env, file: string, xmlfile: string)
    returns (cmdLine: string)
    ensures cmdLine == Join(" ", CastxmlParts(cfg, dirs, env, file, xmlfile))
  {
    var cmd: seq<string> := [];
    if env.osName == "nt" {
      cmd := cmd + ["\"" + env.normpath(cfg.gccxmlPath) + "\""];
    } else {
      cmd := cmd + [env.normpath(cfg.gccxmlPath)];
    }
    if cfg.cflags != "" {
      cmd := cmd + [" " + cfg.cflags + " "];
    }
    assert cmd == [Executable(env.osName, env.normpath, cfg.gccxmlPath)] + CflagsParts(cfg.cflags);
    cmd := cmd + [Concat(" -I", "", dirs)];
    cmd := cmd + ["-c"];
    if env.osName != "nt" {
      cmd := cmd + ["--castxml-cc-gnu /usr/bin/c++"];
    }
    cmd := cmd + ["--castxml-gccxml"];
    ghost var fixed := cmd;
    assert fixed == [Executable(env.osName, env.normpath, cfg.gccxmlPath)] + CflagsParts(cfg.cflags)
                    + [Concat(" -I", "", dirs), "-c"] + GnuParts(env.osName) + ["--castxml-gccxml"];
    cmd := AddSymbols(cmd, cfg.defineSymbols, cfg.undefineSymbols);
    cmd := cmd + ["-o " + xmlfile];
    cmd := cmd + [file];
    ghost var body := cmd;
    assert body == fixed + SymbolParts(cfg.defineSymbols, cfg.undefineSymbols) + ["-o " + xmlfile, file];
    if |cfg.startWithDeclarations| != 0 {
      cmd := cmd + ["--castxml-start=\"" + Join(",", cfg.startWithDeclarations) + "\""];
    }
    assert cmd == body + StartParts("--castxml-start=\"", cfg.startWithDeclarations);
    cmdLine := Join(" ", cmd);
  }

  /** `__create_command_line_gccxml(file, xmlfile)`: the parts joined by single spaces. */
  method CreateCommandLineGccxml(cfg: Config, dirs: seq<string>, env: Env, file: string, xmlfile: string)
    returns (cmdLine: string)
    ensures cmdLine == Join(" ", GccxmlParts(cfg, dirs, env, file, xmlfile))
  {
    var cmd: seq<string> := [];
    if env.osName == "nt" {
      cmd := cmd + ["\"" + env.normpath(cfg.gccxmlPath) + "\""];
    } else {
      cmd := cmd + [env.normpath(cfg.gccxmlPath)];
    }
    if cfg.cflags != "" {
      cmd := cmd + [" " + cfg.cflags + " "];
    }
    assert cmd == [Executable(env.osName, env.normpath, cfg.gccxmlPath)] + CflagsParts(cfg.cflags);
    cmd := cmd + [Concat(" -I\"", "\"", dirs)];
    ghost var fixed := cmd;
    cmd := AddSymbols(cmd, cfg.defineSymbols, cfg.undefineSymbols);
    cmd := cmd + ["\"" + file + "\""];
    cmd := cmd + ["-fxml=\"" + xmlfile + "\""];
    ghost var body := cmd;
    assert body == fixed + SymbolParts(cfg.defineSymbols, cfg.undefineSymbols)
                   + ["\"" + file + "\"", "-fxml=\"" + xmlfile + "\""];
    if |cfg.startWithDeclarations| != 0 {
      cmd := cmd + ["-fxml-start=\"" + Join(",", cfg.startWithDeclarations) + "\""];
    }
    ghost var started := cmd;
    assert started == body + StartParts("-fxml-start=\"", cfg.startWithDeclarations);
    if cfg.compiler != "" {
      cmd := cmd + [" --gccxml-compiler " + cfg.compiler];
    }
    assert cmd == started + CompilerParts(cfg.compiler);
    cmdLine := Join(" ", cmd);
  }

  /** `__create_command_line`: dispatch on the caster; any other caster yields no command line. */
  method CreateCommandLine(cfg: Config, dirs: seq<string>, env: Env, file: string, xmlfile: string)
    returns (cmdLine: Option<string>)
    ensures cfg.caster == "gccxml" ==> cmdLine == Some(Join(" ", GccxmlParts(cfg, dirs, env, file, xmlfile)))
    ensures cfg.caster == "castxml" ==> cmdLine == Some(Join(" ", CastxmlParts(cfg, dirs, env, file, xmlfile)))
    ensures cmdLine.None? <==> cfg.caster != "gccxml" && cfg.caster != "castxml"
    ensures cmdLine == CommandLineFor(cfg, dirs, env, file, xmlfile)
  {
    if cfg.caster == "gccxml" {
      var c := CreateCommandLineGccxml(cfg, dirs, env, file, xmlfile);
      cmdLine := Some(c);
    } else if cfg.caster == "castxml" {
      var c := CreateCommandLineCastxml(cfg, dirs, env, file, xmlfile);
      cmdLine := Some(c);
    } else {
      cmdLine := None;
    }
  }

  /** Every define precedes every undefine, and each group is emitted only when non-empty. */
  lemma SymbolPartsOrder(defines: seq<string>, undefines: seq<string>)
    ensures |SymbolParts(defines, undefines)|
         == (if |defines| != 0 then 1 else 0) + (if |undefines| != 0 then 1 else 0)
    ensures |defines| != 0 ==> SymbolParts(defines, undefines)[0] == Concat(" -D\"", "\"", defines)
    ensures |undefines| != 0 ==>
              SymbolParts(defines, undefines)[|SymbolParts(defines, undefines)| - 1]
              == Concat(" -U\"", "\"", undefines)
    ensures forall i :: 0 <= i < |defines| ==>
              Concat(" -D\"", "\"", defines)
              == Concat(" -D\"", "\"", defines[..i]) + " -D\"" + defines[i] + "\""
                 + Concat(" -D\"", "\"", defines[i + 1..])
    ensures forall i :: 0 <= i < |undefines| ==>
              Concat(" -U\"", "\"", undefines)
              == Concat(" -U\"", "\"", undefines[..i]) + " -U\"" + undefines[i] + "\""
                 + Concat(" -U\"", "\"", undefines[i + 1..])
  {
    forall i | 0 <= i < |defines|
      ensures Concat(" -D\"", "\"", defines)
           == Concat(" -D\"", "\"", defines[..i]) + " -D\"" + defines[i] + "\""
              + Concat(" -D\"", "\"", defines[i + 1..])
    {
      ConcatAt(" -D\"", "\"", defines, i);
    }
    forall i | 0 <= i < |undefines|
      ensures Concat(" -U\"", "\"", undefines)
           == Concat(" -U\"", "\"", undefines[..i]) + " -U\"" + undefines[i] + "\""
              + Concat(" -U\"", "\"", undefines[i + 1..])
    {
      ConcatAt(" -U\"", "\"", undefines, i);
    }
  }

  /**
   * The castxml command line: the executable first, cflags second exactly when they are
   * not empty, then the `-I` options of the search directories, `-c`, the platform option,
   * `--castxml-gccxml`, the symbol groups, the output and source files, and the start
   * option last exactly when there are start declarations.
   */
  lemma CastxmlLayout(cfg: Config, dirs: seq<string>, env: Env, file: string, xmlfile: string)
    ensures var parts := CastxmlParts(cfg, dirs, env, file, xmlfile);
            var sym := SymbolParts(cfg.defineSymbols, cfg.undefineSymbols);
            var k := |CflagsParts(cfg.cflags)|;
            var m := k + 3 + |GnuParts(env.osName)|;
            var n := m + 1 + |sym|;
            && |parts| == n + 2 + |StartParts("--castxml-start=\"", cfg.startWithDeclarations)|
            && parts[0] == Executable(env.osName, env.normpath, cfg.gccxmlPath)
            && (k == 1 <==> cfg.cflags != "")
            && (k == 1 ==> parts[1] == " " + cfg.cflags + " ")
            && parts[k + 1] == Concat(" -I", "", dirs)
            && parts[k + 2] == "-c"
            && (env.osName != "nt" ==> parts[k + 3] == "--castxml-cc-gnu /usr/bin/c++")
            && parts[m] == "--castxml-gccxml"
            && (forall j :: 0 <= j < |sym| ==> parts[m + 1 + j] == sym[j])
            && parts[n] == "-o " + xmlfile && parts[n + 1] == file
            && (|cfg.startWithDeclarations| != 0 ==>
                  parts[n + 2] == "--castxml-start=\"" + Join(",", cfg.startWithDeclarations) + "\"")
  {
    var sym := SymbolParts(cfg.defineSymbols, cfg.undefineSymbols);
    var head := [Executable(env.osName, env.normpath, cfg.gccxmlPath)] + CflagsParts(cfg.cflags)
                + [Concat(" -I", "", dirs), "-c"] + GnuParts(env.osName) + ["--castxml-gccxml"];
    var mid := head + sym;
    var tail := ["-o " + xmlfile, file] + StartParts("--castxml-start=\"", cfg.startWithDeclarations);
    assert CastxmlParts(cfg, dirs, env, file, xmlfile) == mid + tail;
  }

  /**
   * The gccxml command line: the executable first, cflags second exactly when they are
   * not empty, then the quoted `-I` options of the search directories, the symbol groups,
   * the quoted source file and the output option, then the optional start and compiler
   * options, in that order.
   */
  lemma GccxmlLayout(cfg: Config, dirs: seq<string>, env: Env, file: string, xmlfile: string)
    ensures var parts := GccxmlParts(cfg, dirs, env, file, xmlfile);
            var sym := SymbolParts(cfg.defineSymbols, cfg.undefineSymbols);
            var start := StartParts("-fxml-start=\"", cfg.startWithDeclarations);
            var k := |CflagsParts(cfg.cflags)|;
            var n := k + 2 + |sym|;
            && |parts| == n + 2 + |start| + |CompilerParts(cfg.compiler)|
            && parts[0] == Executable(env.osName, env.normpath, cfg.gccxmlPath)
            && (k == 1 <==> cfg.cflags != "")
            && (k == 1 ==> parts[1] == " " + cfg.cflags + " ")
            && parts[k + 1] == Concat(" -I\"", "\"", dirs)
            && (forall j :: 0 <= j < |sym| ==> parts[k + 2 + j] == sym[j])
            && parts[n] == "\"" + file + "\"" && parts[n + 1] == "-fxml=\"" + xmlfile + "\""
            && (|cfg.startWithDeclarations| != 0 ==>
                  parts[n + 2] == "-fxml-start=\"" + Join(",", cfg.startWithDeclarations) + "\"")
            && (cfg.compiler != "" ==> parts[|parts| - 1] == " --gccxml-compiler " + cfg.compiler)
  {
    var sym := SymbolParts(cfg.defineSymbols, cfg.undefineSymbols);
    var head := [Executable(env.osName, env.normpath, cfg.gccxmlPath)] + CflagsParts(cfg.cflags)
                + [Concat(" -I\"", "\"", dirs)];
    var mid := head + sym;
    var tail := ["\"" + file + "\"", "-fxml=\"" + xmlfile + "\""]
                + StartParts("-fxml-start=\"", cfg.startWithDeclarations) + CompilerParts(cfg.compiler);
    assert GccxmlParts(cfg, dirs, env, file, xmlfile) == mid + tail;
  }

  /** Joining by single spaces: appending a part to the list appends one space and that part to the line. */
  lemma {:induction false} JoinSpaces(parts: seq<string>, x: string)
    requires |parts| > 0
    ensures Join(" ", parts + [x]) == Join(" ", parts) + " " + x
  {
    if |parts| > 1 {
      assert (parts + [x])[1..] == parts[1..] + [x];
      JoinSpaces(parts[1..], x);
    }
  }
}
