/** `source_reader_t`: running the tool, consulting the cache and cleaning up temporary files. */
module SourceReader {
  import opened Wrappers
  import opened Configuration
  import opened Declarations
  import opened CommandLine
  import opened ToolResult
  import opened SearchPath
  import opened ParseResult
  import Aliases

  /** The exceptions a read can end in. */
  datatype Error =
    | FileNotFound(file: string)                        // `__file_full_name` found nothing
    | ToolFailed(message: string, status: Option<int>)  // `gccxml_runtime_error_t`; status only when output is ignored
    | NoCommandLine                                     // unknown caster: no command line to run
    | MalformedDump(file: string)                       // the scanner or linker rejected the dump

  /** What one run of the external tool is observed to do: its output, status, and whether the output file exists afterwards. */
  datatype ToolRun = ToolRun(lines: seq<string>, exitStatus: int, outputExists: bool)

  /** The model's cache key: the resolved file name, as the reader passes it, and the configuration. */
  datatype CacheKey = CacheKey(file: string, config: Config)

  /** A cached result: the root declarations and the files they were read from. */
  datatype CacheEntry = CacheEntry(decls: seq<Decl>, files: seq<string>)

  /** The name of the generated file: the destination when one is given, else a fresh temporary name. */
  function OutputName(destination: string, tempName: string): string
  {
    if destination != "" then destination else tempName
  }

  /** The files on disk once `create_xml_file` has removed the destination or created the temporary file. */
  function Prepared(destination: string, tempName: string, existing: set<string>): set<string>
  {
    if destination != "" then existing - {destination} else existing + {tempName}
  }

  class Reader {
    const config: Config
    const env: Env
    const linesep: string
    const removeAlias: CppType -> CppType
    const searchDirectories: seq<string>
    const caching: bool                 // false: the always-miss `dummy_cache_t`
    var cache: map<CacheKey, CacheEntry>
    var existing: set<string>           // the files on disk
    var invocations: seq<string>        // the command lines the tool has been started with

    /** `__init__`: the search directories are the working directory, then the include paths in order. */
    constructor (config: Config, env: Env, linesep: string, removeAlias: CppType -> CppType,
                 cache: Option<map<CacheKey, CacheEntry>>, existing: set<string>)
      ensures this.config == config && this.env == env && this.linesep == linesep
      ensures this.removeAlias == removeAlias
      ensures searchDirectories == [config.workingDirectory] + config.includePaths
      ensures caching == cache.Some? && this.cache == (if cache.Some? then cache.value else map[])
      ensures this.existing == existing && invocations == []
    {
      var dirs: seq<string> := [];
      dirs := dirs + [config.workingDirectory];
      dirs := dirs + config.includePaths;
      this.config := config;
      this.env := env;
      this.linesep := linesep;
      this.removeAlias := removeAlias;
      searchDirectories := dirs;
      caching := cache.Some?;
      this.cache := if cache.Some? then cache.value else map[];
      this.existing := existing;
      invocations := [];
    }

    /** `cached_value(file, config)`: the stored declarations, or nothing on a miss. */
    function CachedValue(key: CacheKey): seq<Decl>
      reads this
    {
      if caching && key in cache then cache[key].decls else []
    }

    /** `update(file, config, decls, files)`: replaces the entry; the dummy cache ignores it. */
    method Update(key: CacheKey, decls: seq<Decl>, files: seq<string>)
      modifies this`cache
      ensures cache == if caching then old(cache)[key := CacheEntry(decls, files)] else old(cache)
    {
      if caching {
        cache := cache[key := CacheEntry(decls, files)];
      }
    }

    /** `remove_file_no_raise(path)` */
    method RemoveFile(path: string)
      modifies this`existing
      ensures existing == old(existing) - {path}
    {
      existing := existing - {path};
    }

    /** The source path `create_xml_file` hands to the tool: the header itself when absolute, else resolved. */
    function HeaderFullName(header: string, fs: set<string>): Result<string, string>
    {
      if env.isAbs(header) then Ok(header) else Resolve(header, searchDirectories, fs, env.join)
    }

    /** The command line `create_xml_file` runs, if resolution and command construction succeed. */
    function ToolCommand(header: string, destination: string, tempName: string, fs: set<string>): Option<string>
    {
      var full := HeaderFullName(header, Prepared(destination, tempName, fs));
      if full.Ok? then CommandLineFor(config, searchDirectories, env, full.value, OutputName(destination, tempName))
      else None
    }

    /**
     * `create_xml_file(header, destination)`: runs the tool once when the header resolves
     * and the caster is known; succeeds exactly when the tool-error rule does not fire; on
     * every failure the generated file is gone afterwards.
     */
    method CreateXmlFile(header: string, destination: string, tempName: string, run: ToolRun)
      returns (r: Result<string, Error>)
      requires destination == "" ==> tempName !in existing
      modifies this`existing, this`invocations
      ensures var full := HeaderFullName(header, Prepared(destination, tempName, old(existing)));
              full.Err? ==> r == Err(FileNotFound(full.error))
      ensures var full := HeaderFullName(header, Prepared(destination, tempName, old(existing)));
              full.Ok? && ToolCommand(header, destination, tempName, old(existing)).None? ==> r == Err(NoCommandLine)
      ensures var cmd := ToolCommand(header, destination, tempName, old(existing));
              invocations == old(invocations) + (if cmd.Some? then [cmd.value] else [])
      ensures var message := Message(linesep, Reports(run.lines));
              ToolCommand(header, destination, tempName, old(existing)).Some? ==>
                (r.Ok? <==> !IsToolError(config.ignoreGccxmlOutput, message, run.exitStatus, run.outputExists))
                && (r.Err? ==> r.error == ToolFailed(message, if config.ignoreGccxmlOutput then Some(run.exitStatus) else None))
      ensures r.Ok? ==> r.value == OutputName(destination, tempName)
                        && existing == Prepared(destination, tempName, old(existing)) + {r.value}
      ensures r.Err? ==> existing == Prepared(destination, tempName, old(existing)) - {OutputName(destination, tempName)}
    {
      var gccxmlFile: string;
      if destination != "" {
        RemoveFile(destination);
        gccxmlFile := destination;
      } else {
        gccxmlFile := tempName;
        existing := existing + {tempName};
      }
      var ffname := header;
      if !env.isAbs(ffname) {
        var found := FileFullName(header, searchDirectories, existing, env.join);
        if found.Err? {
          RemoveFile(gccxmlFile);
          return Err(FileNotFound(found.error));
        }
        ffname := found.value;
      }
      var commandLine := CreateCommandLine(config, searchDirectories, env, ffname, gccxmlFile);
      if commandLine.None? {
        RemoveFile(gccxmlFile);
        return Err(NoCommandLine);
      }
      invocations := invocations + [commandLine.value];
      existing := if run.outputExists then existing + {gccxmlFile} else existing - {gccxmlFile};
      var message := Message(linesep, Reports(run.lines));
      if config.ignoreGccxmlOutput {
        if gccxmlFile !in existing {
          RemoveFile(gccxmlFile);
          return Err(ToolFailed(message, Some(run.exitStatus)));
        }
      } else if message != "" || run.exitStatus != 0 || gccxmlFile !in existing {
        RemoveFile(gccxmlFile);
        return Err(ToolFailed(message, None));
      }
      r := Ok(gccxmlFile);
    }

    /**
     * `create_xml_file_from_string(content, destination)`: the temporary header exists only
     * while the tool runs; afterwards the files on disk are those `create_xml_file` leaves.
     */
    method CreateXmlFileFromString(destination: string, headerName: string, tempName: string, run: ToolRun)
      returns (r: Result<string, Error>)
      requires headerName !in existing && headerName != destination
      requires destination == "" ==> tempName !in existing && tempName != headerName
      modifies this`existing, this`invocations
      ensures var full := HeaderFullName(headerName, Prepared(destination, tempName, old(existing) + {headerName}));
              full.Err? ==> r == Err(FileNotFound(full.error))
      ensures var full := HeaderFullName(headerName, Prepared(destination, tempName, old(existing) + {headerName}));
              full.Ok? && ToolCommand(headerName, destination, tempName, old(existing) + {headerName}).None? ==>
                r == Err(NoCommandLine)
      ensures var cmd := ToolCommand(headerName, destination, tempName, old(existing) + {headerName});
              invocations == old(invocations) + (if cmd.Some? then [cmd.value] else [])
      ensures var message := Message(linesep, Reports(run.lines));
              ToolCommand(headerName, destination, tempName, old(existing) + {headerName}).Some? ==>
                (r.Ok? <==> !IsToolError(config.ignoreGccxmlOutput, message, run.exitStatus, run.outputExists))
                && (r.Err? ==> r.error == ToolFailed(message, if config.ignoreGccxmlOutput then Some(run.exitStatus) else None))
      ensures headerName !in existing
      ensures r.Ok? ==> r.value == OutputName(destination, tempName)
                        && existing == Prepared(destination, tempName, old(existing)) + {r.value}
      ensures r.Err? ==> existing == Prepared(destination, tempName, old(existing)) - {OutputName(destination, tempName)}
    {
      existing := existing + {headerName};
      r := CreateXmlFile(headerName, destination, tempName, run);
      RemoveFile(headerName);
    }

    /** The cache entry a successful parse of `scan` stores, the files on disk being `fs`. */
    function ParsedEntry(scan: Scan, fs: set<string>): CacheEntry
    {
      CacheEntry(RootNamespaces(scan.decls), NormalisedPaths(env, config.workingDirectory, fs, scan.files))
    }

    /** The classes whose alias lists parsing `scan` rebinds. */
    function Rebound(scan: Option<Scan>): set<Decl>
    {
      if scan.Some? then Aliases.Targets(scan.value.decls, removeAlias) else {}
    }

    /**
     * `read_gccxml_file(source_file)`: a non-empty cached value is returned as it is, with
     * no tool run and no cache update; otherwise the tool runs, the result is parsed and
     * stored, and the generated file is removed whether parsing succeeds or not.
     */
    method ReadGccxmlFile(sourceFile: string, tempName: string, run: ToolRun, scan: Option<Scan>)
      returns (r: Result<seq<Decl>, Error>)
      requires tempName != "" && tempName !in existing
      requires scan.Some? ==> ValidScan(scan.value)
      modifies this`existing, this`invocations, this`cache, Rebound(scan)
      ensures existing == old(existing)
      ensures var found := Resolve(sourceFile, searchDirectories, old(existing), env.join);
              found.Err? ==> r == Err(FileNotFound(sourceFile)) && cache == old(cache) && invocations == old(invocations)
      ensures var found := Resolve(sourceFile, searchDirectories, old(existing), env.join);
              found.Ok? && old(CachedValue(CacheKey(found.value, config))) != [] ==>
                r == Ok(old(CachedValue(CacheKey(found.value, config))))
                && cache == old(cache) && invocations == old(invocations)
      ensures var found := Resolve(sourceFile, searchDirectories, old(existing), env.join);
              found.Ok? && old(CachedValue(CacheKey(found.value, config))) == [] ==>
                var cmd := CommandLineFor(config, searchDirectories, env, found.value, tempName);
                && invocations == old(invocations) + (if cmd.Some? then [cmd.value] else [])
                && (r.Ok? <==> cmd.Some? && scan.Some?
                               && !IsToolError(config.ignoreGccxmlOutput, Message(linesep, Reports(run.lines)),
                                               run.exitStatus, run.outputExists))
                && (r.Ok? ==> r.value == RootNamespaces(scan.value.decls)
                              && cache == if caching
                                          then old(cache)[CacheKey(found.value, config)
                                                          := ParsedEntry(scan.value, old(existing) + {tempName})]
                                          else old(cache))
                && (r.Err? ==> cache == old(cache))
      ensures var found := Resolve(sourceFile, searchDirectories, old(existing), env.join);
              found.Ok? && old(CachedValue(CacheKey(found.value, config))) == [] ==>
                var cmd := CommandLineFor(config, searchDirectories, env, found.value, tempName);
                var message := Message(linesep, Reports(run.lines));
                var failed := IsToolError(config.ignoreGccxmlOutput, message, run.exitStatus, run.outputExists);
                && (cmd.None? ==> r == Err(NoCommandLine))
                && (cmd.Some? && failed ==>
                      r == Err(ToolFailed(message, if config.ignoreGccxmlOutput then Some(run.exitStatus) else None)))
                && (cmd.Some? && !failed && scan.None? ==> r == Err(MalformedDump(tempName)))
      ensures var found := Resolve(sourceFile, searchDirectories, old(existing), env.join);
              var parsed := found.Ok? && old(CachedValue(CacheKey(found.value, config))) == [] && scan.Some? && r.Ok?;
              forall c :: c in Rebound(scan) && old(allocated(c)) ==>
                c.aliases == if parsed then Aliases.AliasesFor(scan.value.decls, c, removeAlias) else old(c.aliases)
    {
      var gccxmlFile := "";
      var found := FileFullName(sourceFile, searchDirectories, existing, env.join);
      ResolveSpec(sourceFile, searchDirectories, existing, env.join);
      if found.Err? {
        return Err(FileNotFound(found.error));
      }
      var ffname := found.value;
      var key := CacheKey(ffname, config);
      var declarations := CachedValue(key);
      if declarations == [] {
        ResolveSpec(ffname, searchDirectories, existing + {tempName}, env.join);
        var created := CreateXmlFile(ffname, "", tempName, run);
        if created.Err? {
          return Err(created.error);
        }
        gccxmlFile := created.value;
        if scan.None? {
          if gccxmlFile != "" {
            RemoveFile(gccxmlFile);
          }
          return Err(MalformedDump(gccxmlFile));
        }
        var decls, files := ParseXmlFile(env, config.workingDirectory, existing, scan.value, removeAlias);
        Update(key, decls, files);
        declarations := decls;
      }
      if gccxmlFile != "" {
        RemoveFile(gccxmlFile);
      }
      r := Ok(declarations);
    }

    /**
     * `read_xml_file(file)`: like `read_gccxml_file` but on an existing dump, so the tool
     * never runs, and a miss is stored with an empty file list.
     */
    method ReadXmlFile(file: string, scan: Option<Scan>) returns (r: Result<seq<Decl>, Error>)
      requires scan.Some? ==> ValidScan(scan.value)
      modifies this`cache, Rebound(scan)
      ensures var found := Resolve(file, searchDirectories, existing, env.join);
              found.Err? ==> r == Err(FileNotFound(file)) && cache == old(cache)
      ensures var found := Resolve(file, searchDirectories, existing, env.join);
              found.Ok? && old(CachedValue(CacheKey(found.value, config))) != [] ==>
                r == Ok(old(CachedValue(CacheKey(found.value, config)))) && cache == old(cache)
      ensures var found := Resolve(file, searchDirectories, existing, env.join);
              found.Ok? && old(CachedValue(CacheKey(found.value, config))) == [] ==>
                && (r.Ok? <==> scan.Some?)
                && (r.Ok? ==> r.value == RootNamespaces(scan.value.decls)
                              && cache == if caching
                                          then old(cache)[CacheKey(found.value, config) := CacheEntry(r.value, [])]
                                          else old(cache))
                && (r.Err? ==> r == Err(MalformedDump(found.value)) && cache == old(cache))
      ensures var found := Resolve(file, searchDirectories, existing, env.join);
              var parsed := found.Ok? && old(CachedValue(CacheKey(found.value, config))) == [] && scan.Some? && r.Ok?;
              forall c :: c in Rebound(scan) && old(allocated(c)) ==>
                c.aliases == if parsed then Aliases.AliasesFor(scan.value.decls, c, removeAlias) else old(c.aliases)
    {
      var found := FileFullName(file, searchDirectories, existing, env.join);
      ResolveSpec(file, searchDirectories, existing, env.join);
      if found.Err? {
        return Err(FileNotFound(found.error));
      }
      var ffname := found.value;
      var key := CacheKey(ffname, config);
      var declarations := CachedValue(key);
      if declarations == [] {
        if scan.None? {
          return Err(MalformedDump(ffname));
        }
        var decls, files := ParseXmlFile(env, config.workingDirectory, existing, scan.value, removeAlias);
        Update(key, decls, []);
        declarations := decls;
      }
      r := Ok(declarations);
    }

    /**
     * `read_string(content)`: reads a temporary header holding the content; the header is
     * removed whether the read succeeds or not, so the files on disk end as they began.
     */
    method ReadString(headerName: string, tempName: string, run: ToolRun, scan: Option<Scan>)
      returns (r: Result<seq<Decl>, Error>)
      requires headerName !in existing && tempName !in existing && headerName != tempName && tempName != ""
      requires scan.Some? ==> ValidScan(scan.value)
      modifies this`existing, this`invocations, this`cache, Rebound(scan)
      ensures existing == old(existing)
      ensures var key := CacheKey(headerName, config);
              old(CachedValue(key)) != [] ==>
                r == Ok(old(CachedValue(key))) && cache == old(cache) && invocations == old(invocations)
      ensures var key := CacheKey(headerName, config);
              var cmd := CommandLineFor(config, searchDirectories, env, headerName, tempName);
              old(CachedValue(key)) == [] ==>
                && invocations == old(invocations) + (if cmd.Some? then [cmd.value] else [])
                && (r.Ok? <==> cmd.Some? && scan.Some?
                               && !IsToolError(config.ignoreGccxmlOutput, Message(linesep, Reports(run.lines)),
                                               run.exitStatus, run.outputExists))
                && (r.Ok? ==> r.value == RootNamespaces(scan.value.decls)
                              && cache == if caching
                                          then old(cache)[key := ParsedEntry(scan.value, old(existing) + {headerName, tempName})]
                                          else old(cache))
                && (r.Err? ==> cache == old(cache))
      ensures var cmd := CommandLineFor(config, searchDirectories, env, headerName, tempName);
              var message := Message(linesep, Reports(run.lines));
              var failed := IsToolError(config.ignoreGccxmlOutput, message, run.exitStatus, run.outputExists);
              old(CachedValue(CacheKey(headerName, config))) == [] ==>
                && (cmd.None? ==> r == Err(NoCommandLine))
                && (cmd.Some? && failed ==>
                      r == Err(ToolFailed(message, if config.ignoreGccxmlOutput then Some(run.exitStatus) else None)))
                && (cmd.Some? && !failed && scan.None? ==> r == Err(MalformedDump(tempName)))
      ensures var parsed := old(CachedValue(CacheKey(headerName, config))) == [] && scan.Some? && r.Ok?;
              forall c :: c in Rebound(scan) && old(allocated(c)) ==>
                c.aliases == if parsed then Aliases.AliasesFor(scan.value.decls, c, removeAlias) else old(c.aliases)
    {
      existing := existing + {headerName};
      ResolveSpec(headerName, searchDirectories, existing, env.join);
      assert existing + {tempName} == old(existing) + {headerName, tempName};
      r := ReadGccxmlFile(headerName, tempName, run, scan);
      RemoveFile(headerName);
    }
  }

  /**
   * With a real cache, a second `read_string` served from the same temporary header name
   * finds the declarations the first one stored and does not start the tool again.
   */
  method ReadStringTwice(reader: Reader, headerName: string, tempName: string, run: ToolRun, scan: Scan)
    returns (first: Result<seq<Decl>, Error>, second: Result<seq<Decl>, Error>)
    requires reader.caching && ValidScan(scan)
    requires headerName !in reader.existing && tempName !in reader.existing && headerName != tempName && tempName != ""
    requires reader.CachedValue(CacheKey(headerName, reader.config)) == []
    modifies reader, Aliases.Targets(scan.decls, reader.removeAlias)
    ensures first.Ok? && first.value != [] ==> second == first
    ensures first.Ok? && first.value != [] ==> |reader.invocations| == |old(reader.invocations)| + 1
  {
    first := reader.ReadString(headerName, tempName, run, Some(scan));
    second := reader.ReadString(headerName, tempName, run, Some(scan));
  }
}
