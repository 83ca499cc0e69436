# pygccxml source reader, modelled in Dafny

This project models the core of pygccxml's `source_reader_t`. That class turns a C++
header into a pygccxml declarations tree. It runs an external caster (gccxml or castxml)
that dumps the header as XML, reads the dump back, and shapes the result. What is modelled:

- `bind_aliases`: attaches every typedef to the class it names. It is an imperative loop
  over mutable `Decl` objects whose `aliases` lists it rewrites.
- The command-line builders for the two casters and the symbol options they share.
- The search-directory list and `__file_full_name`, which resolves a file.
- The rule that decides a tool run failed, and the filter that turns the tool's output
  into reports.
- The `read_gccxml_file`, `read_xml_file`, `read_string` and `create_xml_file` flows:
  the declarations cache, the tool runs they start, and the temporary files they create
  and remove.
- `__produce_full_file` and the filter that keeps only the root namespaces of a parse.

The environment is made of parameters:

- The operating system is a value `Env`: `os.name`, `os.path.sep`, and the functions
  standing for `isabs`, `join`, `realpath` and `normpath`.
- The file system is the set of existing paths (`Reader.existing`).
- A tool run is described by a `ToolRun`: its output lines, its exit status, and whether
  the output file exists afterwards.
- The scanner and linker are described by the `Scan` they produce, or `None` when the
  dump is malformed.
- Temporary file names are fresh names passed in by the caller.
- The tool's command lines are logged in `Reader.invocations`.
- The cache is a map from (file, configuration) to the stored result. `caching == false`
  stands for `dummy_cache_t`, which never hits and ignores updates.

Modules:

- `Wrappers`, `Strings`: shared helpers in `common.dfy`.
- `Declarations`, `Aliases`: `aliases.dfy`.
- `Configuration`, `CommandLine`: `commandline.dfy`.
- `ToolResult`: `toolresult.dfy`.
- `SearchPath`: `searchpath.dfy`.
- `ParseResult`: `parseresult.dfy`.
- `SourceReader`: `sourcereader.dfy`.

Behaviour of the code that is easy to misread:

- The cache hit in `read_gccxml_file` is `if not declarations`, so a cached *empty* list
  counts as a miss and the tool runs again. `Reader.CachedValue` returns `[]` on a miss,
  and a hit needs a non-empty value.
- `read_string` reads through a new temporary header each time, and the reader hands the
  cache only that header's resolved path and the configuration. How a cache derives its
  key from them is up to the cache implementation, which is not modelled. The model's
  abstract cache is keyed by the path itself, so a second read is served from the cache
  when it reuses the same header name (`SourceReader.ReadStringTwice`).
- The path rewrite in `__produce_full_file` replaces the two-character sequence
  backslash-slash (the raw string `r'\/'`), not every backslash.

## Model

| member | source | states |
|---|---|---|
| Aliases.Typedefs | pygccxml/parser/source_reader.py:39 | the filtered list is no longer than the input; every element is a typedef from the input, and every typedef of the input is in it |
| Aliases.Target | pygccxml/parser/source_reader.py:41-46 | definition: the class a declaration is bound to: it is a typedef, its alias-free type is a `declarated_t`, and the declaration that type names is a class or a class declaration |
| Aliases.AliasesFor | pygccxml/parser/source_reader.py:40-50 | definition: the typedefs of the list bound to a given class, in list order; the alias list that class must end with |
| Aliases.Targets | pygccxml/parser/source_reader.py:40-48 | definition: the set of classes some declaration of the list is bound to; the final `visited` set |
| Aliases.TargetsMembers | pygccxml/parser/source_reader.py:40-46 | a class is rebound exactly when some typedef's alias-free type is that class (class or class declaration) |
| Aliases.AliasesForMembers | pygccxml/parser/source_reader.py:40-50 | a class's expected alias list holds exactly the typedefs whose alias-free type is that class, and nothing else |
| Aliases.TargetsIffAliases | pygccxml/parser/source_reader.py:47-50 | a class is in the visited set exactly when its alias list is non-empty |
| Aliases.AliasesForAppend | pygccxml/parser/source_reader.py:40-50 | binding over a concatenation gives the concatenation of the alias lists, so list order is kept |
| Aliases.TypedefsSameTargets | pygccxml/parser/source_reader.py:39 | keeping only the typedefs first does not change which classes are rebound |
| Aliases.TypedefsSameAliases | pygccxml/parser/source_reader.py:39 | keeping only the typedefs first does not change any class's alias list |
| Aliases.StepTargets | pygccxml/parser/source_reader.py:47-48 | one more typedef adds its target, if any, to the visited set |
| Aliases.StepAliases | pygccxml/parser/source_reader.py:49-50 | one more typedef is appended to its own target's list and to no other list |
| Aliases.TargetIn | pygccxml/parser/source_reader.py:41-48 | the target of any typedef in the list is among the rebound classes |
| Aliases.BindTypedef | pygccxml/parser/source_reader.py:41-50 | one loop pass keeps the invariant: the visited set is the targets so far, and every visited class holds exactly its typedefs so far, in order |
| Aliases.BindAliases | pygccxml/parser/source_reader.py:29-50 | every rebound class ends with exactly its typedefs in list order, whatever it held before; no other listed declaration changes; only rebound classes are modified |
| Aliases.BindAliasesTwice | pygccxml/parser/source_reader.py:38-50 | binding is idempotent: a second call leaves every alias list as the first call left it |
| Aliases.ClassWithTypedef | pygccxml/parser/source_reader.py:47-50 | a class holding a stale alias list and named by one typedef ends with exactly that typedef |
| Strings.RStrip | pygccxml/parser/source_reader.py:255 | definition: `rstrip()`: drops trailing ASCII whitespace |
| Strings.Join | pygccxml/parser/source_reader.py:156 | definition: `sep.join(parts)`: the parts with the separator between each pair |
| Strings.Concat | pygccxml/parser/source_reader.py:133 | definition: `''.join([prefix + x + suffix for x in items])`, the form of the `-I`, `-D` and `-U` groups |
| Strings.IsBlank | pygccxml/parser/source_reader.py:254 | definition: every character is whitespace, so `line.strip()` is empty |
| Strings.ConcatAppend | pygccxml/parser/source_reader.py:133 | the `''.join` of formatted items over a concatenation is the concatenation of the joins |
| Strings.ConcatAt | pygccxml/parser/source_reader.py:169-175 | each item is formatted exactly once, in its place, between the formatted items before and after it |
| Strings.JoinEmpty | pygccxml/parser/source_reader.py:261 | with a non-empty separator, the joined message is empty exactly when there are no reports or one empty report |
| Strings.RStripSpec | pygccxml/parser/source_reader.py:255 | `rstrip` returns a prefix of its input, drops only whitespace, and leaves no trailing whitespace |
| Strings.BlankIffRStripEmpty | pygccxml/parser/source_reader.py:254-255 | a line passes `line.strip()` exactly when its right-stripped form is non-empty |
| ToolResult.Reports | pygccxml/parser/source_reader.py:251-258 | definition: the non-blank output lines, right-stripped, in output order |
| ToolResult.IsToolError | pygccxml/parser/source_reader.py:262-272 | definition: with output ignored, a run fails only when the output file is missing; otherwise it fails on a non-empty message, a non-zero status or a missing file |
| ToolResult.Message | pygccxml/parser/source_reader.py:261 | definition: the reports joined by the platform line separator |
| ToolResult.ReportsAppend | pygccxml/parser/source_reader.py:251-258 | collecting reports in the two phases (while running, then the remainder) equals collecting them over the whole output |
| ToolResult.ReportsStripped | pygccxml/parser/source_reader.py:254-255 | there are at most as many reports as lines; each is non-empty and has no trailing whitespace |
| ToolResult.ReportsFromLines | pygccxml/parser/source_reader.py:254-255 | every report is the right-stripped form of some non-blank output line |
| ToolResult.LinesToReports | pygccxml/parser/source_reader.py:254-255 | every non-blank output line yields its report |
| ToolResult.NoReportsIffBlank | pygccxml/parser/source_reader.py:251-258 | there are no reports exactly when every output line is blank |
| ToolResult.ToolErrorFromOutput | pygccxml/parser/source_reader.py:260-272 | in terms of the raw output: with output ignored, the run fails exactly when the file is missing; otherwise it fails exactly when some line is non-blank, the status is non-zero, or the file is missing |
| CommandLine.CastxmlParts | pygccxml/parser/source_reader.py:119-155 | definition: the castxml command parts, in the order the builder appends them |
| CommandLine.GccxmlParts | pygccxml/parser/source_reader.py:182-210 | definition: the gccxml command parts, in the order the builder appends them |
| CommandLine.CommandLineFor | pygccxml/parser/source_reader.py:111-114 | definition: the gccxml or castxml parts joined by single spaces, chosen by caster; nothing for any other caster |
| CommandLine.SymbolParts | pygccxml/parser/source_reader.py:167-175 | definition: the `-D` group when there are defines, then the `-U` group when there are undefines |
| CommandLine.AddSymbols | pygccxml/parser/source_reader.py:160-177 | appends the `-D` group only when there are defines, then the `-U` group only when there are undefines, keeping the existing parts |
| CommandLine.SymbolPartsOrder | pygccxml/parser/source_reader.py:167-177 | at most two groups; the define group comes first and the undefine group last; each define appears once, quoted, in order |
| CommandLine.CreateCommandLineCastxml | pygccxml/parser/source_reader.py:116-158 | the command line is the castxml parts joined by single spaces |
| CommandLine.CastxmlLayout | pygccxml/parser/source_reader.py:119-155 | the castxml parts in order: executable (quoted on nt), cflags exactly when non-empty, `-I` options, `-c`, the gnu option off nt, `--castxml-gccxml`, symbols, `-o` output, source, and the start option exactly when there are start declarations |
| CommandLine.CreateCommandLineGccxml | pygccxml/parser/source_reader.py:179-215 | the command line is the gccxml parts joined by single spaces |
| CommandLine.GccxmlLayout | pygccxml/parser/source_reader.py:182-210 | the gccxml parts in order: executable, cflags exactly when non-empty, quoted `-I` options, symbols, quoted source, `-fxml` output, then the optional start option and the compiler option last when one is set |
| CommandLine.CreateCommandLine | pygccxml/parser/source_reader.py:100-114 | dispatches to the gccxml or castxml builder by caster; there is no command line exactly when the caster is neither |
| CommandLine.JoinSpaces | pygccxml/parser/source_reader.py:156 | joining by spaces puts exactly one space before each appended part |
| SearchPath.FirstUnder | pygccxml/parser/source_reader.py:387-391 | definition: the join with the first search directory under which the file exists, else an error naming the file |
| SearchPath.Resolve | pygccxml/parser/source_reader.py:384-391 | definition: the file itself when it exists, else the first existing join with a search directory |
| SearchPath.FirstUnderSpec | pygccxml/parser/source_reader.py:387-391 | the search returns the join with the first directory where the file exists; it fails, naming the file, exactly when no join exists |
| SearchPath.ResolveSpec | pygccxml/parser/source_reader.py:384-391 | an existing file is returned as it is; otherwise the first existing join is returned; the lookup fails exactly when neither exists; a result always exists |
| SearchPath.FileFullName | pygccxml/parser/source_reader.py:384-391 | the loop returns exactly the resolution defined by `Resolve` |
| ParseResult.ReplaceBackslashSlash | pygccxml/parser/source_reader.py:395 | definition: `replace(r'\/', sep)`: every backslash-slash pair, scanned left to right, becomes the separator |
| ParseResult.FixSeparators | pygccxml/parser/source_reader.py:394-395 | definition: the pair rewrite, carried out only when `os.name` is `nt` or `posix` |
| ParseResult.ReplaceWithoutPair | pygccxml/parser/source_reader.py:394-395 | a path with no backslash-slash pair passes through the separator rewrite unchanged |
| ParseResult.FullFileAbsoluteOrMissing | pygccxml/parser/source_reader.py:393-407 | when `realpath` always gives an absolute path and `normpath` keeps absolute paths absolute (as `os.path` does), the result is absolute unless it is the rewritten relative path whose join with the working directory does not exist |
| ParseResult.ProduceFullFile | pygccxml/parser/source_reader.py:393-407 | definition: on nt and posix the backslash-slash pairs become the separator; an absolute path is returned as it is; a relative one becomes the normalised real path of its join with the working directory when that exists, else stays as it is |
| ParseResult.RootNamespaces | pygccxml/parser/source_reader.py:438-442 | definition: the declarations that are namespaces without a parent, in list order |
| ParseResult.NormaliseFileTable | pygccxml/parser/source_reader.py:414-416 | the rebuilt table has the same ids in the same order, each path normalised |
| ParseResult.RootNamespacesMembers | pygccxml/parser/source_reader.py:438-442 | the filter keeps exactly the namespaces of the list that have no parent |
| ParseResult.RootNamespacesAppend | pygccxml/parser/source_reader.py:438-442 | the filter keeps list order: filtering a concatenation concatenates the results |
| ParseResult.ParseXmlFile | pygccxml/parser/source_reader.py:409-443 | returns the root namespaces and the normalised file paths, and leaves every rebound class with exactly its typedefs |
| SourceReader.Reader.constructor | pygccxml/parser/source_reader.py:87-94 | the search directories are the working directory followed by the include paths; no cache means the dummy cache |
| SourceReader.Reader.CachedValue | pygccxml/parser/source_reader.py:317-318 | definition: the cache lookup; the dummy cache always misses, and a stored empty list counts as a miss |
| SourceReader.Reader.HeaderFullName | pygccxml/parser/source_reader.py:239-241 | definition: the header itself when absolute, else its resolution against the search directories |
| SourceReader.Reader.Update | pygccxml/parser/source_reader.py:324-328 | a real cache replaces the entry for the key; the dummy cache is left as it is |
| SourceReader.Reader.RemoveFile | pygccxml/parser/source_reader.py:274 | removing a file takes it off the disk and never fails |
| SourceReader.Reader.CreateXmlFile | pygccxml/parser/source_reader.py:217-276 | an unresolved header fails as file-not-found; an unknown caster gives no command; otherwise the tool runs once, and the call succeeds exactly when the tool-error rule does not fire, returning the destination or the temporary name; on any failure the output file is gone |
| SourceReader.Reader.CreateXmlFileFromString | pygccxml/parser/source_reader.py:278-299 | an unresolved header fails as file-not-found, an unknown caster gives no command, and otherwise the call succeeds exactly when the tool-error rule does not fire; the temporary header is gone afterwards either way, and the disk is otherwise as `create_xml_file` leaves it |
| SourceReader.Reader.ReadGccxmlFile | pygccxml/parser/source_reader.py:304-339 | an unresolved source fails with no tool run; a non-empty cached value is returned with no tool run and no update; otherwise the tool runs, and on success the root namespaces are returned and stored and every rebound class holds exactly its typedefs; a failed miss returns the error of `create_xml_file` unchanged (no command line, or the tool failure with its message) or a malformed-dump error for the temporary dump, and leaves the cache unchanged; on a hit or a failure no alias list changes; the disk ends as it began |
| SourceReader.Reader.ReadXmlFile | pygccxml/parser/source_reader.py:341-364 | never runs the tool; a hit returns the cached value; a miss parses the dump, binds aliases, and stores it with an empty file list; a malformed dump fails without touching the cache; on a hit or a failure no alias list changes |
| SourceReader.Reader.ReadString | pygccxml/parser/source_reader.py:366-382 | reads the temporary header like `read_gccxml_file`, keyed by the header's name, with the same results and the same error values on a miss; alias lists change only on a successful parse; the header is removed on every path, so the disk ends as it began |
| SourceReader.ReadStringTwice | pygccxml/parser/source_reader.py:366-382 | with a real cache, a second read through the same header name returns the first non-empty result and does not start the tool again |

## Left out

- Running the tool (`subprocess.Popen`, the poll/readline drain loop): the model takes the output lines, exit status and output-file existence as a `ToolRun`. `ReportsAppend` shows that the two drain phases together equal one pass over the output.
- `scanner_t`, `linker_t` and `patcher.fix_calldef_decls`: their outcome is a `Scan` (already-linked declarations and the file table, in order) or `None` for a dump they reject. The scanner, linker and patcher themselves are not part of this model.
- Cache implementations (`file_cache_t`, `directory_cache_t`, timestamp and signature validity): the cache is a map, and `dummy_cache_t` is `caching == false`.
- Logging (`self.logger`), `raise_on_wrong_settings`, and the declaration factory: none of them affects the modelled results.
- The contents of the temporary header and of the dump: files are modelled by name only.
- `read_file`: it only forwards to `read_gccxml_file`, which is modelled.
- `pygccxml.utils.create_temp_file_name`: it is not part of this model. A temporary name is a fresh, non-empty name passed in by the caller, created on disk as `mkstemp` does.
- Exceptions raised by `os.path.realpath` inside `__produce_full_file`: `realpath` is a total function here, so the `except` branch that returns the path is not reachable in the model.
- Which exception class is raised: failures are the values of `SourceReader.Error`, and the message format strings are not modelled. Neither is the `str(s)` conversion at line 261: the pipe yields bytes, so under Python 3 each report in the real message reads `b'...'`, while `ToolFailed` carries the plain join. The failure decision is the same either way, because each converted report is non-empty.
- The `assert isinstance(...)` checks on the configuration type: the configuration is always a `Config` value here.
- ParseXmlFile: requires distinct ids in the scanner's file table (`ValidScan`), because the model keeps the table as an ordered list of pairs where Python has a dictionary.
- NormaliseFileTable: requires distinct ids for the same reason.
- ReadStringTwice: key derivation belongs to the cache implementation, which is not modelled. The model's cache is keyed by path, so a hit is shown only for a second read through the same header name. A cache keyed by file content would also hit when identical content is read through a fresh header; the model does not capture that.
- CreateXmlFile: the only disk effects modelled are those on the output file. The command line the tool runs is recorded, but its other effects on the disk are not.
- ReadGccxmlFile: the stored file list is computed over the disk as it stands while parsing, with the temporary dump present.
