/** Result shaping in `__parse_xml_file`: the file table and the root-namespace filter. */
module ParseResult {
  import opened Configuration
  import opened Declarations
  import Aliases

  /** `s.replace('\\/', sep)`: every backslash-slash pair, scanned left to right, becomes `sep`. */
  function ReplaceBackslashSlash(s: string, sep: string): string
  {
    if |s| >= 2 && s[0] == '\\' && s[1] == '/' then sep + ReplaceBackslashSlash(s[2..], sep)
    else if |s| == 0 then ""
    else [s[0]] + ReplaceBackslashSlash(s[1..], sep)
  }

  /** A path holding no backslash-slash pair comes back unchanged. */
  lemma {:induction false} ReplaceWithoutPair(s: string, sep: string)
    requires forall i :: 0 <= i < |s| - 1 ==> !(s[i] == '\\' && s[i + 1] == '/')
    ensures ReplaceBackslashSlash(s, sep) == s
  {
    if |s| > 0 {
      var t := s[1..];
      assert forall i :: 0 <= i < |t| ==> t[i] == s[i + 1];
      ReplaceWithoutPair(t, sep);
      assert [s[0]] + s[1..] == s;
    }
  }

  /** The separator rewrite, carried out only when `os.name` is `nt` or `posix`. */
  function FixSeparators(env: Env, path: string): string
  {
    if env.osName == "nt" || env.osName == "posix" then ReplaceBackslashSlash(path, env.sep) else path
  }

  /**
   * `__produce_full_file(file_path)`: an absolute path as it is; a relative one as the
   * normalised real path of its join with the working directory when that exists, and
   * otherwise as it is.
   */
  function ProduceFullFile(env: Env, workingDirectory: string, existing: set<string>, path: string): string
  {
    var p := FixSeparators(env, path);
    if env.isAbs(p) then p
    else
      var absPath := env.realpath(env.join(workingDirectory, p));
      if absPath in existing then env.normpath(absPath) else p
  }

  /**
   * With `os.path` semantics (`realpath` always absolute, `normpath` keeping an absolute
   * path absolute), every exposed path is absolute unless it is the relative path itself
   * and its join with the working directory is missing.
   */
  lemma FullFileAbsoluteOrMissing(env: Env, workingDirectory: string, existing: set<string>, path: string)
    requires forall x :: env.isAbs(env.realpath(x))
    requires forall x :: env.isAbs(x) ==> env.isAbs(env.normpath(x))
    ensures var r := ProduceFullFile(env, workingDirectory, existing, path);
            env.isAbs(r)
            || (r == FixSeparators(env, path) && env.realpath(env.join(workingDirectory, r)) !in existing)
  {
  }

  /** The paths of a file table, in table order: `list(files.values())`. */
  function Paths(table: seq<(string, string)>): seq<string>
  {
    seq(|table|, i requires 0 <= i < |table| => table[i].1)
  }

  /** The paths of a file table, each passed through `__produce_full_file`, in table order. */
  function NormalisedPaths(env: Env, workingDirectory: string, existing: set<string>, table: seq<(string, string)>)
    : seq<string>
  {
    seq(|table|, i requires 0 <= i < |table| => ProduceFullFile(env, workingDirectory, existing, table[i].1))
  }

  /**
   * The loop over the scanner's file table: same ids in the same order, every path
   * passed through `__produce_full_file`.
   */
  method NormaliseFileTable(env: Env, workingDirectory: string, existing: set<string>, table: seq<(string, string)>)
    returns (files: seq<(string, string)>)
    requires forall i, j :: 0 <= i < j < |table| ==> table[i].0 != table[j].0
    ensures |files| == |table|
    ensures forall i :: 0 <= i < |table| ==>
              files[i] == (table[i].0, ProduceFullFile(env, workingDirectory, existing, table[i].1))
  {
    files := [];
    var k := 0;
    while k < |table|
      invariant 0 <= k <= |table| && |files| == k
      invariant forall i :: 0 <= i < k ==>
                  files[i] == (table[i].0, ProduceFullFile(env, workingDirectory, existing, table[i].1))
    {
      var (fileId, filePath) := table[k];
      files := files + [(fileId, ProduceFullFile(env, workingDirectory, existing, filePath))];
      k := k + 1;
    }
  }

  /** The namespaces of a declaration list that have no parent, in list order. */
  function RootNamespaces(decls: seq<Decl>): seq<Decl>
  {
    if |decls| == 0 then []
    else RootNamespaces(decls[..|decls| - 1])
         + (var d := decls[|decls| - 1]; if d.kind == Namespace && d.parent == null then [d] else [])
  }

  /** The filter keeps exactly the parentless namespaces of the list. */
  lemma {:induction false} RootNamespacesMembers(decls: seq<Decl>)
    ensures forall d :: d in RootNamespaces(decls) ==> d in decls && d.kind == Namespace && d.parent == null
    ensures forall i :: 0 <= i < |decls| && decls[i].kind == Namespace && decls[i].parent == null ==>
              decls[i] in RootNamespaces(decls)
  {
    if |decls| > 0 {
      var n := |decls| - 1;
      RootNamespacesMembers(decls[..n]);
      forall i | 0 <= i < n
        ensures decls[..n][i] == decls[i]
      {
      }
    }
  }

  /** The filter keeps list order: filtering a concatenation concatenates the results. */
  lemma {:induction false} RootNamespacesAppend(a: seq<Decl>, b: seq<Decl>)
    ensures RootNamespaces(a + b) == RootNamespaces(a) + RootNamespaces(b)
  {
    if |b| == 0 {
      assert a + b == a;
    } else {
      var n := |b| - 1;
      assert (a + b)[..|a + b| - 1] == a + b[..n];
      RootNamespacesAppend(a, b[..n]);
    }
  }

  /** What the scanner hands over, already linked: the declarations and the file table, in order. */
  datatype Scan = Scan(decls: seq<Decl>, files: seq<(string, string)>)

  /** A scan whose file table has distinct ids, as the scanner's dictionary does. */
  predicate ValidScan(scan: Scan)
  {
    forall i, j :: 0 <= i < j < |scan.files| ==> scan.files[i].0 != scan.files[j].0
  }

  /**
   * `__parse_xml_file` after scanning and linking: the file table is normalised, aliases
   * are bound over all declarations, and the parentless namespaces are returned with the
   * normalised paths.
   */
  method ParseXmlFile(env: Env, workingDirectory: string, existing: set<string>, scan: Scan,
                      removeAlias: CppType -> CppType)
    returns (decls: seq<Decl>, files: seq<string>)
    requires ValidScan(scan)
    modifies Aliases.Targets(scan.decls, removeAlias)
    ensures decls == RootNamespaces(scan.decls)
    ensures files == NormalisedPaths(env, workingDirectory, existing, scan.files)
    ensures forall c :: c in Aliases.Targets(scan.decls, removeAlias) ==>
              c.aliases == Aliases.AliasesFor(scan.decls, c, removeAlias)
  {
    var table := NormaliseFileTable(env, workingDirectory, existing, scan.files);
    Aliases.BindAliases(scan.decls, removeAlias);
    decls := RootNamespaces(scan.decls);
    files := Paths(table);
  }
}
