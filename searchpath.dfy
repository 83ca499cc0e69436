/** `__file_full_name`: resolving a file against the search directories. */
module SearchPath {
  import opened Wrappers

  /** The join of `file` with the first directory under which it exists, if any. */
  function FirstUnder(file: string, dirs: seq<string>, existing: set<string>, join: (string, string) -> string)
    : Result<string, string>
  {
    if |dirs| == 0 then Err(file)
    else if join(dirs[0], file) in existing then Ok(join(dirs[0], file))
    else FirstUnder(file, dirs[1..], existing, join)
  }

  /** The file itself when it exists, else its first existing join; the error carries the file. */
  function Resolve(file: string, dirs: seq<string>, existing: set<string>, join: (string, string) -> string)
    : Result<string, string>
  {
    if file in existing then Ok(file) else FirstUnder(file, dirs, existing, join)
  }

  /** `FirstUnder` finds the first directory whose join exists, and fails only when none does. */
  lemma {:induction false} FirstUnderSpec(file: string, dirs: seq<string>, existing: set<string>,
                                          join: (string, string) -> string)
    ensures var r := FirstUnder(file, dirs, existing, join);
            && (r.Ok? ==> exists i :: 0 <= i < |dirs| && r.value == join(dirs[i], file) && r.value in existing
                                      && forall j :: 0 <= j < i ==> join(dirs[j], file) !in existing)
            && (r.Err? <==> forall i :: 0 <= i < |dirs| ==> join(dirs[i], file) !in existing)
            && (r.Err? ==> r.error == file)
  {
    if |dirs| > 0 && join(dirs[0], file) !in existing {
      var rest := dirs[1..];
      FirstUnderSpec(file, rest, existing, join);
      assert forall i :: 0 <= i < |rest| ==> rest[i] == dirs[i + 1];
      var r := FirstUnder(file, rest, existing, join);
      if r.Ok? {
        var i :| 0 <= i < |rest| && r.value == join(rest[i], file) && r.value in existing
                 && forall j :: 0 <= j < i ==> join(rest[j], file) !in existing;
        assert r.value == join(dirs[i + 1], file);
        assert forall j :: 0 <= j < i + 1 ==> join(dirs[j], file) !in existing by {
          forall j | 0 <= j < i + 1
            ensures join(dirs[j], file) !in existing
          {
            if j > 0 {
              assert dirs[j] == rest[j - 1];
            }
          }
        }
      } else {
        forall i | 0 <= i < |dirs|
          ensures join(dirs[i], file) !in existing
        {
          if i > 0 {
            assert dirs[i] == rest[i - 1];
          }
        }
      }
    }
  }

  /**
   * Resolution returns the file when it exists, else the join with the first search
   * directory whose join exists; it fails, naming the file, exactly when nothing exists.
   */
  lemma ResolveSpec(file: string, dirs: seq<string>, existing: set<string>, join: (string, string) -> string)
    ensures var r := Resolve(file, dirs, existing, join);
            && (file in existing ==> r == Ok(file))
            && (file !in existing && r.Ok? ==>
                  exists i :: 0 <= i < |dirs| && r.value == join(dirs[i], file) && r.value in existing
                              && forall j :: 0 <= j < i ==> join(dirs[j], file) !in existing)
            && (r.Err? <==> file !in existing && forall i :: 0 <= i < |dirs| ==> join(dirs[i], file) !in existing)
            && (r.Err? ==> r.error == file)
            && (r.Ok? ==> r.value in existing)
  {
    FirstUnderSpec(file, dirs, existing, join);
  }

  /** `__file_full_name(file)`: tries the file, then each search directory in order. */
  method FileFullName(file: string, dirs: seq<string>, existing: set<string>, join: (string, string) -> string)
    returns (r: Result<string, string>)
    ensures r == Resolve(file, dirs, existing, join)
  {
    if file in existing {
      return Ok(file);
    }
    var k := 0;
    while k < |dirs|
      invariant 0 <= k <= |dirs|
      invariant FirstUnder(file, dirs, existing, join) == FirstUnder(file, dirs[k..], existing, join)
    {
      var filePath := join(dirs[k], file);
      if filePath in existing {
        return Ok(filePath);
      }
      assert dirs[k..][1..] == dirs[k + 1..];
      k := k + 1;
    }
    return Err(file);
  }
}
