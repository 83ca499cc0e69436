/** Failure-carrying results, standing in for the exceptions the reader raises. */
module Wrappers {
  datatype Option<+T> = None | Some(value: T)

  datatype Result<+T, +E> = Ok(value: T) | Err(error: E)
}

/** The handful of Python string operations the reader relies on. */
module Strings {

  /** `sep.join(parts)` */
  function Join(sep: string, parts: seq<string>): string
  {
    if |parts| == 0 then ""
    else if |parts| == 1 then parts[0]
    else parts[0] + sep + Join(sep, parts[1..])
  }

  /** `''.join([prefix + x + suffix for x in items])` */
  function Concat(prefix: string, suffix: string, items: seq<string>): string
  {
    if |items| == 0 then "" else prefix + items[0] + suffix + Concat(prefix, suffix, items[1..])
  }

  /** Concatenating over two lists is concatenating the two results. */
  lemma {:induction false} ConcatAppend(prefix: string, suffix: string, a: seq<string>, b: seq<string>)
    ensures Concat(prefix, suffix, a + b) == Concat(prefix, suffix, a) + Concat(prefix, suffix, b)
  {
    if |a| == 0 {
      assert a + b == b;
    } else {
      assert (a + b)[1..] == a[1..] + b;
      ConcatAppend(prefix, suffix, a[1..], b);
    }
  }

  /** Every item appears, wrapped, exactly between the items before it and those after it. */
  lemma ConcatAt(prefix: string, suffix: string, items: seq<string>, i: nat)
    requires i < |items|
    ensures Concat(prefix, suffix, items)
         == Concat(prefix, suffix, items[..i]) + prefix + items[i] + suffix
            + Concat(prefix, suffix, items[i + 1..])
  {
    assert items == items[..i] + [items[i]] + items[i + 1..];
    ConcatAppend(prefix, suffix, items[..i] + [items[i]], items[i + 1..]);
    ConcatAppend(prefix, suffix, items[..i], [items[i]]);
  }

  /** Joining with a non-empty separator is empty exactly when there are no parts or one empty part. */
  lemma JoinEmpty(sep: string, parts: seq<string>)
    requires sep != ""
    ensures Join(sep, parts) == "" <==> |parts| == 0 || parts == [""]
  {
    if |parts| >= 2 {
      assert |Join(sep, parts)| >= |sep|;
    } else if |parts| == 1 {
      assert parts == [parts[0]];
    }
  }

  /** The characters Python's `strip()` and `rstrip()` drop on a line of tool output. */
  predicate IsSpace(c: char)
  {
    c == ' ' || c == '\t' || c == '\n' || c == '\r' || c == '\U{0B}' || c == '\U{0C}'
  }

  /** A line is blank when `line.strip()` is the empty string. */
  predicate IsBlank(s: string)
  {
    forall i :: 0 <= i < |s| ==> IsSpace(s[i])
  }

  /** `s.rstrip()` */
  function RStrip(s: string): string
  {
    if |s| > 0 && IsSpace(s[|s| - 1]) then RStrip(s[..|s| - 1]) else s
  }

  /** `rstrip` keeps a prefix, drops only whitespace, and leaves no trailing whitespace. */
  lemma {:induction false} RStripSpec(s: string)
    ensures |RStrip(s)| <= |s| && RStrip(s) == s[..|RStrip(s)|]
    ensures forall i :: |RStrip(s)| <= i < |s| ==> IsSpace(s[i])
    ensures |RStrip(s)| > 0 ==> !IsSpace(RStrip(s)[|RStrip(s)| - 1])
  {
    if |s| > 0 && IsSpace(s[|s| - 1]) {
      RStripSpec(s[..|s| - 1]);
    }
  }

  /** A line is blank exactly when right-stripping leaves nothing. */
  lemma BlankIffRStripEmpty(s: string)
    ensures IsBlank(s) <==> RStrip(s) == ""
  {
    RStripSpec(s);
    if RStrip(s) != "" {
      assert !IsSpace(s[|RStrip(s)| - 1]);
    }
  }
}
