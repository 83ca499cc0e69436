/** The declaration objects the reader hands around, reduced to what the core looks at. */
module Declarations {

  /** The declaration classes the core distinguishes; all others are `Other`. */
  datatype DeclKind = Namespace | Class | ClassDeclaration | Typedef | Other

  /** `isinstance(decl, class_types)`: a class definition or a class forward declaration. */
  predicate IsClassType(k: DeclKind)
  {
    k == Class || k == ClassDeclaration
  }

  /** A type object: either a `declarated_t` naming a declaration, or some other type. */
  datatype CppType = Declarated(declaration: Decl) | OtherType(description: string)

  /**
   * A declaration object. Only `aliases` is updated in place by the core;
   * the type of a typedef and the parent scope are already linked.
   */
  class Decl {
    const name: string
    const kind: DeclKind
    const declType: CppType
    const parent: Decl?
    var aliases: seq<Decl>

    constructor (name: string, kind: DeclKind, declType: CppType, parent: Decl?)
      ensures this.name == name && this.kind == kind && this.declType == declType
      ensures this.parent == parent && aliases == []
    {
      this.name := name;
      this.kind := kind;
      this.declType := declType;
      this.parent := parent;
      aliases := [];
    }
  }
}

/** `bind_aliases`: attach every typedef to the class it names. */
module Aliases {
  import opened Wrappers
  import opened Declarations

  /** The typedefs of a declaration list, in list order. */
  function Typedefs(decls: seq<Decl>): (r: seq<Decl>)
    ensures |r| <= |decls|
    ensures forall i :: 0 <= i < |r| ==> r[i].kind == Typedef && r[i] in decls
    ensures forall i :: 0 <= i < |decls| && decls[i].kind == Typedef ==> decls[i] in r
  {
    if |decls| == 0 then []
    else Typedefs(decls[..|decls| - 1])
         + (if decls[|decls| - 1].kind == Typedef then [decls[|decls| - 1]] else [])
  }

  /**
   * The class-like declaration that `d` is bound to: `d` is a typedef, its type with
   * aliases removed is a `declarated_t`, and that declaration is one of `class_types`.
   */
  function Target(d: Decl, removeAlias: CppType -> CppType): Option<Decl>
  {
    if d.kind != Typedef then None
    else match removeAlias(d.declType)
      case Declarated(c) => if IsClassType(c.kind) then Some(c) else None
      case OtherType(_) => None
  }

  /** The typedefs of `decls` bound to `c`, in list order (the alias list `c` must end with). */
  function AliasesFor(decls: seq<Decl>, c: Decl, removeAlias: CppType -> CppType): seq<Decl>
  {
    if |decls| == 0 then []
    else AliasesFor(decls[..|decls| - 1], c, removeAlias)
         + (if Target(decls[|decls| - 1], removeAlias) == Some(c) then [decls[|decls| - 1]] else [])
  }

  /** Every class reached by at least one typedef of `decls`. */
  function Targets(decls: seq<Decl>, removeAlias: CppType -> CppType): set<Decl>
  {
    if |decls| == 0 then {}
    else Targets(decls[..|decls| - 1], removeAlias)
         + (match Target(decls[|decls| - 1], removeAlias)
            case Some(c) => {c}
            case None => {})
  }

  /** A class is reached exactly when some declaration of the list is bound to it. */
  lemma {:induction false} TargetsMembers(decls: seq<Decl>, removeAlias: CppType -> CppType, c: Decl)
    ensures c in Targets(decls, removeAlias)
        <==> exists i :: 0 <= i < |decls| && Target(decls[i], removeAlias) == Some(c)
  {
    if |decls| > 0 {
      var n := |decls| - 1;
      TargetsMembers(decls[..n], removeAlias, c);
      if c in Targets(decls[..n], removeAlias) {
        var i :| 0 <= i < n && Target(decls[..n][i], removeAlias) == Some(c);
        assert decls[i] == decls[..n][i];
      }
      if exists i :: 0 <= i < |decls| && Target(decls[i], removeAlias) == Some(c) {
        var i :| 0 <= i < |decls| && Target(decls[i], removeAlias) == Some(c);
        if i < n {
          assert decls[..n][i] == decls[i];
        }
      }
    }
  }

  /** The alias list of `c` holds exactly the list's typedefs bound to `c`. */
  lemma {:induction false} AliasesForMembers(decls: seq<Decl>, c: Decl, removeAlias: CppType -> CppType)
    ensures forall d :: d in AliasesFor(decls, c, removeAlias) ==>
              d in decls && d.kind == Typedef && Target(d, removeAlias) == Some(c)
    ensures forall i :: 0 <= i < |decls| && Target(decls[i], removeAlias) == Some(c) ==>
              decls[i] in AliasesFor(decls, c, removeAlias)
  {
    if |decls| > 0 {
      var n := |decls| - 1;
      AliasesForMembers(decls[..n], c, removeAlias);
      forall i | 0 <= i < n
        ensures decls[..n][i] == decls[i]
      {
      }
    }
  }

  /** A class is reached exactly when its alias list is non-empty. */
  lemma {:induction false} TargetsIffAliases(decls: seq<Decl>, c: Decl, removeAlias: CppType -> CppType)
    ensures c in Targets(decls, removeAlias) <==> AliasesFor(decls, c, removeAlias) != []
  {
    if |decls| > 0 {
      TargetsIffAliases(decls[..|decls| - 1], c, removeAlias);
    }
  }

  /** Alias lists are built in list order: the list of a concatenation is the concatenation. */
  lemma {:induction false} AliasesForAppend(a: seq<Decl>, b: seq<Decl>, c: Decl, removeAlias: CppType -> CppType)
    ensures AliasesFor(a + b, c, removeAlias) == AliasesFor(a, c, removeAlias) + AliasesFor(b, c, removeAlias)
  {
    if |b| == 0 {
      assert a + b == a;
    } else {
      var n := |b| - 1;
      assert (a + b)[..|a + b| - 1] == a + b[..n];
      AliasesForAppend(a, b[..n], c, removeAlias);
    }
  }

  /** Restricting the list to its typedefs first, as the source does, reaches the same classes. */
  lemma {:induction false} TypedefsSameTargets(decls: seq<Decl>, removeAlias: CppType -> CppType)
    ensures Targets(Typedefs(decls), removeAlias) == Targets(decls, removeAlias)
  {
    if |decls| > 0 {
      var n := |decls| - 1;
      var last := decls[n];
      TypedefsSameTargets(decls[..n], removeAlias);
      var ts := Typedefs(decls[..n]);
      if last.kind == Typedef {
        var s := ts + [last];
        assert s[..|s| - 1] == ts && s[|s| - 1] == last;
      } else {
        assert Typedefs(decls) == ts;
        assert Target(last, removeAlias) == None;
      }
    }
  }

  /** Restricting the list to its typedefs first gives every class the same alias list. */
  lemma {:induction false} TypedefsSameAliases(decls: seq<Decl>, c: Decl, removeAlias: CppType -> CppType)
    ensures AliasesFor(Typedefs(decls), c, removeAlias) == AliasesFor(decls, c, removeAlias)
  {
    if |decls| > 0 {
      var n := |decls| - 1;
      var last := decls[n];
      TypedefsSameAliases(decls[..n], c, removeAlias);
      var ts := Typedefs(decls[..n]);
      if last.kind == Typedef {
        var s := ts + [last];
        assert s[..|s| - 1] == ts && s[|s| - 1] == last;
      } else {
        assert Typedefs(decls) == ts;
        assert Target(last, removeAlias) == None;
      }
    }
  }

  /** Extending a list by one declaration extends the reached set by its target, if any. */
  lemma StepTargets(s: seq<Decl>, i: nat, removeAlias: CppType -> CppType)
    requires i < |s|
    ensures Targets(s[..i + 1], removeAlias)
         == Targets(s[..i], removeAlias) + (match Target(s[i], removeAlias) case Some(c) => {c} case None => {})
  {
    assert s[..i + 1][..i] == s[..i] && s[..i + 1][i] == s[i];
  }

  /** Extending a list by one declaration appends it to the alias list of its target only. */
  lemma StepAliases(s: seq<Decl>, i: nat, c: Decl, removeAlias: CppType -> CppType)
    requires i < |s|
    ensures AliasesFor(s[..i + 1], c, removeAlias)
         == AliasesFor(s[..i], c, removeAlias) + (if Target(s[i], removeAlias) == Some(c) then [s[i]] else [])
  {
    assert s[..i + 1][..i] == s[..i] && s[..i + 1][i] == s[i];
  }

  /** A class a declaration of the list is bound to is among the list's reached classes. */
  lemma {:induction false} TargetIn(s: seq<Decl>, i: nat, removeAlias: CppType -> CppType, c: Decl)
    requires i < |s| && Target(s[i], removeAlias) == Some(c)
    ensures c in Targets(s, removeAlias)
  {
    if i < |s| - 1 {
      assert s[..|s| - 1][i] == s[i];
      TargetIn(s[..|s| - 1], i, removeAlias, c);
    }
  }

  /**
   * One pass of the loop of `bind_aliases`, for the typedef at position `i`: the first
   * visit of its class clears the class's aliases, then the typedef is appended.
   */
  method BindTypedef(typedefs: seq<Decl>, i: nat, visited: set<Decl>, removeAlias: CppType -> CppType)
    returns (visited': set<Decl>)
    requires i < |typedefs| && typedefs[i].kind == Typedef
    requires visited == Targets(typedefs[..i], removeAlias)
    requires forall c :: c in visited ==> c.aliases == AliasesFor(typedefs[..i], c, removeAlias)
    modifies Targets(typedefs, removeAlias)
    ensures visited' == Targets(typedefs[..i + 1], removeAlias)
    ensures forall c :: c in visited' ==> c.aliases == AliasesFor(typedefs[..i + 1], c, removeAlias)
  {
    visited' := visited;
    var d := typedefs[i];
    StepTargets(typedefs, i, removeAlias);
    var t := removeAlias(d.declType);
    if t.Declarated? && IsClassType(t.declaration.kind) {
      var cls := t.declaration;
      assert Target(d, removeAlias) == Some(cls);
      TargetIn(typedefs, i, removeAlias, cls);
      TargetsIffAliases(typedefs[..i], cls, removeAlias);
      if cls !in visited' {
        visited' := visited' + {cls};
        cls.aliases := [];
      }
      cls.aliases := cls.aliases + [d];
      forall c | c in visited'
        ensures c.aliases == AliasesFor(typedefs[..i + 1], c, removeAlias)
      {
        StepAliases(typedefs, i, c, removeAlias);
        if c != cls {
          assert c in visited && c.aliases == old(c.aliases);
        }
      }
    } else {
      assert Target(d, removeAlias) == None;
      forall c | c in visited'
        ensures c.aliases == AliasesFor(typedefs[..i + 1], c, removeAlias)
      {
        StepAliases(typedefs, i, c, removeAlias);
      }
    }
  }

  /**
   * `bind_aliases(decls)`: every class reached by a typedef ends with exactly the typedefs
   * bound to it, in list order, whatever it held before; every other object is untouched.
   */
  method BindAliases(decls: seq<Decl>, removeAlias: CppType -> CppType)
    modifies Targets(decls, removeAlias)
    ensures forall c :: c in Targets(decls, removeAlias) ==> c.aliases == AliasesFor(decls, c, removeAlias)
    ensures forall i :: 0 <= i < |decls| && decls[i] !in Targets(decls, removeAlias) ==>
              decls[i].aliases == old(decls[i].aliases)
  {
    TypedefsSameTargets(decls, removeAlias);
    var visited: set<Decl> := {};
    var typedefs := Typedefs(decls);
    var i := 0;
    while i < |typedefs|
      invariant 0 <= i <= |typedefs|
      invariant visited == Targets(typedefs[..i], removeAlias)
      invariant forall c :: c in visited ==> c.aliases == AliasesFor(typedefs[..i], c, removeAlias)
    {
      assert typedefs[i] in decls;
      visited := BindTypedef(typedefs, i, visited, removeAlias);
      i := i + 1;
    }
    assert typedefs[..i] == typedefs;
    forall c | c in Targets(decls, removeAlias)
      ensures c.aliases == AliasesFor(decls, c, removeAlias)
    {
      TypedefsSameAliases(decls, c, removeAlias);
    }
  }

  /**
   * The visited set is local to each call, so binding twice leaves the alias lists
   * exactly as binding once does: `once` holds every declaration's aliases after the
   * first call, and the second call changes none of them.
   */
  method BindAliasesTwice(decls: seq<Decl>, removeAlias: CppType -> CppType) returns (once: seq<seq<Decl>>)
    modifies Targets(decls, removeAlias)
    ensures |once| == |decls|
    ensures forall i :: 0 <= i < |decls| ==> decls[i].aliases == once[i]
    ensures forall c :: c in Targets(decls, removeAlias) ==> c.aliases == AliasesFor(decls, c, removeAlias)
  {
    BindAliases(decls, removeAlias);
    once := seq(|decls|, i reads decls requires 0 <= i < |decls| => decls[i].aliases);
    BindAliases(decls, removeAlias);
  }

  /** `class A {}; typedef A B;` gives `A` the single alias `B`, replacing any stale aliases. */
  method ClassWithTypedef(stale: seq<Decl>) returns (a: Decl, b: Decl)
    ensures a.kind == Class && b.kind == Typedef && a.name == "A" && b.name == "B"
    ensures a.aliases == [b]
  {
    var ns := new Decl("::", Namespace, OtherType(""), null);
    a := new Decl("A", Class, OtherType(""), ns);
    b := new Decl("B", Typedef, Declarated(a), ns);
    a.aliases := stale;
    var noAliases := (t: CppType) => t;
    assert Target(b, noAliases) == Some(a);
    assert Target(ns, noAliases) == None && Target(a, noAliases) == None;
    var decls := [ns, a, b];
    assert decls[..2][..1] == [ns] && decls[..2] == [ns, a] && decls[..3] == decls;
    assert Targets(decls[..1], noAliases) == {};
    assert Targets(decls[..2], noAliases) == {};
    assert Targets(decls, noAliases) == {a};
    BindAliases(decls, noAliases);
    assert AliasesFor(decls[..1], a, noAliases) == [];
    assert AliasesFor(decls[..2], a, noAliases) == [];
  }
}
