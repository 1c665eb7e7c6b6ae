/** The Python 2 embedding's table of extension-module methods: for each
    module, a vector of method definitions that Python reads up to a NULL
    guard, so the guard must stay the last element. */
module Two {
  import opened Common

  /** `Six::MethType`; a C++ enum can hold any other value too. */
  datatype MethType = NoArgs | Args | Keywords | OtherMethType(raw: int)

  // Calling-convention flags of the Python C API (methodobject.h).
  const METH_VARARGS: bv32 := 0x0001
  const METH_KEYWORDS: bv32 := 0x0002
  const METH_NOARGS: bv32 := 0x0004

  /** `PyMethodDef`: name, function pointer (0 is NULL), flags, doc string.
      A NULL name or doc is `None`. */
  datatype MethodDef = MethodDef(name: Option<string>, meth: nat, flags: bv32, doc: Option<string>)

  /** `{ NULL, NULL }`: the entry at which Python stops reading a table. */
  const Guard := MethodDef(None, 0, 0, None)

  /** The `ml_flags` a method type selects, or None for an unknown type. */
  function MethFlags(t: MethType): (r: Option<bv32>)
    ensures r.None? <==> t.OtherMethType?
    ensures r.Some? ==> r.value != 0
    ensures r.Some? ==> (r.value & METH_NOARGS != 0 <==> t == NoArgs)
    ensures r.Some? ==> (r.value & METH_KEYWORDS != 0 <==> t == Keywords)
    ensures r.Some? ==> (r.value & METH_VARARGS != 0 <==> t != NoArgs)
    ensures r.Some? ==> r.value & !(METH_VARARGS | METH_KEYWORDS | METH_NOARGS) == 0
  {
    match t
    case NoArgs => Some(METH_NOARGS)
    case Args => Some(METH_VARARGS)
    case Keywords => Some(METH_VARARGS | METH_KEYWORDS)
    case OtherMethType(_) => None
  }

  /** The shape addModuleFunction keeps: the guard entry last and nowhere
      else. Python stops at the first entry whose name is NULL, so a
      definition registered with a NULL name would end the table early;
      this predicate looks for the guard itself and does not exclude that. */
  ghost predicate GuardedTable(v: seq<MethodDef>)
  {
    |v| >= 1 && v[|v| - 1] == Guard && forall i :: 0 <= i < |v| - 1 ==> v[i] != Guard
  }

  class Two {
    /** The ExtensionModule values that have a name; every other value is
        `module_unknown`. */
    const namedModules: set<int>
    /** `_modules`: one method vector per registered module. */
    var modules: map<int, seq<MethodDef>>
    /** The message most recently passed to `setError`. */
    var error: Option<string>

    ghost predicate Valid()
      reads this
    {
      && modules.Keys <= namedModules
      && forall m :: m in modules ==> GuardedTable(modules[m])
    }

    constructor (namedModules: set<int>)
      ensures Valid()
      ensures this.namedModules == namedModules && modules == map[] && error == None
    {
      this.namedModules := namedModules;
      modules := map[];
      error := None;
    }

    /** `Two::addModuleFunction`. */
    method AddModuleFunction(ext: int, t: MethType, funcName: Option<string>, func: nat) returns (rc: int)
      requires Valid()
      modifies this
      ensures Valid()
      ensures ext !in namedModules ==>
                rc == -1 && modules == old(modules) && error == Some("Unknown ExtensionModule value")
      ensures ext in namedModules && t.OtherMethType? ==>
                rc == -1 && modules == old(modules) && error == Some("Unknown MethType value")
      ensures ext in namedModules && !t.OtherMethType? ==>
                && rc == 0
                && error == old(error)
                && modules.Keys == old(modules.Keys) + {ext}
                && (forall m :: m in old(modules) && m != ext ==> modules[m] == old(modules[m]))
                && modules[ext] == [MethodDef(funcName, func, MethFlags(t).value, Some(""))] +
                                      (if ext in old(modules) then old(modules[ext]) else [Guard])
    {
      if ext !in namedModules {
        error := Some("Unknown ExtensionModule value");
        return -1;
      }

      var mlFlags: bv32;
      match t {
        case NoArgs => mlFlags := METH_NOARGS;
        case Args => mlFlags := METH_VARARGS;
        case Keywords => mlFlags := METH_VARARGS | METH_KEYWORDS;
        case OtherMethType(_) =>
          error := Some("Unknown MethType value");
          return -1;
      }

      var def := MethodDef(funcName, func, mlFlags, Some(""));

      if ext !in modules {
        modules := modules[ext := []];
        // add the guard
        modules := modules[ext := modules[ext] + [Guard]];
      }

      // insert at the front so that the guard stays last
      modules := modules[ext := [def] + modules[ext]];
      rc := 0;
    }
  }

  /** The table step of a successful registration keeps the guard last,
      grows the vector by one (by two on a module's first registration),
      and puts the new definition first. */
  lemma RegistrationKeepsGuardLast(v: Option<seq<MethodDef>>, t: MethType, funcName: Option<string>, func: nat)
    requires !t.OtherMethType?
    requires v.Some? ==> GuardedTable(v.value)
    ensures var def := MethodDef(funcName, func, MethFlags(t).value, Some(""));
            var w := [def] + (if v.Some? then v.value else [Guard]);
            && GuardedTable(w)
            && w[0] == def
            && |w| == (if v.Some? then |v.value| + 1 else 2)
  {
  }
}
