/**
 * What can be asked of functions, classes and instances without running code
 * (craftinginterpreters/LoxCallable.py): arity, method lookup along the
 * superclass chain, property lookup on an instance, parameter binding and
 * the value a call returns.
 */
module Callables {
  import opened Basics
  import opened Ast
  import opened Values
  import opened Environment

  /** The name of the initializer method. */
  const InitName: string := "init"

  /** `findMethod`: the class's own method, else its superclass's. */
  function FindMethod(h: HeapState, c: nat, name: string): (r: Option<nat>)
    requires Wf(h) && c < |h.classes|
    ensures r.Some? ==> r.value < |h.functions|
    decreases c
  {
    if name in h.classes[c].methods then Some(h.classes[c].methods[name])
    else match h.classes[c].superclass
      case None => None
      case Some(s) => FindMethod(h, s, name)
  }

  /** The class d steps up c's superclass chain. */
  function SuperAt(h: HeapState, c: nat, d: nat): (r: Option<nat>)
    requires Wf(h) && c < |h.classes|
    ensures r.Some? ==> r.value <= c
    decreases d
  {
    if d == 0 then Some(c)
    else match h.classes[c].superclass
      case None => None
      case Some(s) => SuperAt(h, s, d - 1)
  }

  /** Every method declared by any class up the chain can be found from c (possibly overridden by a nearer one). */
  lemma {:induction false} InheritedMethodsFound(h: HeapState, c: nat, d: nat, name: string)
    requires Wf(h) && c < |h.classes|
    requires SuperAt(h, c, d).Some? && name in h.classes[SuperAt(h, c, d).value].methods
    ensures FindMethod(h, c, name).Some?
    decreases d
  {
    if d > 0 && name !in h.classes[c].methods {
      InheritedMethodsFound(h, h.classes[c].superclass.value, d - 1, name);
    }
  }

  /** A found method is declared by some class on the chain. */
  lemma {:induction false} FoundMethodsDeclared(h: HeapState, c: nat, name: string) returns (d: nat)
    requires Wf(h) && c < |h.classes| && FindMethod(h, c, name).Some?
    ensures SuperAt(h, c, d).Some?
    ensures var k := SuperAt(h, c, d).value;
      name in h.classes[k].methods && h.classes[k].methods[name] == FindMethod(h, c, name).value
    decreases c
  {
    if name in h.classes[c].methods {
      d := 0;
    } else {
      var d' := FoundMethodsDeclared(h, h.classes[c].superclass.value, name);
      d := d' + 1;
    }
  }

  /** Classes never change, so method lookup gives the same answer in any later heap. */
  lemma {:induction false} FindMethodStable(a: HeapState, b: HeapState, c: nat, name: string)
    requires Wf(a) && Wf(b) && Grows(a, b) && c < |a.classes|
    ensures FindMethod(a, c, name) == FindMethod(b, c, name)
    decreases c
  {
    assert b.classes[c] == a.classes[c];
    if name !in a.classes[c].methods && a.classes[c].superclass.Some? {
      FindMethodStable(a, b, a.classes[c].superclass.value, name);
    }
  }

  /** `arity`: parameters of a function, of a class's initializer (0 without one), 0 for clock; None for values that cannot be called. */
  function Arity(h: HeapState, callee: Value): (r: Option<nat>)
    requires Wf(h) && ValueIn(h, callee)
    ensures r.Some? <==> (callee.FunRef? || callee.ClassRef? || callee.Clock?)
    ensures callee.ClassRef? && FindMethod(h, callee.c, InitName).None? ==> r == Some(0)
  {
    match callee
    case FunRef(f) => Some(|h.functions[f].declaration.params|)
    case ClassRef(c) =>
      (match FindMethod(h, c, InitName)
       case None => Some(0)
       case Some(f) => Some(|h.functions[f].declaration.params|))
    case Clock => Some(0)
    case _ => None
  }

  /** The parameter environment of a call: each parameter defined in turn with its argument, as `zip` pairs them. */
  function BindParams(m: map<string, Value>, params: seq<Token>, args: seq<Value>): (r: map<string, Value>)
    ensures r.Keys >= m.Keys
    decreases |params|
  {
    var n := if |params| < |args| then |params| else |args|;
    if n == 0 then m
    else BindParams(m, params[..n - 1], args[..n - 1])[params[n - 1].lexeme := args[n - 1]]
  }

  predicate DistinctNames(params: seq<Token>) {
    forall i, j :: 0 <= i < j < |params| ==> params[i].lexeme != params[j].lexeme
  }

  /** With distinct parameter names and one argument per parameter, every parameter is bound to its own argument. */
  lemma {:induction false} BindParamsPositional(m: map<string, Value>, params: seq<Token>, args: seq<Value>, i: nat)
    requires DistinctNames(params) && |params| == |args| && i < |params|
    ensures params[i].lexeme in BindParams(m, params, args)
    ensures BindParams(m, params, args)[params[i].lexeme] == args[i]
    decreases |params|
  {
    var n := |params|;
    if i < n - 1 {
      BindParamsPositional(m, params[..n - 1], args[..n - 1], i);
    }
  }

  /** Binding parameters never touches a name that is not a parameter. */
  lemma {:induction false} BindParamsKeeps(m: map<string, Value>, params: seq<Token>, args: seq<Value>, k: string)
    requires forall i :: 0 <= i < |params| ==> params[i].lexeme != k
    requires k in m
    ensures k in BindParams(m, params, args) && BindParams(m, params, args)[k] == m[k]
    decreases |params|
  {
    var n := if |params| < |args| then |params| else |args|;
    if n > 0 {
      BindParamsKeeps(m, params[..n - 1], args[..n - 1], k);
    }
  }

  /** What an instance yields for a property name. */
  datatype Property = FieldValue(v: Value) | MethodToBind(f: nat) | NoProperty

  /** `LoxInstance.get` before binding: a field if there is one, else a method of the class chain. */
  function PropertyOf(h: HeapState, i: nat, name: string): (r: Property)
    requires Wf(h) && i < |h.instances|
    ensures r.FieldValue? <==> name in h.instances[i].fields
    ensures r.NoProperty? <==> name !in h.instances[i].fields && FindMethod(h, h.instances[i].klass, name).None?
    ensures r.MethodToBind? ==> r.f < |h.functions|
  {
    var inst := h.instances[i];
    if name in inst.fields then FieldValue(inst.fields[name])
    else match FindMethod(h, inst.klass, name)
      case Some(f) => MethodToBind(f)
      case None => NoProperty
  }

  /** `LoxInstance.set` on the arena. */
  function WithField(h: HeapState, i: nat, name: string, v: Value): (r: HeapState)
    requires i < |h.instances|
    ensures |r.instances| == |h.instances| && r.frames == h.frames && r.functions == h.functions && r.classes == h.classes
  {
    h.(instances := h.instances[i := h.instances[i].(fields := h.instances[i].fields[name := v])])
  }

  /** Setting a field and reading it back yields the value set; a field shadows any method of the same name. */
  lemma SetThenGet(h: HeapState, i: nat, name: string, v: Value)
    requires Wf(h) && i < |h.instances| && ValueIn(h, v)
    ensures Wf(WithField(h, i, name, v))
    ensures PropertyOf(WithField(h, i, name, v), i, name) == FieldValue(v)
  {
    var h' := WithField(h, i, name, v);
    forall j | 0 <= j < |h'.instances|
      ensures h'.instances[j].klass < |h'.classes| && ValuesIn(h', h'.instances[j].fields)
    {
      assert ValuesIn(h, h.instances[j].fields);
    }
    forall j | 0 <= j < |h'.frames|
      ensures ValuesIn(h', h'.frames[j].values)
    {
      assert ValuesIn(h, h.frames[j].values);
    }
  }

  /**
   * The value a finished call returns: for an initializer, `this` from its
   * closure whether or not it executed `return`; otherwise the returned value,
   * or nil. None is a NameError for an initializer whose closure lacks `this`.
   */
  function CallResult(h: HeapState, f: nat, returned: Option<Value>): (r: Option<Value>)
    requires Wf(h) && f < |h.functions|
    ensures !h.functions[f].isInitializer ==> r == Some(if returned.Some? then returned.value else Nil)
    ensures h.functions[f].isInitializer ==> r == Fetch(h.frames, h.functions[f].closure, "this")
  {
    var fn := h.functions[f];
    if fn.isInitializer then Fetch(h.frames, fn.closure, "this")
    else if returned.Some? then returned
    else Some(Nil)
  }
}
