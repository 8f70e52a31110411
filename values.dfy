/**
 * Runtime values and the object arenas of the interpreter
 * (craftinginterpreters/Environment.py, LoxCallable.py).
 *
 * Environments, functions, classes and instances are Python objects compared
 * by identity; here each lives in an arena (a sequence) and a value refers to
 * it by index, so two references are equal exactly when they name the same
 * object.
 */
module Values {
  import opened Basics
  import opened Ast

  datatype Value =
    | Nil
    | Bool(b: bool)
    | Num(r: real)
    | Str(s: string)
    | FunRef(f: nat)        // a LoxFunction
    | ClassRef(c: nat)      // a LoxClass
    | InstanceRef(i: nat)   // a LoxInstance
    | Clock                 // the single builtinClock object bound to `clock`

  /** An Environment: its own names and the environment it encloses in. */
  datatype Frame = Frame(values: map<string, Value>, enclosing: Option<nat>)

  datatype FunctionObj = FunctionObj(declaration: FunDecl, closure: nat, isInitializer: bool)

  datatype ClassObj = ClassObj(name: string, methods: map<string, nat>, superclass: Option<nat>)

  datatype InstanceObj = InstanceObj(klass: nat, fields: map<string, Value>)

  datatype HeapState = HeapState(
    frames: seq<Frame>,
    functions: seq<FunctionObj>,
    classes: seq<ClassObj>,
    instances: seq<InstanceObj>)

  /** A value refers only to objects that exist. */
  predicate ValueIn(h: HeapState, v: Value) {
    match v
    case FunRef(f) => f < |h.functions|
    case ClassRef(c) => c < |h.classes|
    case InstanceRef(i) => i < |h.instances|
    case _ => true
  }

  predicate ValuesIn(h: HeapState, m: map<string, Value>) {
    forall k :: k in m ==> ValueIn(h, m[k])
  }

  /** Every environment encloses in an older one, so chains are finite and acyclic. */
  predicate Linked(frames: seq<Frame>) {
    forall i :: 0 <= i < |frames| && frames[i].enclosing.Some? ==> frames[i].enclosing.value < i
  }

  /** Well-formedness of the heap: frame 0 is the globals, every index points at an older or existing object. */
  predicate Wf(h: HeapState) {
    && |h.frames| > 0
    && h.frames[0].enclosing.None?
    && Linked(h.frames)
    && (forall i :: 0 <= i < |h.frames| ==> ValuesIn(h, h.frames[i].values))
    && (forall i :: 0 <= i < |h.functions| ==> h.functions[i].closure < |h.frames|)
    && (forall i :: 0 <= i < |h.classes| ==>
          && (h.classes[i].superclass.Some? ==> h.classes[i].superclass.value < i)
          && (forall k :: k in h.classes[i].methods ==> h.classes[i].methods[k] < |h.functions|))
    && (forall i :: 0 <= i < |h.instances| ==>
          h.instances[i].klass < |h.classes| && ValuesIn(h, h.instances[i].fields))
  }

  /**
   * How the heap may change while a program runs: objects are only added,
   * environments keep their parents, functions and classes never change and
   * instances keep their class (their fields and the names in environments
   * may change).
   */
  predicate Grows(a: HeapState, b: HeapState) {
    && |a.frames| <= |b.frames|
    && (forall i :: 0 <= i < |a.frames| ==> b.frames[i].enclosing == a.frames[i].enclosing)
    && a.functions <= b.functions
    && a.classes <= b.classes
    && |a.instances| <= |b.instances|
    && (forall i :: 0 <= i < |a.instances| ==> b.instances[i].klass == a.instances[i].klass)
  }

  lemma GrowsTransitive(a: HeapState, b: HeapState, c: HeapState)
    requires Grows(a, b) && Grows(b, c)
    ensures Grows(a, c)
  {
  }

  lemma ValueInGrows(a: HeapState, b: HeapState, v: Value)
    requires Grows(a, b) && ValueIn(a, v)
    ensures ValueIn(b, v)
  {
  }
}
