/**
 * The mutable store behind the interpreter: every Environment, LoxFunction,
 * LoxClass and LoxInstance ever created (craftinginterpreters/Environment.py,
 * LoxCallable.py). Operations that create objects or change a dictionary in
 * place are methods of this class; the lookups they are specified by are the
 * functions of Environment and Callables.
 */
module Runtime {
  import opened Basics
  import opened Ast
  import opened Values
  import opened Environment
  import opened Callables

  class Heap {
    var frames: seq<Frame>
    var functions: seq<FunctionObj>
    var classes: seq<ClassObj>
    var instances: seq<InstanceObj>

    function State(): HeapState
      reads this
    {
      HeapState(frames, functions, classes, instances)
    }

    ghost predicate Valid()
      reads this
    {
      Wf(State())
    }

    /** The globals environment, empty. */
    constructor ()
      ensures Valid()
      ensures frames == [Frame(map[], None)] && functions == [] && classes == [] && instances == []
    {
      frames := [Frame(map[], None)];
      functions := [];
      classes := [];
      instances := [];
    }

    /** `Environment(enclosing)`: a new empty environment. */
    method NewFrame(enclosing: nat) returns (e: nat)
      requires Valid() && enclosing < |frames|
      modifies this`frames
      ensures Valid() && Grows(old(State()), State())
      ensures frames == old(frames) + [Frame(map[], Some(enclosing))] && e == |old(frames)|
    {
      e := |frames|;
      frames := frames + [Frame(map[], Some(enclosing))];
      assert forall i :: 0 <= i < e ==> frames[i] == old(frames)[i];
    }

    /** `define`: bind name in environment e itself. */
    method Define(e: nat, name: string, v: Value)
      requires Valid() && e < |frames| && ValueIn(State(), v)
      modifies this`frames
      ensures Valid() && Grows(old(State()), State())
      ensures frames == Defined(old(frames), e, name, v)
    {
      frames := frames[e := frames[e].(values := frames[e].values[name := v])];
      assert forall i :: 0 <= i < |frames| && i != e ==> frames[i] == old(frames)[i];
    }

    /** `store`: walk outward from e and rebind name where it is found; false is the NameError. */
    method Store(e: nat, name: string, v: Value) returns (found: bool)
      requires Valid() && e < |frames| && ValueIn(State(), v)
      modifies this`frames
      ensures Valid() && Grows(old(State()), State())
      ensures found == Assigned(old(frames), e, name, v).Some?
      ensures frames == if found then Assigned(old(frames), e, name, v).value else old(frames)
    {
      var cur: nat := e;
      while true
        invariant cur < |frames| && frames == old(frames)
        invariant Assigned(frames, e, name, v) == Assigned(frames, cur, name, v)
        decreases cur
      {
        if name in frames[cur].values {
          Define(cur, name, v);
          return true;
        }
        match frames[cur].enclosing {
          case None => return false;
          case Some(p) => cur := p;
        }
      }
    }

    /**
     * `assignAt(d, name, value)`: store starting from the d-th ancestor. Err is
     * the AttributeError of a chain that ends too soon, Ok(false) the NameError.
     */
    method AssignAt(e: nat, d: nat, name: string, v: Value) returns (r: Result<bool, string>)
      requires Valid() && e < |frames| && ValueIn(State(), v)
      modifies this`frames
      ensures Valid() && Grows(old(State()), State())
      ensures r.Err? <==> Ancestor(old(frames), e, d).None?
      ensures r.Ok? ==> r.value == Assigned(old(frames), Ancestor(old(frames), e, d).value, name, v).Some?
      ensures r.Err? || !r.value ==> frames == old(frames)
      ensures r.Ok? && r.value ==> frames == Assigned(old(frames), Ancestor(old(frames), e, d).value, name, v).value
    {
      match Ancestor(frames, e, d) {
        case None => r := Err("'NoneType' object has no attribute 'ancestor'");
        case Some(a) =>
          var found := Store(a, name, v);
          r := Ok(found);
      }
    }

    /** `LoxFunction(declaration, closure, isInitializer)`. */
    method NewFunction(decl: FunDecl, closure: nat, isInitializer: bool) returns (f: nat)
      requires Valid() && closure < |frames|
      modifies this`functions
      ensures Valid() && Grows(old(State()), State())
      ensures functions == old(functions) + [FunctionObj(decl, closure, isInitializer)] && f == |old(functions)|
    {
      f := |functions|;
      functions := functions + [FunctionObj(decl, closure, isInitializer)];
      assert forall i :: 0 <= i < |frames| ==> ValuesIn(old(State()), frames[i].values);
      assert forall i :: 0 <= i < |instances| ==> ValuesIn(old(State()), instances[i].fields);
    }

    /** `LoxClass(name, methods, superclass)`. */
    method NewClass(name: string, methods: map<string, nat>, superclass: Option<nat>) returns (c: nat)
      requires Valid()
      requires forall k :: k in methods ==> methods[k] < |functions|
      requires superclass.Some? ==> superclass.value < |classes|
      modifies this`classes
      ensures Valid() && Grows(old(State()), State())
      ensures classes == old(classes) + [ClassObj(name, methods, superclass)] && c == |old(classes)|
    {
      c := |classes|;
      classes := classes + [ClassObj(name, methods, superclass)];
      assert forall i :: 0 <= i < |frames| ==> ValuesIn(old(State()), frames[i].values);
      assert forall i :: 0 <= i < |instances| ==> ValuesIn(old(State()), instances[i].fields);
    }

    /** `LoxInstance(klass)`: a new instance without fields. */
    method NewInstance(klass: nat) returns (i: nat)
      requires Valid() && klass < |classes|
      modifies this`instances
      ensures Valid() && Grows(old(State()), State())
      ensures instances == old(instances) + [InstanceObj(klass, map[])] && i == |old(instances)|
    {
      i := |instances|;
      instances := instances + [InstanceObj(klass, map[])];
      assert forall j :: 0 <= j < |frames| ==> ValuesIn(old(State()), frames[j].values);
      assert forall j :: 0 <= j < |old(instances)| ==> ValuesIn(old(State()), instances[j].fields);
    }

    /** `LoxInstance.set`: add or replace a field. */
    method SetField(i: nat, name: string, v: Value)
      requires Valid() && i < |instances| && ValueIn(State(), v)
      modifies this`instances
      ensures Valid() && Grows(old(State()), State())
      ensures State() == WithField(old(State()), i, name, v)
    {
      SetThenGet(State(), i, name, v);
      instances := instances[i := instances[i].(fields := instances[i].fields[name := v])];
    }

    /** `LoxFunction.bind`: a copy of f whose closure is a new environment, enclosed by f's, defining `this`. */
    method Bind(f: nat, instance: Value) returns (g: nat)
      requires Valid() && f < |functions| && ValueIn(State(), instance)
      modifies this`frames, this`functions
      ensures Valid() && Grows(old(State()), State())
      ensures g == |old(functions)|
      ensures functions == old(functions) + [FunctionObj(old(functions)[f].declaration, |old(frames)|, old(functions)[f].isInitializer)]
      ensures frames == old(frames) + [Frame(map["this" := instance], Some(old(functions)[f].closure))]
    {
      var fn := functions[f];
      var e := NewFrame(fn.closure);
      Define(e, "this", instance);
      g := NewFunction(fn.declaration, e, fn.isInitializer);
    }
  }
}
