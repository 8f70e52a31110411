/**
 * Lookup and assignment along chains of environments
 * (craftinginterpreters/Environment.py), as functions over the frame arena.
 * A Python `NameError` is the `None` result.
 */
module Environment {
  import opened Basics
  import opened Values

  /** `ancestor(d)`: follow `enclosing` d times; None where the chain ends too soon. */
  function Ancestor(frames: seq<Frame>, e: nat, d: nat): (r: Option<nat>)
    requires Linked(frames) && e < |frames|
    ensures r.Some? ==> r.value <= e
    ensures r.Some? && d > 0 ==> r.value < e
    decreases d
  {
    if d == 0 then Some(e)
    else match frames[e].enclosing
      case None => None
      case Some(p) => Ancestor(frames, p, d - 1)
  }

  /** Ancestry depends only on the `enclosing` links, which no later change to the arena alters. */
  lemma {:induction false} AncestorStable(a: seq<Frame>, b: seq<Frame>, e: nat, d: nat)
    requires Linked(a) && Linked(b) && e < |a| <= |b|
    requires forall i :: 0 <= i < |a| ==> b[i].enclosing == a[i].enclosing
    ensures Ancestor(a, e, d) == Ancestor(b, e, d)
    decreases d
  {
    if d > 0 && a[e].enclosing.Some? {
      AncestorStable(a, b, a[e].enclosing.value, d - 1);
    }
  }

  /** The environment d steps out from e exists and binds name. */
  predicate BindsAt(frames: seq<Frame>, e: nat, d: nat, name: string)
    requires Linked(frames) && e < |frames|
  {
    var a := Ancestor(frames, e, d);
    a.Some? && name in frames[a.value].values
  }

  /** The number of steps from e to the nearest environment binding name. */
  function Distance(frames: seq<Frame>, e: nat, name: string): (r: Option<nat>)
    requires Linked(frames) && e < |frames|
    ensures r.Some? ==> BindsAt(frames, e, r.value, name)
    decreases e
  {
    if name in frames[e].values then Some(0)
    else match frames[e].enclosing
      case None => None
      case Some(p) =>
        var r := Distance(frames, p, name);
        if r.Some? then Some(r.value + 1) else None
  }

  /** No environment closer than the one Distance finds binds the name, and None means no environment on the chain does. */
  lemma {:induction false} DistanceIsNearest(frames: seq<Frame>, e: nat, name: string, d: nat)
    requires Linked(frames) && e < |frames|
    requires Distance(frames, e, name).None? || d < Distance(frames, e, name).value
    ensures !BindsAt(frames, e, d, name)
    decreases e
  {
    if d > 0 && name !in frames[e].values && frames[e].enclosing.Some? {
      DistanceIsNearest(frames, frames[e].enclosing.value, name, d - 1);
    }
  }

  /** `fetch`: this environment's binding, else the enclosing one's. */
  function Fetch(frames: seq<Frame>, e: nat, name: string): Option<Value>
    requires Linked(frames) && e < |frames|
    decreases e
  {
    if name in frames[e].values then Some(frames[e].values[name])
    else match frames[e].enclosing
      case None => None
      case Some(p) => Fetch(frames, p, name)
  }

  /** Fetch returns the binding of the nearest environment on the chain, and fails exactly when no environment binds the name. */
  lemma {:induction false} FetchIsNearest(frames: seq<Frame>, e: nat, name: string)
    requires Linked(frames) && e < |frames|
    ensures Fetch(frames, e, name).Some? <==> Distance(frames, e, name).Some?
    ensures Distance(frames, e, name).Some? ==>
      Fetch(frames, e, name) == Some(frames[Ancestor(frames, e, Distance(frames, e, name).value).value].values[name])
    decreases e
  {
    if name !in frames[e].values && frames[e].enclosing.Some? {
      FetchIsNearest(frames, frames[e].enclosing.value, name);
    }
  }

  /** Every value an environment chain yields refers to existing objects. */
  lemma {:induction false} FetchInHeap(h: HeapState, e: nat, name: string)
    requires Wf(h) && e < |h.frames|
    ensures Fetch(h.frames, e, name).Some? ==> ValueIn(h, Fetch(h.frames, e, name).value)
    decreases e
  {
    if name in h.frames[e].values {
      assert ValuesIn(h, h.frames[e].values);
    } else if h.frames[e].enclosing.Some? {
      FetchInHeap(h, h.frames[e].enclosing.value, name);
    }
  }

  /** `getAt(d, name)`: fetch starting from the d-th ancestor; None in the result's Option is the NameError. */
  function GetAt(frames: seq<Frame>, e: nat, d: nat, name: string): (r: Result<Option<Value>, string>)
    requires Linked(frames) && e < |frames|
    ensures r.Err? <==> Ancestor(frames, e, d).None?
  {
    match Ancestor(frames, e, d)
    case None => Err("'NoneType' object has no attribute 'ancestor'")
    case Some(a) => Ok(Fetch(frames, a, name))
  }

  /** When the depth handed to getAt is the true distance of the name, getAt finds what a dynamic fetch finds. */
  lemma GetAtAgreesWithFetch(frames: seq<Frame>, e: nat, name: string)
    requires Linked(frames) && e < |frames|
    requires Distance(frames, e, name).Some?
    ensures GetAt(frames, e, Distance(frames, e, name).value, name) == Ok(Fetch(frames, e, name))
  {
    FetchIsNearest(frames, e, name);
    var a := Ancestor(frames, e, Distance(frames, e, name).value).value;
    assert name in frames[a].values;
  }

  /** `define`: bind name in environment e itself. */
  function Defined(frames: seq<Frame>, e: nat, name: string, v: Value): (r: seq<Frame>)
    requires e < |frames|
    ensures |r| == |frames| && name in r[e].values && r[e].values[name] == v
    ensures forall i :: 0 <= i < |frames| ==> r[i].enclosing == frames[i].enclosing
    ensures forall i :: 0 <= i < |frames| && i != e ==> r[i] == frames[i]
  {
    frames[e := frames[e].(values := frames[e].values[name := v])]
  }

  /**
   * `store`: rebind name in the nearest environment that binds it; None when
   * none does. Only that environment changes: the result is `define` there.
   */
  function Assigned(frames: seq<Frame>, e: nat, name: string, v: Value): (r: Option<seq<Frame>>)
    requires Linked(frames) && e < |frames|
    ensures r.Some? <==> Distance(frames, e, name).Some?
    ensures r.Some? ==> r.value == Defined(frames, Ancestor(frames, e, Distance(frames, e, name).value).value, name, v)
    ensures r.Some? ==> |r.value| == |frames|
    ensures r.Some? ==> forall i :: 0 <= i < |frames| ==>
      r.value[i].enclosing == frames[i].enclosing && r.value[i].values.Keys == frames[i].values.Keys
    ensures r.Some? && name !in frames[e].values ==> r.value[e] == frames[e]
    ensures r.Some? ==> forall i :: e < i < |frames| ==> r.value[i] == frames[i]
    decreases e
  {
    if name in frames[e].values then Some(Defined(frames, e, name, v))
    else match frames[e].enclosing
      case None => None
      case Some(p) => Assigned(frames, p, name, v)
  }

  /** Assignment succeeds exactly when lookup would, and afterwards lookup from the same place yields the assigned value. */
  lemma {:induction false} FetchAfterAssign(frames: seq<Frame>, e: nat, name: string, v: Value)
    requires Linked(frames) && e < |frames|
    ensures Assigned(frames, e, name, v).Some? <==> Fetch(frames, e, name).Some?
    ensures Assigned(frames, e, name, v).Some? ==>
      Linked(Assigned(frames, e, name, v).value) && Fetch(Assigned(frames, e, name, v).value, e, name) == Some(v)
    decreases e
  {
    if name !in frames[e].values && frames[e].enclosing.Some? {
      FetchAfterAssign(frames, frames[e].enclosing.value, name, v);
    }
  }

  /**
   * Rebinding the name in the environment its distance leads to is what a
   * lookup from the starting environment then finds: no nearer environment
   * binds it to hide the new value.
   */
  lemma {:induction false} FetchAfterDefineAtDistance(frames: seq<Frame>, e: nat, d: nat, name: string, v: Value)
    requires Linked(frames) && e < |frames| && Distance(frames, e, name) == Some(d)
    ensures Linked(Defined(frames, Ancestor(frames, e, d).value, name, v))
    ensures Fetch(Defined(frames, Ancestor(frames, e, d).value, name, v), e, name) == Some(v)
    decreases e
  {
    var a := Ancestor(frames, e, d).value;
    FetchAfterDefine(frames, a, name, v);
    if d > 0 {
      var p := frames[e].enclosing.value;
      FetchAfterDefineAtDistance(frames, p, d - 1, name, v);
    }
  }

  /** Defining a name in an environment makes lookup from it find the new value, whatever outer bindings exist. */
  lemma FetchAfterDefine(frames: seq<Frame>, e: nat, name: string, v: Value)
    requires Linked(frames) && e < |frames|
    ensures Linked(Defined(frames, e, name, v))
    ensures Fetch(Defined(frames, e, name, v), e, name) == Some(v)
    ensures Distance(Defined(frames, e, name, v), e, name) == Some(0)
  {
  }
}
