/** Function custom resources on the API server, and the three finalizer helpers of pkg/utils/k8sutil.go.
    Every accepted write is stamped with a fresh resource version; an update carrying an older version is
    refused; an object marked for deletion disappears when its last finalizer goes. */
module FunctionApi {
  type Key = string

  /** What a Function asks of the autoscaling step of the controller. */
  datatype Autoscaling = NoAutoscaler | NoMetrics | ResourceMetric | ObjectMetric

  /** gen changes with every update of the spec that the event filter of the controller lets through. */
  datatype Function = Function(uid: nat, rv: nat, deleting: bool, finalizers: seq<string>, scaling: Autoscaling, gen: nat)

  type Functions = map<Key, Function>

  /** The finalizer the controller holds Functions by. */
  const FUNCTION_FINALIZER := "kubeless.io/function"

  predicate HasFinalizer(finalizers: seq<string>, f: string) {
    f in finalizers
  }

  function WithoutFinalizer(finalizers: seq<string>, f: string): (r: seq<string>)
    ensures f !in r
    ensures forall g :: g in r <==> g in finalizers && g != f
  {
    if finalizers == [] then []
    else if finalizers[0] == f then WithoutFinalizer(finalizers[1..], f)
    else [finalizers[0]] + WithoutFinalizer(finalizers[1..], f)
  }

  lemma {:induction false} WithoutFinalizerAppend(a: seq<string>, x: string, f: string)
    ensures WithoutFinalizer(a + [x], f) == WithoutFinalizer(a, f) + (if x == f then [] else [x])
  {
    if a == [] {
      assert a + [x] == [x];
    } else {
      assert (a + [x])[1..] == a[1..] + [x];
      WithoutFinalizerAppend(a[1..], x, f);
    }
  }

  /** The object map after the API server stores obj under key. */
  function Stored(cur: Functions, key: Key, obj: Function): (r: Functions)
  {
    if obj.deleting && obj.finalizers == [] then cur - {key} else cur[key := obj]
  }

  /** Optimistic concurrency: an update is accepted only against the version it was read at. */
  predicate Accepts(cur: Functions, key: Key, obj: Function) {
    key in cur && cur[key].rv == obj.rv
  }

  /** The Function store of an API server, as the generated client sees it. */
  class Server {
    var functions: Functions
    var nextRv: nat

    constructor ()
      ensures functions == map[] && nextRv == 0
    {
      functions := map[];
      nextRv := 0;
    }

    method Update(key: Key, obj: Function) returns (accepted: bool)
      modifies this
      ensures accepted == Accepts(old(functions), key, obj)
      ensures functions == if accepted then Stored(old(functions), key, obj.(rv := old(nextRv))) else old(functions)
      ensures nextRv == if accepted then old(nextRv) + 1 else old(nextRv)
    {
      accepted := key in functions && functions[key].rv == obj.rv;
      if accepted {
        functions := Stored(functions, key, obj.(rv := nextRv));
        nextRv := nextRv + 1;
      }
    }
  }

  method FunctionObjHasFinalizer(obj: Function, f: string) returns (found: bool)
    ensures found == HasFinalizer(obj.finalizers, f)
  {
    for i := 0 to |obj.finalizers|
      invariant f !in obj.finalizers[..i]
    {
      if obj.finalizers[i] == f {
        return true;
      }
    }
    assert obj.finalizers == obj.finalizers[..|obj.finalizers|];
    return false;
  }

  method FunctionObjAddFinalizer(server: Server, key: Key, obj: Function, f: string) returns (accepted: bool)
    modifies server
    ensures accepted == Accepts(old(server.functions), key, obj)
    ensures server.functions ==
            if accepted then Stored(old(server.functions), key,
                                    obj.(finalizers := obj.finalizers + [f], rv := old(server.nextRv)))
            else old(server.functions)
    ensures server.nextRv == if accepted then old(server.nextRv) + 1 else old(server.nextRv)
  {
    var clone := obj.(finalizers := obj.finalizers + [f]);
    accepted := server.Update(key, clone);
  }

  method FunctionObjRemoveFinalizer(server: Server, key: Key, obj: Function, f: string) returns (accepted: bool)
    modifies server
    ensures accepted == Accepts(old(server.functions), key, obj)
    ensures server.functions ==
            if accepted then Stored(old(server.functions), key,
                                    obj.(finalizers := WithoutFinalizer(obj.finalizers, f), rv := old(server.nextRv)))
            else old(server.functions)
    ensures server.nextRv == if accepted then old(server.nextRv) + 1 else old(server.nextRv)
  {
    var kept := [];
    for i := 0 to |obj.finalizers|
      invariant kept == WithoutFinalizer(obj.finalizers[..i], f)
      modifies {}
    {
      var item := obj.finalizers[i];
      assert obj.finalizers[..i + 1] == obj.finalizers[..i] + [item];
      WithoutFinalizerAppend(obj.finalizers[..i], item, f);
      if item != f {
        kept := kept + [item];
      }
    }
    assert obj.finalizers[..|obj.finalizers|] == obj.finalizers;
    accepted := server.Update(key, obj.(finalizers := kept));
  }
}
