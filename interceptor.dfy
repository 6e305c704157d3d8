/**
 * The intercepting decorator (src/lib.rs:17-116): it holds an inner service,
 * the options and an ordered list of request mutators. A call tags the
 * request, runs every mutator over it in registration order, parses the
 * routing identity from the resulting path, dispatches the resulting request
 * to the inner service and returns the inner result untouched. The future,
 * the clock and the logging sink are not modelled: `Call` hands back the
 * identity it would log beside the result.
 */
module Interceptor {
  import opened Wrappers
  import opened Config
  import opened Http
  import opened Paths

  /** A registered request transform (`fn(Request) -> Request`). */
  type Mutator = Request -> Request

  /** The inner service's readiness answer (`Poll<Result<(), E>>`). */
  datatype Poll<+E> = Ready(result: Result<(), E>) | Pending

  /** The task context a readiness check runs in. */
  datatype Context = Context(task: nat)

  /**
   * The wrapped service, seen only through its call contract: what it answers
   * for a request and for a readiness check.
   */
  datatype Service<Resp, Err> = Service(call: Request -> Result<Resp, Err>, pollReady: Context -> Poll<Err>)

  /** The `u32` value `call` inserts into every request's extensions. */
  const CallMarker: nat := 32

  /** The request as it enters the mutators: carrying the interception marker. */
  function Tag(req: Request): (tagged: Request)
    ensures tagged.marker == Some(CallMarker)
    ensures tagged.path == req.path && tagged.headers == req.headers
  {
    req.(marker := Some(CallMarker))
  }

  /** The mutators applied in order, each to the previous one's output. */
  function Pipeline(funcs: seq<Mutator>, req: Request): Request
  {
    if funcs == [] then req else Pipeline(funcs[1..], funcs[0](req))
  }

  /** Running two lists of mutators back to back is running their concatenation. */
  lemma {:induction false} PipelineConcat(fs: seq<Mutator>, gs: seq<Mutator>, req: Request)
    ensures Pipeline(fs + gs, req) == Pipeline(gs, Pipeline(fs, req))
  {
    if fs == [] {
      assert fs + gs == gs;
    } else {
      assert (fs + gs)[1..] == fs[1..] + gs;
      PipelineConcat(fs[1..], gs, fs[0](req));
    }
  }

  /** A mutator registered last runs on the output of all earlier ones. */
  lemma PipelineSnoc(fs: seq<Mutator>, f: Mutator, req: Request)
    ensures Pipeline(fs + [f], req) == f(Pipeline(fs, req))
  {
    PipelineConcat(fs, [f], req);
  }

  /** No mutators leave the request as it was; three run first to last. */
  lemma PipelineInOrder(req: Request, m1: Mutator, m2: Mutator, m3: Mutator)
    ensures Pipeline([], req) == req
    ensures Pipeline([m1, m2, m3], req) == m3(m2(m1(req)))
  {
    var r1, r2 := m1(req), m2(m1(req));
    assert [m1, m2, m3][1..] == [m2, m3] && [m2, m3][1..] == [m3] && [m3][1..] == [];
    assert Pipeline([m3], r2) == m3(r2);
    assert Pipeline([m2, m3], r1) == Pipeline([m3], r2);
  }

  /** The mutators keep the request path. */
  ghost predicate KeepPath(funcs: seq<Mutator>) {
    forall i, r :: 0 <= i < |funcs| ==> funcs[i](r).path == r.path
  }

  /** Mutators that each keep the path keep it together. */
  lemma {:induction false} PipelineKeepsPath(funcs: seq<Mutator>, req: Request)
    requires KeepPath(funcs)
    ensures Pipeline(funcs, req).path == req.path
  {
    if funcs != [] {
      assert KeepPath(funcs[1..]) by {
        forall i, r | 0 <= i < |funcs[1..]| ensures funcs[1..][i](r).path == r.path {
          assert funcs[1..][i] == funcs[i + 1];
        }
      }
      PipelineKeepsPath(funcs[1..], funcs[0](req));
    }
  }

  /**
   * The request that reaches the inner service: the tagged request, then
   * each mutator on the previous output, first to last, so that the last
   * registered mutator has the final word.
   */
  function Dispatched(funcs: seq<Mutator>, req: Request): (r: Request)
    ensures funcs == [] ==> r == Tag(req)
    ensures funcs != [] ==> r == funcs[|funcs| - 1](Pipeline(funcs[..|funcs| - 1], Tag(req)))
  {
    if funcs == [] then
      Tag(req)
    else
      var init, last := funcs[..|funcs| - 1], funcs[|funcs| - 1];
      assert init + [last] == funcs;
      PipelineSnoc(init, last, Tag(req));
      Pipeline(funcs, Tag(req))
  }

  class InterceptedService<Resp, Err> {
    var inner: Service<Resp, Err>
    var options: Options
    var funcs: seq<Mutator>

    /** `intercept(t, options)`: a decorator with no mutators yet. */
    constructor (t: Service<Resp, Err>, options: Options)
      ensures inner == t && this.options == options && funcs == []
    {
      inner := t;
      this.options := options;
      funcs := [];
    }

    /**
     * `with(fun)`: register one more mutator, after all earlier ones; the
     * same decorator is returned for chaining.
     */
    method With(fun: Mutator) returns (self: InterceptedService<Resp, Err>)
      modifies this
      ensures self == this
      ensures funcs == old(funcs) + [fun]
      ensures inner == old(inner) && options == old(options)
      ensures forall req :: Dispatched(funcs, req) == fun(Dispatched(old(funcs), req))
    {
      funcs := funcs + [fun];
      forall req ensures Dispatched(funcs, req) == fun(Dispatched(old(funcs), req)) {
        PipelineSnoc(old(funcs), fun, Tag(req));
      }
      self := this;
    }

    /** `poll_ready`: the inner service's readiness, passed through. */
    method PollReady(cx: Context) returns (p: Poll<Err>)
      ensures p == inner.pollReady(cx)
    {
      p := inner.pollReady(cx);
    }

    /**
     * `call`: run the mutators over the tagged request, parse the identity
     * from the path they produce, dispatch to the inner service and return
     * its result, success or error, unchanged. The parse panics on a path
     * without a leading `/`, so the mutated path must have one.
     */
    method Call(req: Request) returns (result: Result<Resp, Err>, info: Info)
      requires HasLeadingSlash(Dispatched(funcs, req).path)
      // the inner result is returned as it is, on the Ok and the Err path alike
      ensures result == inner.call(Dispatched(funcs, req))
      ensures info == ParsePath(Dispatched(funcs, req).path)
    {
      var svc := inner;
      var r := Tag(req);
      var i := 0;
      while i < |funcs|
        invariant 0 <= i <= |funcs|
        invariant Pipeline(funcs, Tag(req)) == Pipeline(funcs[i..], r)
      {
        assert funcs[i..][1..] == funcs[i + 1..];
        r := funcs[i](r);
        i := i + 1;
      }
      info := ParsePath(r.path);
      result := svc.call(r);
    }
  }

  /**
   * The logged identity comes from the mutated path; it is the identity of
   * the path as the caller addressed it when no mutator rewrites the path.
   */
  lemma IdentityFromCallerPath(funcs: seq<Mutator>, req: Request)
    requires KeepPath(funcs) && HasLeadingSlash(req.path)
    ensures Dispatched(funcs, req).path == req.path
    ensures ParsePath(Dispatched(funcs, req).path) == ParsePath(req.path)
  {
    PipelineKeepsPath(funcs, Tag(req));
  }
}
