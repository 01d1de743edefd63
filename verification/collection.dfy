/**
 * The service collection (src/automixer/services/collection.py): the
 * services the application was given, in a fixed order, started and
 * stopped together (only those that run a thread) and stepped together
 * (all of them, in order, until a step raises).
 *
 * The services themselves are represented by their kind; what the
 * collection does to them is recorded as a log of calls, in order.
 */
module Collection {
  import opened Wrappers

  /** The seven service slots, in the order of the collection's list. */
  datatype ServiceKind = Camera | Interaction | Mic | Mixing | Ocr | Slide | Transcription

  /** The list of collection.py:30-38, before the absent services are filtered out. */
  const Order: seq<ServiceKind> := [Camera, Interaction, Mic, Mixing, Ocr, Slide, Transcription]

  /** The position of a slot in that list. */
  function Rank(k: ServiceKind): nat
  {
    match k
    case Camera => 0
    case Interaction => 1
    case Mic => 2
    case Mixing => 3
    case Ocr => 4
    case Slide => 5
    case Transcription => 6
  }

  /** The services that derive from ThreadService: interaction, mic and transcription. */
  const ThreadedKinds: set<ServiceKind> := {Interaction, Mic, Transcription}

  /** The elements of `xs` that are in `keep`, in their order. */
  function Keep(xs: seq<ServiceKind>, keep: set<ServiceKind>): (r: seq<ServiceKind>)
    ensures |r| <= |xs|
  {
    if |xs| == 0 then []
    else Keep(xs[..|xs| - 1], keep) + (if xs[|xs| - 1] in keep then [xs[|xs| - 1]] else [])
  }

  /** collection.py:30-40: the slots in their fixed order, with the absent services left out. */
  function Collect(provided: set<ServiceKind>): seq<ServiceKind>
  {
    Keep(Order, provided)
  }

  /** The services the collection starts and stops: its threaded ones, in its order. */
  function Threaded(services: seq<ServiceKind>): seq<ServiceKind>
  {
    Keep(services, ThreadedKinds)
  }

  /** Strictly increasing in the fixed order; in particular no service twice. */
  predicate Increasing(ks: seq<ServiceKind>)
  {
    forall i, j :: 0 <= i < j < |ks| ==> Rank(ks[i]) < Rank(ks[j])
  }

  /** Filtering keeps exactly the elements that pass. */
  lemma {:induction false} KeepMembers(xs: seq<ServiceKind>, keep: set<ServiceKind>, k: ServiceKind)
    ensures k in Keep(xs, keep) <==> k in xs && k in keep
  {
    if |xs| > 0 {
      var init := xs[..|xs| - 1];
      KeepMembers(init, keep, k);
      assert xs == init + [xs[|xs| - 1]];
    }
  }

  /** Filtering keeps the order. */
  lemma {:induction false} KeepIncreasing(xs: seq<ServiceKind>, keep: set<ServiceKind>)
    requires Increasing(xs)
    ensures Increasing(Keep(xs, keep))
  {
    if |xs| > 0 {
      var init := xs[..|xs| - 1];
      var last := xs[|xs| - 1];
      assert Increasing(init);
      KeepIncreasing(init, keep);
      var r := Keep(xs, keep);
      var r0 := Keep(init, keep);
      if last in keep {
        forall i, j | 0 <= i < j < |r| ensures Rank(r[i]) < Rank(r[j]) {
          if j == |r| - 1 {
            KeepMembers(init, keep, r[i]);
            assert r[i] == r0[i] && r[i] in init;
            var p :| 0 <= p < |init| && init[p] == r[i];
            assert xs[p] == r[i] && xs[|xs| - 1] == last;
          } else {
            assert r[i] == r0[i] && r[j] == r0[j];
          }
        }
      } else {
        assert r == r0;
      }
    }
  }

  /**
   * The collection holds exactly the services it was given, each once, in
   * the fixed order camera, interaction, mic, mixing, OCR, slide,
   * transcription; given all seven it holds the whole list.
   */
  lemma CollectSound(provided: set<ServiceKind>)
    ensures var services := Collect(provided);
      (forall k :: k in services <==> k in provided)
      && |services| <= |Order|
      && Increasing(services)
      && (forall i, j :: 0 <= i < j < |services| ==> services[i] != services[j])
      && ((forall k: ServiceKind :: k in provided) ==> services == Order)
  {
    assert Increasing(Order);
    KeepIncreasing(Order, provided);
    var services := Collect(provided);
    forall k ensures k in services <==> k in provided {
      KeepMembers(Order, provided, k);
      InOrder(k);
    }
    forall i, j | 0 <= i < j < |services| ensures services[i] != services[j] {
      assert Rank(services[i]) < Rank(services[j]);
    }
    if forall k: ServiceKind :: k in provided {
      KeepAll(Order, provided);
    }
  }

  lemma InOrder(k: ServiceKind)
    ensures k in Order
  {
    assert Order[Rank(k)] == k;
  }

  lemma {:induction false} KeepAll(xs: seq<ServiceKind>, keep: set<ServiceKind>)
    requires forall k :: k in xs ==> k in keep
    ensures Keep(xs, keep) == xs
  {
    if |xs| > 0 {
      KeepAll(xs[..|xs| - 1], keep);
      assert xs[..|xs| - 1] + [xs[|xs| - 1]] == xs;
    }
  }

  /** What the collection asks of a service. */
  datatype Request = StartService | StopService | StepService

  /** One call the collection made on one of its services. */
  datatype Call = Call(service: ServiceKind, request: Request)

  /** The same request made of each service of `ks`, in order. */
  function Calls(ks: seq<ServiceKind>, request: Request): (cs: seq<Call>)
    ensures |cs| == |ks| && forall i :: 0 <= i < |cs| ==> cs[i] == Call(ks[i], request)
  {
    if |ks| == 0 then [] else Calls(ks[..|ks| - 1], request) + [Call(ks[|ks| - 1], request)]
  }

  /** Calls on the threaded services of an ordered list reach each of them once and nothing else. */
  lemma ThreadedCallsOnce(services: seq<ServiceKind>, request: Request)
    requires Increasing(services)
    ensures var cs := Calls(Threaded(services), request);
      (forall k :: Call(k, request) in cs <==> k in services && k in ThreadedKinds)
      && (forall i, j :: 0 <= i < j < |cs| ==> cs[i] != cs[j])
  {
    var threaded := Threaded(services);
    KeepIncreasing(services, ThreadedKinds);
    var cs := Calls(threaded, request);
    forall k ensures Call(k, request) in cs <==> k in services && k in ThreadedKinds {
      KeepMembers(services, ThreadedKinds, k);
      if Call(k, request) in cs {
        var i :| 0 <= i < |cs| && cs[i] == Call(k, request);
        assert threaded[i] == k;
      }
      if k in threaded {
        var i :| 0 <= i < |threaded| && threaded[i] == k;
        assert cs[i] == Call(k, request);
      }
    }
    forall i, j | 0 <= i < j < |cs| ensures cs[i] != cs[j] {
      assert Rank(threaded[i]) < Rank(threaded[j]);
    }
  }

  /**
   * Starting or stopping a collection reaches exactly its threaded
   * services, each exactly once, and never a service it was not given.
   */
  lemma StartStopReachThreadedOnce(provided: set<ServiceKind>, request: Request)
    ensures var cs := Calls(Threaded(Collect(provided)), request);
      (forall k :: Call(k, request) in cs <==> k in provided && k in ThreadedKinds)
      && (forall i, j :: 0 <= i < j < |cs| ==> cs[i] != cs[j])
  {
    CollectSound(provided);
    ThreadedCallsOnce(Collect(provided), request);
  }

  /**
   * The position of the first service whose step raises, or the number of
   * services when none does.
   */
  function FirstFailure(services: seq<ServiceKind>, outcomes: ServiceKind -> Outcome): (k: nat)
    ensures k <= |services|
    ensures forall i :: 0 <= i < k ==> outcomes(services[i]).Pass?
    ensures k < |services| ==> outcomes(services[k]).Fail?
  {
    if |services| == 0 then 0
    else if outcomes(services[0]).Fail? then 0
    else 1 + FirstFailure(services[1..], outcomes)
  }

  /** The first failure is at `i` when every service before `i` passes and the one at `i`, if any, fails. */
  lemma FirstFailureAt(services: seq<ServiceKind>, outcomes: ServiceKind -> Outcome, i: nat)
    requires i <= |services|
    requires forall j :: 0 <= j < i ==> outcomes(services[j]).Pass?
    requires i < |services| ==> outcomes(services[i]).Fail?
    ensures FirstFailure(services, outcomes) == i
  {
  }

  class ServiceCollection {
    /** The services held, in order. */
    var services: seq<ServiceKind>
    /** The calls made on them so far, in order. */
    var calls: seq<Call>

    /** collection.py:13-40. */
    constructor(provided: set<ServiceKind>)
      ensures services == Collect(provided) && calls == []
    {
      services := Keep(Order, provided);
      calls := [];
    }

    /** start (collection.py:42-45): each threaded service is started, in order. */
    method Start()
      modifies this
      ensures services == old(services)
      ensures calls == old(calls) + Calls(Threaded(services), StartService)
    {
      for i := 0 to |services|
        invariant services == old(services)
        invariant calls == old(calls) + Calls(Threaded(services[..i]), StartService)
      {
        assert services[..i + 1][..i] == services[..i];
        if services[i] in ThreadedKinds {
          calls := calls + [Call(services[i], StartService)];
        }
      }
      assert services[..|services|] == services;
    }

    /** stop (collection.py:47-50): each threaded service is stopped, in order. */
    method Stop()
      modifies this
      ensures services == old(services)
      ensures calls == old(calls) + Calls(Threaded(services), StopService)
    {
      for i := 0 to |services|
        invariant services == old(services)
        invariant calls == old(calls) + Calls(Threaded(services[..i]), StopService)
      {
        assert services[..i + 1][..i] == services[..i];
        if services[i] in ThreadedKinds {
          calls := calls + [Call(services[i], StopService)];
        }
      }
      assert services[..|services|] == services;
    }

    /**
     * step (collection.py:52-54): the services are stepped in order, with
     * no handler around the calls, so the first step that raises ends the
     * pass and the services after it are not stepped. What each service's
     * own step does is given by `outcomes`.
     */
    method Step(outcomes: ServiceKind -> Outcome) returns (outcome: Outcome)
      modifies this
      ensures services == old(services)
      ensures var k := FirstFailure(services, outcomes);
        (k < |services| ==> calls == old(calls) + Calls(services[..k + 1], StepService) && outcome == outcomes(services[k]))
        && (k == |services| ==> calls == old(calls) + Calls(services, StepService) && outcome == Pass)
      ensures outcome.Fail? <==> exists s :: s in services && outcomes(s).Fail?
    {
      var i := 0;
      while i < |services|
        invariant i <= |services| && services == old(services)
        invariant forall j :: 0 <= j < i ==> outcomes(services[j]).Pass?
        invariant calls == old(calls) + Calls(services[..i], StepService)
      {
        assert services[..i + 1][..i] == services[..i];
        calls := calls + [Call(services[i], StepService)];
        var o := outcomes(services[i]);
        if o.Fail? {
          FirstFailureAt(services, outcomes, i);
          return o;
        }
        i := i + 1;
      }
      assert services[..|services|] == services;
      FirstFailureAt(services, outcomes, |services|);
      return Pass;
    }
  }
}
