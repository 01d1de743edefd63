/**
 * The service base classes (src/automixer/services/base.py): the
 * `autoregister` marking of handler methods, the registration of marked
 * handlers on the bus with its parameter check, and the start/stop life
 * cycle of a threaded service as an abstract alive flag.
 */
module Lifecycle {
  import opened Wrappers
  import opened Events

  // ---------------------------------------------------------------------------
  // Marking handlers
  // ---------------------------------------------------------------------------

  /**
   * A value passed to `autoregister(...)`: an event class, which is
   * callable, a string, or None.
   */
  datatype Arg = EventClass(name: string) | Text(s: string) | NoneValue

  /**
   * How a method is decorated: `@autoregister` alone, which passes the
   * method itself as the one positional argument, or
   * `@autoregister(*args, **kwargs)`, whose result is applied to the method.
   */
  datatype Use = Bare | Called(args: seq<Arg>, kwargs: map<string, Arg>)

  /**
   * `_autoregister_config`: the configured event type, named by its class
   * name or given as a string, and the instance parameter name; a
   * `self_name` that is not a string is None, which no parameter name equals.
   */
  datatype Config = Config(eventType: Option<string>, selfName: Option<string>)

  /** The attributes a decorated method carries: `_autoregister`, and `_autoregister_config` when options were given. */
  datatype Mark = Mark(autoregister: bool, config: Option<Config>)

  /**
   * What the decorated name ends up bound to: the marked method, the result
   * of calling an event class with the method, or the TypeError raised when
   * the options do not bind to `_custom_autoregister`'s parameters.
   */
  datatype Decorated = Marked(mark: Mark) | ClassCalled(eventClass: string) | DecorationError(error: string)

  /** The test of base.py:47 sees an event class as callable, and a string or None as not. */
  predicate Callable(a: Arg)
  {
    a.EventClass?
  }

  function TypeName(a: Arg): Option<string>
  {
    match a
    case EventClass(name) => Some(name)
    case Text(s) => Some(s)
    case NoneValue => None
  }

  function NameOf(a: Arg): Option<string>
  {
    if a.Text? then Some(a.s) else None
  }

  /**
   * wrapper(func) (base.py:52-53 and 17-27): the options bind to
   * `event_type` and `self_name`, positionally first; too many positional
   * options, an unknown keyword or one given twice raise TypeError.
   */
  function Custom(args: seq<Arg>, kwargs: map<string, Arg>): (d: Decorated)
    ensures d.Marked? ==> d.mark.autoregister && d.mark.config.Some?
    ensures d.DecorationError? <==>
      |args| > 2 || !(kwargs.Keys <= {"event_type", "self_name"})
      || (|args| >= 1 && "event_type" in kwargs) || (|args| == 2 && "self_name" in kwargs)
  {
    if |args| > 2 then DecorationError("_custom_autoregister() takes from 1 to 3 positional arguments")
    else if !(kwargs.Keys <= {"event_type", "self_name"}) then DecorationError("_custom_autoregister() got an unexpected keyword argument")
    else if (|args| >= 1 && "event_type" in kwargs) || (|args| == 2 && "self_name" in kwargs) then
      DecorationError("_custom_autoregister() got multiple values for an argument")
    else
      var eventType := if |args| >= 1 then args[0] else if "event_type" in kwargs then kwargs["event_type"] else NoneValue;
      var selfName := if |args| == 2 then args[1] else if "self_name" in kwargs then kwargs["self_name"] else Text("self");
      Marked(Mark(true, Some(Config(TypeName(eventType), NameOf(selfName)))))
  }

  /**
   * autoregister (base.py:43-54), decided at run time: exactly one
   * positional argument that is callable, and no keywords, takes the bare
   * branch, which marks that argument and returns it. For `@autoregister`
   * that argument is the method; for `@autoregister(SomeEvent)` it is the
   * event class, which is then called with the method, so the method is
   * never marked. Everything else goes through the custom wrapper.
   */
  function Decorate(use: Use): (d: Decorated)
    ensures use.Bare? ==> d.Marked? && d.mark.autoregister && d.mark.config.None?
    ensures d.ClassCalled? <==>
      use.Called? && |use.args| == 1 && Callable(use.args[0]) && |use.kwargs| == 0
    ensures use.Called? && !d.ClassCalled? ==> d == Custom(use.args, use.kwargs)
  {
    match use
    case Bare => Marked(Mark(true, None))
    case Called(args, kwargs) =>
      if |args| == 1 && Callable(args[0]) && |kwargs| == 0 then ClassCalled(args[0].name)
      else Custom(args, kwargs)
  }

  /**
   * The decorator as its overloads (base.py:30-40) advertise it: only the
   * bare form marks the method directly, and any call with options goes
   * through the custom wrapper.
   */
  function DecorateIntended(use: Use): (d: Decorated)
    ensures !d.ClassCalled?
    ensures use.Bare? ==> d == Decorate(use)
  {
    match use
    case Bare => Marked(Mark(true, None))
    case Called(args, kwargs) => Custom(args, kwargs)
  }

  /**
   * As written, giving the event type positionally, `@autoregister(a)`,
   * means the same as giving it by keyword exactly when `a` is not an event
   * class; for an event class the method is not marked at all.
   */
  lemma PositionalEventTypeAsWritten(a: Arg)
    ensures Decorate(Called([a], map[])) == Decorate(Called([], map["event_type" := a])) <==> !a.EventClass?
    ensures a.EventClass? ==> Decorate(Called([a], map[])) == ClassCalled(a.name)
  {
    assert Decorate(Called([], map["event_type" := a])).Marked?;
  }

  /**
   * With the advertised behaviour, the positional and keyword spellings of
   * the options mark the method with the same configuration, for every
   * event type and instance name.
   */
  lemma PositionalAndKeywordAgree(a: Arg, selfName: string)
    ensures var config := Some(Config(TypeName(a), Some(selfName)));
      DecorateIntended(Called([a, Text(selfName)], map[])) == Marked(Mark(true, config))
      && DecorateIntended(Called([a], map["self_name" := Text(selfName)])) == Marked(Mark(true, config))
      && DecorateIntended(Called([], map["event_type" := a, "self_name" := Text(selfName)])) == Marked(Mark(true, config))
      && DecorateIntended(Called([a], map[])) == DecorateIntended(Called([], map["event_type" := a]))
  {
    var both := map["event_type" := a, "self_name" := Text(selfName)];
    assert both.Keys == {"event_type", "self_name"};
    assert both["event_type"] == a && both["self_name"] == Text(selfName);
    assert (map["self_name" := Text(selfName)]).Keys == {"self_name"};
    assert (map["event_type" := a]).Keys == {"event_type"};
  }

  /** The instance parameter name and configured event type, with the defaults of base.py:66-68. */
  function SelfName(m: Mark): Option<string>
  {
    if m.config.Some? then m.config.value.selfName else Some("self")
  }

  function EventTypeOf(m: Mark): Option<string>
  {
    if m.config.Some? then m.config.value.eventType else None
  }

  /** The bare form registers under the single event parameter, with `self` as the instance name. */
  lemma BareUsesDefaults()
    ensures Decorate(Bare).Marked?
    ensures SelfName(Decorate(Bare).mark) == Some("self") && EventTypeOf(Decorate(Bare).mark).None?
  {
  }

  // ---------------------------------------------------------------------------
  // Registering handlers
  // ---------------------------------------------------------------------------

  /** A parameter of a handler's signature and its annotation (a class name), if any. */
  datatype Param = Param(name: string, annotation: Option<string>)

  /**
   * A routine of the service as inspect.getmembers lists it: its name, its
   * mark when it has one, and the parameters of its signature.
   */
  datatype Member = Member(name: string, mark: Option<Mark>, params: seq<Param>)

  predicate IsMarked(m: Member)
  {
    m.mark.Some? && m.mark.value.autoregister
  }

  /** The parameter filter of base.py:72-75: drops the instance parameter and `return`. */
  function EventParams(params: seq<Param>, selfName: Option<string>): (r: seq<Param>)
    ensures |r| <= |params|
    ensures forall p :: p in r <==> p in params && Some(p.name) != selfName && p.name != "return"
  {
    if |params| == 0 then []
    else
      var last := params[|params| - 1];
      EventParams(params[..|params| - 1], selfName) + (if Some(last.name) != selfName && last.name != "return" then [last] else [])
  }

  /**
   * The key base.py:76-84 registers a marked handler under, as written:
   * exactly one parameter must remain (else ValueError); the configured
   * event type is used when there is one, and otherwise the remaining
   * Parameter object itself, not its annotation.
   */
  function EventKeyAsWritten(m: Member): Result<HandlerKey>
    requires IsMarked(m)
  {
    var params := EventParams(m.params, SelfName(m.mark.value));
    if |params| != 1 then Failure("Autoregistered handler '" + m.name + "' must have exactly one parameter")
    else if EventTypeOf(m.mark.value).Some? then Success(ByEventType(EventTypeOf(m.mark.value).value))
    else Success(ByParameter(params[0].name))
  }

  /**
   * The key as the comment of base.py:69 intends: with no configured event
   * type, the annotation of the single event parameter; an unannotated
   * parameter names no event type.
   */
  function EventKey(m: Member): Result<HandlerKey>
    requires IsMarked(m)
  {
    var params := EventParams(m.params, SelfName(m.mark.value));
    if |params| != 1 then Failure("Autoregistered handler '" + m.name + "' must have exactly one parameter")
    else if EventTypeOf(m.mark.value).Some? then Success(ByEventType(EventTypeOf(m.mark.value).value))
    else if params[0].annotation.None? then Failure("Autoregistered handler '" + m.name + "' has no event annotation")
    else Success(ByEventType(params[0].annotation.value))
  }

  /**
   * Every handler of the code base is decorated bare, so it takes the
   * Parameter branch: `on_camera_frame(self, event: CameraFrameEvent)` is
   * registered under the parameter `event`, not under CameraFrameEvent.
   */
  lemma AsWrittenKeysByParameter()
    ensures var m := Member("on_camera_frame", Some(Decorate(Bare).mark),
                            [Param("event", Some("CameraFrameEvent"))]);
      EventKeyAsWritten(m) == Success(ByParameter("event"))
      && EventKey(m) == Success(ByEventType("CameraFrameEvent"))
  {
    var mark := Decorate(Bare).mark;
    assert mark == Mark(true, None);
    assert SelfName(mark) == Some("self") && EventTypeOf(mark).None?;
    var ps := [Param("event", Some("CameraFrameEvent"))];
    assert ps[..0] == [];
    assert EventParams(ps, Some("self")) == ps;
  }

  /**
   * The corrected key: a handler is accepted exactly when one event
   * parameter remains and an event type is known, and then it is keyed by
   * an event type, the configured one first, else the annotation.
   */
  lemma EventKeySound(m: Member)
    requires IsMarked(m)
    ensures var params := EventParams(m.params, SelfName(m.mark.value));
      (EventKey(m).Success? <==> |params| == 1 && (EventTypeOf(m.mark.value).Some? || params[0].annotation.Some?))
      && (EventKey(m).Success? ==> EventKey(m).value.ByEventType?)
      && (EventKey(m).Success? && EventTypeOf(m.mark.value).None? ==> EventKey(m) == Success(ByEventType(params[0].annotation.value)))
      && (EventKey(m).Success? ==> EventKeyAsWritten(m).Success?)
  {
  }

  /**
   * As written, a handler is accepted exactly when one event parameter
   * remains; it is then keyed by the configured event type, else by that
   * parameter, whether or not it is annotated.
   */
  lemma EventKeyAsWrittenSound(m: Member)
    requires IsMarked(m)
    ensures var params := EventParams(m.params, SelfName(m.mark.value));
      (EventKeyAsWritten(m).Success? <==> |params| == 1)
      && (EventKeyAsWritten(m).Success? && EventTypeOf(m.mark.value).Some? ==>
            EventKeyAsWritten(m) == Success(ByEventType(EventTypeOf(m.mark.value).value)))
      && (EventKeyAsWritten(m).Success? && EventTypeOf(m.mark.value).None? ==>
            EventKeyAsWritten(m) == Success(ByParameter(params[0].name)))
  {
  }

  /** Which key registration uses: the one base.py:76-84 computes, or the one its comment intends. */
  datatype KeyRule = AsWritten | Corrected

  function KeyOf(rule: KeyRule, m: Member): Result<HandlerKey>
    requires IsMarked(m)
  {
    if rule.AsWritten? then EventKeyAsWritten(m) else EventKey(m)
  }

  /** What registering a service's handlers leaves: the handlers added, in order, and whether it raised. */
  datatype Registration = Registration(handlers: seq<Handler>, outcome: Outcome)

  /** One member of the loop of base.py:64-84, after the members before it left `before`. */
  function RegisterOne(rule: KeyRule, before: Registration, m: Member): Registration
  {
    if before.outcome.Fail? || !IsMarked(m) then before
    else match KeyOf(rule, m)
      case Failure(e) => Registration(before.handlers, Fail(e))
      case Success(key) => Registration(before.handlers + [Handler(key, m.name)], Pass)
  }

  /**
   * _autoregister_handlers (base.py:62-84) over the members in listing
   * order: unmarked members are skipped, a marked member is registered
   * under its key, and the first rejected member raises, leaving the
   * handlers registered before it in place.
   */
  function Register(rule: KeyRule, members: seq<Member>): Registration
  {
    if |members| == 0 then Registration([], Pass)
    else RegisterOne(rule, Register(rule, members[..|members| - 1]), members[|members| - 1])
  }

  lemma RegisterPrefix(rule: KeyRule, members: seq<Member>, i: nat)
    requires i < |members|
    ensures Register(rule, members[..i + 1]) == RegisterOne(rule, Register(rule, members[..i]), members[i])
  {
    assert members[..i + 1][..i] == members[..i];
  }

  /** A marked member whose key is rejected. */
  predicate Rejected(rule: KeyRule, m: Member)
  {
    IsMarked(m) && KeyOf(rule, m).Failure?
  }

  /** `h` is the registration of the marked member `m`. */
  predicate Accepted(rule: KeyRule, m: Member, h: Handler)
  {
    IsMarked(m) && m.name == h.handlerName && KeyOf(rule, m) == Success(h.key)
  }

  /**
   * An accepted handler had exactly one event parameter. As written, it is
   * keyed by an event type exactly when one is configured, and otherwise by
   * that parameter; with the corrected key it is always keyed by an event
   * type, the annotation when none is configured.
   */
  lemma AcceptedIsWellFormed(rule: KeyRule, m: Member, h: Handler)
    requires Accepted(rule, m, h)
    ensures var params := EventParams(m.params, SelfName(m.mark.value));
      |params| == 1
      && (EventTypeOf(m.mark.value).Some? ==> h.key == ByEventType(EventTypeOf(m.mark.value).value))
      && (rule.AsWritten? && EventTypeOf(m.mark.value).None? ==> h.key == ByParameter(params[0].name))
      && (rule.Corrected? && EventTypeOf(m.mark.value).None? ==>
            params[0].annotation.Some? && h.key == ByEventType(params[0].annotation.value))
  {
    EventKeySound(m);
    EventKeyAsWrittenSound(m);
  }

  /**
   * Registration raises exactly when some marked member is rejected; every
   * registered handler is the registration of one of the members, and when
   * nothing raised, every marked member is registered under its key.
   */
  lemma {:induction false} RegisterSound(rule: KeyRule, members: seq<Member>)
    ensures var r := Register(rule, members);
      (r.outcome.Fail? <==> exists m :: m in members && Rejected(rule, m))
      && |r.handlers| <= |members|
      && (forall h :: h in r.handlers ==> exists m :: m in members && Accepted(rule, m, h))
      && (r.outcome.Pass? ==>
            forall m :: m in members && IsMarked(m) ==>
              KeyOf(rule, m).Success? && Handler(KeyOf(rule, m).value, m.name) in r.handlers)
  {
    RegisterComplete(rule, members);
    if |members| > 0 {
      var init := members[..|members| - 1];
      var m := members[|members| - 1];
      assert members == init + [m];
      RegisterSound(rule, init);
      RegisterFailure(rule, members);
      var before := Register(rule, init);
      forall h | h in Register(rule, members).handlers
        ensures exists m' :: m' in members && Accepted(rule, m', h)
      {
        RegisterOneHandlers(rule, before, m, h);
        if h in before.handlers {
          var m' :| m' in init && Accepted(rule, m', h);
          assert m' in members;
        } else {
          assert m in members;
        }
      }
    }
  }

  /** When registration did not raise, every marked member was registered under its key. */
  lemma {:induction false} RegisterComplete(rule: KeyRule, members: seq<Member>)
    ensures var r := Register(rule, members);
      r.outcome.Pass? ==>
        forall m :: m in members && IsMarked(m) ==>
          KeyOf(rule, m).Success? && Handler(KeyOf(rule, m).value, m.name) in r.handlers
  {
    if |members| > 0 {
      var init := members[..|members| - 1];
      var last := members[|members| - 1];
      assert members == init + [last];
      RegisterComplete(rule, init);
      var before := Register(rule, init);
      RegisterOneFails(rule, before, last);
      var r := Register(rule, members);
      if r.outcome.Pass? {
        forall m | m in members && IsMarked(m)
          ensures KeyOf(rule, m).Success? && Handler(KeyOf(rule, m).value, m.name) in r.handlers
        {
          if m in init {
            assert Handler(KeyOf(rule, m).value, m.name) in before.handlers;
          }
        }
      }
    }
  }

  /**
   * As written, a registration raises exactly when some marked member does
   * not have exactly one event parameter: an unannotated parameter is
   * accepted, where the corrected key rejects it.
   */
  lemma AsWrittenRejectsOnlyArity(members: seq<Member>)
    ensures Register(AsWritten, members).outcome.Fail? <==>
      exists m :: m in members && IsMarked(m) && |EventParams(m.params, SelfName(m.mark.value))| != 1
    ensures Register(Corrected, members).outcome.Pass? ==> Register(AsWritten, members).outcome.Pass?
  {
    RegisterSound(AsWritten, members);
    RegisterSound(Corrected, members);
    forall m | m in members && IsMarked(m)
      ensures Rejected(AsWritten, m) <==> |EventParams(m.params, SelfName(m.mark.value))| != 1
      ensures Rejected(AsWritten, m) ==> Rejected(Corrected, m)
    {
      EventKeyAsWrittenSound(m);
      EventKeySound(m);
    }
  }

  lemma RegisterOneHandlers(rule: KeyRule, before: Registration, m: Member, h: Handler)
    requires h in RegisterOne(rule, before, m).handlers
    ensures h in before.handlers || Accepted(rule, m, h)
  {
  }

  lemma RegisterFailure(rule: KeyRule, members: seq<Member>)
    requires |members| > 0
    requires var init := members[..|members| - 1];
      Register(rule, init).outcome.Fail? <==> exists m :: m in init && Rejected(rule, m)
    ensures Register(rule, members).outcome.Fail? <==> exists m :: m in members && Rejected(rule, m)
  {
    var init := members[..|members| - 1];
    var m := members[|members| - 1];
    assert members == init + [m];
    RegisterOneFails(rule, Register(rule, init), m);
  }

  lemma RegisterOneFails(rule: KeyRule, before: Registration, m: Member)
    ensures RegisterOne(rule, before, m).outcome.Fail? <==> before.outcome.Fail? || Rejected(rule, m)
  {
  }

  /**
   * _autoregister_handlers (base.py:62-84), registering on `bus` under the
   * key `rule` selects: `AsWritten` is the code as it stands.
   */
  method AutoregisterHandlers(rule: KeyRule, bus: Bus, members: seq<Member>) returns (outcome: Outcome)
    modifies bus
    ensures bus.handlers == old(bus.handlers) + Register(rule, members).handlers
    ensures outcome == Register(rule, members).outcome
    ensures bus.dispatched == old(bus.dispatched)
  {
    for i := 0 to |members|
      invariant Register(rule, members[..i]).outcome.Pass?
      invariant bus.handlers == old(bus.handlers) + Register(rule, members[..i]).handlers
      invariant bus.dispatched == old(bus.dispatched)
    {
      var m := members[i];
      RegisterPrefix(rule, members, i);
      if m.mark.Some? && m.mark.value.autoregister {
        var key := if rule.AsWritten? then EventKeyAsWritten(m) else EventKey(m);
        if key.Failure? {
          RegisterStopsAtFailure(rule, members, i + 1);
          return Fail(key.error);
        }
        bus.On(Handler(key.value, m.name));
      }
    }
    assert members[..|members|] == members;
    return Pass;
  }

  /** Once registration has raised, later members change nothing. */
  lemma {:induction false} RegisterStopsAtFailure(rule: KeyRule, members: seq<Member>, k: nat)
    requires k <= |members| && Register(rule, members[..k]).outcome.Fail?
    ensures Register(rule, members) == Register(rule, members[..k])
    decreases |members| - k
  {
    if k < |members| {
      var next := members[..k + 1];
      assert next[..k] == members[..k];
      RegisterStopsAtFailure(rule, members, k + 1);
    } else {
      assert members[..k] == members;
    }
  }

  // ---------------------------------------------------------------------------
  // The thread life cycle
  // ---------------------------------------------------------------------------

  /** service_name (base.py:98-101): SERVICE_NAME when the class sets one, else the class name. */
  function ServiceName(serviceNameConst: Option<string>, className: string): (name: string)
    ensures serviceNameConst.Some? ==> name == serviceNameConst.value
    ensures serviceNameConst.None? ==> name == className
  {
    if serviceNameConst.None? then className else serviceNameConst.value
  }

  /**
   * The life-cycle state of a threaded service: the stop flag, whether a
   * thread object is held, and whether that thread is still running.
   */
  datatype Life = Life(shouldStop: bool, hasThread: bool, running: bool)

  /** is_alive (base.py:110-111). */
  predicate Alive(l: Life)
  {
    l.hasThread && l.running
  }

  /** A running thread is held, and a live service has not been asked to stop. */
  predicate Consistent(l: Life)
  {
    (l.running ==> l.hasThread) && (Alive(l) ==> !l.shouldStop)
  }

  /** start (base.py:113-119): a no-op when alive; else clears the stop flag and runs a new thread. */
  function Start(l: Life): Life
  {
    if Alive(l) then l else Life(false, true, true)
  }

  /** stop (base.py:121-127): a no-op when not alive; else sets the stop flag, joins the thread and drops it. */
  function Stop(l: Life): Life
  {
    if !Alive(l) then l else Life(true, false, false)
  }

  /** The thread's run loop ends by itself (it saw the stop flag, or raised). */
  function Ended(l: Life): Life
  {
    Life(l.shouldStop, l.hasThread, false)
  }

  /**
   * start leaves the service alive and stop leaves it not alive, both keep
   * the life cycle consistent, starting twice is starting once, stopping
   * twice is stopping once, and a stopped service can be started again.
   */
  lemma LifeCycleSound(l: Life)
    requires Consistent(l)
    ensures Alive(Start(l)) && !Start(l).shouldStop && Consistent(Start(l))
    ensures !Alive(Stop(l)) && Consistent(Stop(l)) && Consistent(Ended(l))
    ensures Start(Start(l)) == Start(l) && Stop(Stop(l)) == Stop(l)
    ensures Alive(l) ==> Stop(l).shouldStop && !Stop(l).hasThread
    ensures Alive(Start(Stop(l)))
  {
  }

  class ThreadService {
    const serviceName: string
    var shouldStop: bool
    var hasThread: bool
    var running: bool

    function State(): Life
      reads this
    {
      Life(shouldStop, hasThread, running)
    }

    /** ThreadService.__init__ (base.py:94-101): no thread, not stopping. */
    constructor(serviceNameConst: Option<string>, className: string)
      ensures serviceName == ServiceName(serviceNameConst, className)
      ensures State() == Life(false, false, false) && Consistent(State())
    {
      serviceName := ServiceName(serviceNameConst, className);
      shouldStop := false;
      hasThread := false;
      running := false;
    }

    /** should_stop (base.py:103-104). */
    method ShouldStop() returns (b: bool)
      ensures b == shouldStop
    {
      b := shouldStop;
    }

    /** is_alive (base.py:110-111). */
    method IsAlive() returns (b: bool)
      ensures b == Alive(State())
    {
      b := hasThread && running;
    }

    /** start (base.py:113-119). */
    method StartThread()
      modifies this
      ensures State() == Start(old(State()))
    {
      var alive := IsAlive();
      if alive {
        return;
      }
      shouldStop := false;
      hasThread := true;
      running := true;
    }

    /** stop (base.py:121-127); joining waits for the run loop to end. */
    method StopThread()
      modifies this
      ensures State() == Stop(old(State()))
    {
      var alive := IsAlive();
      if !alive {
        return;
      }
      shouldStop := true;
      running := false;
      hasThread := false;
    }

    /** The run loop returns or raises: the thread is no longer running. */
    method EndRun()
      modifies this
      ensures State() == Ended(old(State()))
    {
      running := false;
    }
  }
}
