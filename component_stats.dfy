/**
 * The management bean that exposes one component's statistics.
 *
 * A ComponentStats wraps the component's statistics object and hands each
 * getter on to it. When the management server registers the bean it first
 * calls PreRegister, which records the server and the bean's name, and then
 * PostRegister, which registers one child bean per router statistics object
 * the component has: under the bean's name followed by ",router=inbound" and
 * ",router=outbound". Any exception in PostRegister is caught and ends it,
 * skipping the steps after it. Deregistration does nothing.
 *
 * The management server is a map from names to beans whose registration may
 * be refused; object names are strings; the statistics objects are records
 * whose values the getters return unchanged.
 */
module ComponentStatsBean {
  import opened Wrappers

  /** A management object name, kept as its string form. */
  type ObjectName = string

  /** Java's 64-bit long. */
  type Long = x: int | -0x8000_0000_0000_0000 <= x < 0x8000_0000_0000_0000

  const INBOUND_SUFFIX: string := ",router=inbound"
  const OUTBOUND_SUFFIX: string := ",router=outbound"

  predicate EndsWith(s: string, suffix: string)
  {
    |suffix| <= |s| && s[|s| - |suffix|..] == suffix
  }

  /** The name the inbound router child is registered under. */
  function InboundChildName(name: ObjectName): (child: ObjectName)
    ensures |child| == |name| + |INBOUND_SUFFIX| && EndsWith(child, INBOUND_SUFFIX) && child[..|name|] == name
  {
    assert (name + INBOUND_SUFFIX)[..|name|] == name;
    name + INBOUND_SUFFIX
  }

  /** The name the outbound router child is registered under. */
  function OutboundChildName(name: ObjectName): (child: ObjectName)
    ensures |child| == |name| + |OUTBOUND_SUFFIX| && EndsWith(child, OUTBOUND_SUFFIX) && child[..|name|] == name
  {
    assert (name + OUTBOUND_SUFFIX)[..|name|] == name;
    name + OUTBOUND_SUFFIX
  }

  /** No inbound child name is an outbound child name, whatever the two parent names. */
  lemma InboundNeverOutbound(a: ObjectName, b: ObjectName)
    ensures InboundChildName(a) != OutboundChildName(b)
  {
    var i, o := InboundChildName(a), OutboundChildName(b);
    if |i| == |o| {
      assert i[|i| - 7] == INBOUND_SUFFIX[|INBOUND_SUFFIX| - 7] == 'i';
      assert o[|o| - 7] == OUTBOUND_SUFFIX[|OUTBOUND_SUFFIX| - 7] == 'u';
    }
  }

  /** Distinct parent names have distinct child names, and no child name is its parent's. */
  lemma ChildNamesInjective(a: ObjectName, b: ObjectName)
    ensures InboundChildName(a) == InboundChildName(b) ==> a == b
    ensures OutboundChildName(a) == OutboundChildName(b) ==> a == b
    ensures InboundChildName(a) != a && OutboundChildName(a) != a
  {
    if InboundChildName(a) == InboundChildName(b) {
      assert |a| == |b|;
      assert a == InboundChildName(a)[..|a|] == InboundChildName(b)[..|b|] == b;
    }
    if OutboundChildName(a) == OutboundChildName(b) {
      assert |a| == |b|;
      assert a == OutboundChildName(a)[..|a|] == OutboundChildName(b)[..|b|] == b;
    }
  }

  /** The values a component's statistics object reports. */
  datatype Counters = Counters(
    name: string,
    asyncEventsReceived: Long, asyncEventsSent: Long,
    averageExecutionTime: Long, averageQueueSize: Long,
    executedEvents: Long, executionErrors: Long, fatalErrors: Long,
    maxExecutionTime: Long, maxQueueSize: Long, minExecutionTime: Long,
    queuedEvents: Long, replyToEventsSent: Long,
    syncEventsReceived: Long, syncEventsSent: Long,
    totalEventsReceived: Long, totalEventsSent: Long, totalExecutionTime: Long)

  /** A router's statistics object; only its identity matters here. */
  class RouterStatistics {
    constructor ()
    {
    }
  }

  /** A component's statistics object, with its optional router statistics. */
  class ComponentStatistics {
    var counters: Counters
    /** How many times clear() has been called. */
    var clearCalls: nat
    const inboundRouterStat: RouterStatistics?
    const outboundRouterStat: RouterStatistics?

    constructor (counters: Counters, inbound: RouterStatistics?, outbound: RouterStatistics?)
      ensures this.counters == counters && clearCalls == 0
      ensures inboundRouterStat == inbound && outboundRouterStat == outbound
    {
      this.counters := counters;
      clearCalls := 0;
      inboundRouterStat := inbound;
      outboundRouterStat := outbound;
    }

    /** Resets the statistics; what they read afterwards is the unseen implementation's choice, given as `after`. */
    method Clear(after: Counters)
      modifies this
      ensures counters == after && clearCalls == old(clearCalls) + 1
    {
      counters := after;
      clearCalls := clearCalls + 1;
    }
  }

  /** A bean held by the management server: a router child wrapping its statistics (null included), or any other bean. */
  datatype MBean = RouterStats(stats: RouterStatistics?) | OtherMBean

  /** The management server: a map from names to registered beans. */
  class MBeanServer {
    var registry: map<ObjectName, MBean>
    /** Names whose registration the server refuses with an exception, besides names already taken. */
    const refused: set<ObjectName>

    constructor (registry: map<ObjectName, MBean>, refused: set<ObjectName>)
      ensures this.registry == registry && this.refused == refused
    {
      this.registry := registry;
      this.refused := refused;
    }

    /** Registers `bean` under `name`; `thrown` tells that an exception was raised instead, leaving the registry as it was. */
    method RegisterMBean(bean: MBean, name: ObjectName) returns (thrown: bool)
      modifies this
      ensures thrown <==> name in old(registry) || name in refused
      ensures registry == if thrown then old(registry) else old(registry)[name := bean]
    {
      thrown := name in registry || name in refused;
      if !thrown {
        registry := registry[name := bean];
      }
    }
  }

  /** The part of the state PostRegister changes, and whether an exception has been caught. */
  datatype Stage = Stage(
    inboundName: Option<ObjectName>, outboundName: Option<ObjectName>,
    registry: map<ObjectName, MBean>, aborted: bool)

  /**
   * What can make a PostRegister step raise an exception: a null server,
   * names the server refuses, and strings that are not well-formed object names.
   */
  datatype Faults = Faults(serverPresent: bool, refused: set<ObjectName>, malformed: set<string>)

  /** The step that registers the inbound router child wrapping `inStat`. */
  function InboundStep(s: Stage, name: Option<ObjectName>, inStat: RouterStatistics?, f: Faults): Stage
  {
    if s.aborted || inStat == null then s
    else if name.None? || InboundChildName(name.value) in f.malformed then s.(aborted := true)
    else
      var child := InboundChildName(name.value);
      var named := s.(inboundName := Some(child));
      if !f.serverPresent || child in s.registry || child in f.refused then named.(aborted := true)
      else named.(registry := s.registry[child := RouterStats(inStat)])
  }

  /** The step that registers the outbound router child when `outStat` is present; the child wraps `inStat`. */
  function OutboundStep(s: Stage, name: Option<ObjectName>, inStat: RouterStatistics?, outStat: RouterStatistics?, f: Faults): Stage
  {
    if s.aborted || outStat == null then s
    else if name.None? || OutboundChildName(name.value) in f.malformed then s.(aborted := true)
    else
      var child := OutboundChildName(name.value);
      var named := s.(outboundName := Some(child));
      if !f.serverPresent || child in s.registry || child in f.refused then named.(aborted := true)
      else named.(registry := s.registry[child := RouterStats(inStat)])
  }

  /** The reference effect of PostRegister, from the state before it with no exception caught. */
  function PostRegisterEffect(s: Stage, name: Option<ObjectName>, inStat: RouterStatistics?, outStat: RouterStatistics?, f: Faults): Stage
  {
    OutboundStep(InboundStep(s, name, inStat, f), name, inStat, outStat, f)
  }

  /**
   * A router child name is set only to the composed name, and only when its
   * router statistics are present; and it IS set as soon as the composed name
   * is well formed, whether or not its registration then succeeds.
   */
  lemma ChildNamesComposed(s: Stage, name: Option<ObjectName>, inStat: RouterStatistics?, outStat: RouterStatistics?, f: Faults)
    requires !s.aborted
    ensures var r := PostRegisterEffect(s, name, inStat, outStat, f);
            (r.inboundName != s.inboundName ==> inStat != null && name.Some? && r.inboundName == Some(InboundChildName(name.value))) &&
            (r.outboundName != s.outboundName ==> outStat != null && name.Some? && r.outboundName == Some(OutboundChildName(name.value)))
    ensures inStat != null && name.Some? && InboundChildName(name.value) !in f.malformed ==>
            PostRegisterEffect(s, name, inStat, outStat, f).inboundName == Some(InboundChildName(name.value))
  {
  }

  /**
   * PostRegister only adds to the registry: every entry already there stays
   * unchanged, and every added entry is a router child under a composed name
   * whose router statistics are present, and it wraps the INBOUND statistics,
   * whichever child it is.
   */
  lemma RegistryOnlyGainsChildren(s: Stage, name: Option<ObjectName>, inStat: RouterStatistics?, outStat: RouterStatistics?, f: Faults)
    requires !s.aborted
    ensures var r := PostRegisterEffect(s, name, inStat, outStat, f);
            forall k :: k in s.registry ==> k in r.registry && r.registry[k] == s.registry[k]
    ensures var r := PostRegisterEffect(s, name, inStat, outStat, f);
            forall k :: k in r.registry && k !in s.registry ==>
              r.registry[k] == RouterStats(inStat) && name.Some? &&
              ((k == InboundChildName(name.value) && inStat != null) || (k == OutboundChildName(name.value) && outStat != null))
  {
  }

  /** If the inbound step raises an exception, the outbound step does nothing: no outbound name, no outbound entry. */
  lemma InboundFailureSkipsOutbound(s: Stage, name: Option<ObjectName>, inStat: RouterStatistics?, outStat: RouterStatistics?, f: Faults)
    requires !s.aborted && InboundStep(s, name, inStat, f).aborted
    ensures PostRegisterEffect(s, name, inStat, outStat, f) == InboundStep(s, name, inStat, f)
    ensures var r := PostRegisterEffect(s, name, inStat, outStat, f);
            r.outboundName == s.outboundName &&
            (name.Some? ==> (OutboundChildName(name.value) in r.registry <==> OutboundChildName(name.value) in s.registry))
  {
    if name.Some? {
      InboundNeverOutbound(name.value, name.value);
    }
  }

  /**
   * Registration with both router statistics present and nothing failing adds
   * exactly the two children, both wrapping the inbound statistics, so the
   * outbound child exposes the inbound router's values as soon as the two
   * router statistics differ.
   */
  lemma FullRegistration(s: Stage, n: ObjectName, inStat: RouterStatistics?, outStat: RouterStatistics?, f: Faults)
    requires !s.aborted && inStat != null && outStat != null && f.serverPresent
    requires InboundChildName(n) !in s.registry && InboundChildName(n) !in f.refused && InboundChildName(n) !in f.malformed
    requires OutboundChildName(n) !in s.registry && OutboundChildName(n) !in f.refused && OutboundChildName(n) !in f.malformed
    ensures var r := PostRegisterEffect(s, Some(n), inStat, outStat, f);
            !r.aborted &&
            r.inboundName == Some(InboundChildName(n)) && r.outboundName == Some(OutboundChildName(n)) &&
            r.registry == s.registry[InboundChildName(n) := RouterStats(inStat)][OutboundChildName(n) := RouterStats(inStat)] &&
            r.registry.Keys == s.registry.Keys + {InboundChildName(n), OutboundChildName(n)}
    ensures inStat != outStat ==> PostRegisterEffect(s, Some(n), inStat, outStat, f).registry[OutboundChildName(n)] != RouterStats(outStat)
  {
    InboundNeverOutbound(n, n);
  }

  /** With only outbound router statistics, the outbound child is registered wrapping null. */
  lemma OutboundOnlyWrapsNull(s: Stage, n: ObjectName, outStat: RouterStatistics, f: Faults)
    requires !s.aborted && f.serverPresent
    requires OutboundChildName(n) !in s.registry && OutboundChildName(n) !in f.refused && OutboundChildName(n) !in f.malformed
    ensures var r := PostRegisterEffect(s, Some(n), null, outStat, f);
            !r.aborted && r.inboundName == s.inboundName &&
            r.registry == s.registry[OutboundChildName(n) := RouterStats(null)]
  {
  }

  /** The management bean over one component's statistics. */
  class ComponentStats {
    var server: MBeanServer?
    var name: Option<ObjectName>
    var inboundName: Option<ObjectName>
    var outboundName: Option<ObjectName>
    const statistics: ComponentStatistics

    /** A router child name is set only when its router statistics exist, and it is always a composed name. */
    ghost predicate Valid()
      reads this
    {
      (inboundName.Some? ==> statistics.inboundRouterStat != null && EndsWith(inboundName.value, INBOUND_SUFFIX)) &&
      (outboundName.Some? ==> statistics.outboundRouterStat != null && EndsWith(outboundName.value, OUTBOUND_SUFFIX))
    }

    constructor (statistics: ComponentStatistics)
      ensures Valid() && this.statistics == statistics
      ensures server == null && name == None && inboundName == None && outboundName == None
    {
      this.statistics := statistics;
      server := null;
      name, inboundName, outboundName := None, None, None;
    }

    /** Hands the reset on to the wrapped statistics; this bean's own fields do not change. */
    method Clear(after: Counters)
      modifies statistics
      ensures statistics.counters == after && statistics.clearCalls == old(statistics.clearCalls) + 1
    {
      statistics.Clear(after);
    }

    function AsyncEventsReceived(): (r: Long)
      reads statistics
      ensures r == statistics.counters.asyncEventsReceived
    {
      statistics.counters.asyncEventsReceived
    }

    function AsyncEventsSent(): (r: Long)
      reads statistics
      ensures r == statistics.counters.asyncEventsSent
    {
      statistics.counters.asyncEventsSent
    }

    function AverageExecutionTime(): (r: Long)
      reads statistics
      ensures r == statistics.counters.averageExecutionTime
    {
      statistics.counters.averageExecutionTime
    }

    function AverageQueueSize(): (r: Long)
      reads statistics
      ensures r == statistics.counters.averageQueueSize
    {
      statistics.counters.averageQueueSize
    }

    function ExecutedEvents(): (r: Long)
      reads statistics
      ensures r == statistics.counters.executedEvents
    {
      statistics.counters.executedEvents
    }

    function ExecutionErrors(): (r: Long)
      reads statistics
      ensures r == statistics.counters.executionErrors
    {
      statistics.counters.executionErrors
    }

    function FatalErrors(): (r: Long)
      reads statistics
      ensures r == statistics.counters.fatalErrors
    {
      statistics.counters.fatalErrors
    }

    function MaxExecutionTime(): (r: Long)
      reads statistics
      ensures r == statistics.counters.maxExecutionTime
    {
      statistics.counters.maxExecutionTime
    }

    function MaxQueueSize(): (r: Long)
      reads statistics
      ensures r == statistics.counters.maxQueueSize
    {
      statistics.counters.maxQueueSize
    }

    function MinExecutionTime(): (r: Long)
      reads statistics
      ensures r == statistics.counters.minExecutionTime
    {
      statistics.counters.minExecutionTime
    }

    function Name(): (r: string)
      reads statistics
      ensures r == statistics.counters.name
    {
      statistics.counters.name
    }

    function QueuedEvents(): (r: Long)
      reads statistics
      ensures r == statistics.counters.queuedEvents
    {
      statistics.counters.queuedEvents
    }

    function ReplyToEventsSent(): (r: Long)
      reads statistics
      ensures r == statistics.counters.replyToEventsSent
    {
      statistics.counters.replyToEventsSent
    }

    function SyncEventsReceived(): (r: Long)
      reads statistics
      ensures r == statistics.counters.syncEventsReceived
    {
      statistics.counters.syncEventsReceived
    }

    function SyncEventsSent(): (r: Long)
      reads statistics
      ensures r == statistics.counters.syncEventsSent
    {
      statistics.counters.syncEventsSent
    }

    function TotalEventsReceived(): (r: Long)
      reads statistics
      ensures r == statistics.counters.totalEventsReceived
    {
      statistics.counters.totalEventsReceived
    }

    function TotalEventsSent(): (r: Long)
      reads statistics
      ensures r == statistics.counters.totalEventsSent
    {
      statistics.counters.totalEventsSent
    }

    function TotalExecutionTime(): (r: Long)
      reads statistics
      ensures r == statistics.counters.totalExecutionTime
    {
      statistics.counters.totalExecutionTime
    }

    /** Records the server and the proposed name; returns None, so the proposed name stands. */
    method PreRegister(server: MBeanServer?, name: Option<ObjectName>) returns (r: Option<ObjectName>)
      requires Valid()
      modifies this`server, this`name
      ensures Valid() && r == None
      ensures this.server == server && this.name == name
      ensures inboundName == old(inboundName) && outboundName == old(outboundName)
    {
      this.server := server;
      this.name := name;
      r := None;
    }

    /**
     * Registers the router children. `registrationDone` is ignored; `malformed`
     * holds the strings that `new ObjectName` rejects. Every exception is
     * caught and ends the method normally.
     */
    method PostRegister(registrationDone: bool, malformed: set<string>)
      requires Valid()
      modifies this`inboundName, this`outboundName, server
      ensures Valid()
      ensures var r := PostRegisterEffect(
                Stage(old(inboundName), old(outboundName), if server == null then map[] else old(server.registry), false),
                name, statistics.inboundRouterStat, statistics.outboundRouterStat,
                Faults(server != null, if server == null then {} else server.refused, malformed));
              inboundName == r.inboundName && outboundName == r.outboundName &&
              (server != null ==> server.registry == r.registry)
    {
      var inStat := statistics.inboundRouterStat;
      if inStat != null {
        if name.None? {
          return;  // NullPointerException from name.toString(), caught
        }
        var child := name.value + INBOUND_SUFFIX;
        if child in malformed {
          return;  // MalformedObjectNameException, caught
        }
        inboundName := Some(child);
        if server == null {
          return;  // NullPointerException, caught
        }
        var thrown := server.RegisterMBean(RouterStats(inStat), child);
        if thrown {
          return;
        }
      }
      var outStat := statistics.outboundRouterStat;
      if outStat != null {
        if name.None? {
          return;
        }
        var child := name.value + OUTBOUND_SUFFIX;
        if child in malformed {
          return;
        }
        outboundName := Some(child);
        if server == null {
          return;
        }
        // The outbound child wraps the inbound statistics, not the outbound ones.
        var thrown := server.RegisterMBean(RouterStats(inStat), child);
        if thrown {
          return;
        }
      }
    }

    /** Does nothing. */
    method PreDeregister()
      ensures unchanged(this)
      ensures server != null ==> unchanged(server)
    {
    }

    /** Does nothing: the router children stay registered and the names stay set. */
    method PostDeregister()
      ensures unchanged(this)
      ensures server != null ==> unchanged(server)
    {
    }

    /** The inbound router child's name: None until PostRegister set it. */
    function RouterInbound(): (r: Option<ObjectName>)
      requires Valid()
      reads this
      ensures r == inboundName
      ensures r.Some? ==> statistics.inboundRouterStat != null && EndsWith(r.value, INBOUND_SUFFIX)
    {
      inboundName
    }

    /** The outbound router child's name: None until PostRegister set it. */
    function RouterOutbound(): (r: Option<ObjectName>)
      requires Valid()
      reads this
      ensures r == outboundName
      ensures r.Some? ==> statistics.outboundRouterStat != null && EndsWith(r.value, OUTBOUND_SUFFIX)
    {
      outboundName
    }
  }
}
