# Email-id resolution and the component statistics bean

A model of two pieces of the Mule integration framework.

**Email-id resolution** (`email_id_consumer_executor.dfy`, module `EmailIdConsumerExecutor`). An email operation is
applied, through a consumer, to one or more email ids. With an explicit id the consumer takes that id and the message is
never looked at. Without one, the message payload supplies the ids in one of three ways. A list payload gives one id per
element, in order. A single operation result gives its own id. Any other payload gives none and raises the exception
`NO_ID_ERROR`. In a list, the first element that is not an operation result, or that carries no attributes, raises
`NO_ID_ERROR`. The ids accepted before it stay accepted. The payload is a datatype. The consumer is the sequence of ids
it accepted. `Execute` is the source's loop; it is proved equal to the reference function `Dispatch`, and the lemmas say
what `Dispatch` gives for each kind of payload.

**Component statistics bean** (`component_stats.dfy`, module `ComponentStatsBean`). `ComponentStats` is the management
bean over one component's statistics object. Its getters hand on to that object. `PreRegister` records the server and the
bean's name. `PostRegister` registers a child bean for each router statistics object that is present, under
`name + ",router=inbound"` and `name + ",router=outbound"`. Any exception ends `PostRegister` normally and skips the
remaining steps. The code is modelled as written, in three respects. The outbound child wraps the INBOUND router
statistics, so it is a wrapper of null when only outbound statistics exist. The inbound name is set before its
registration is attempted, so it stays set when that registration fails. Deregistration removes nothing. The management
server is a class holding a map from names to beans, and it refuses names already taken and a fixed set of further names.
Object names are strings. A string that `new ObjectName` rejects is given to `PostRegister` as part of a set of
malformed strings. A null name or null server raises a NullPointerException, which is caught like any other exception.
`PostRegister` is proved equal to the reference function `PostRegisterEffect`, and the lemmas state its properties.

A corrected design would differ from the code in four ways. It would give the outbound child the outbound statistics. It
would report child-registration errors. It would remove the children on deregistration. It would reject duplicate names
with a dedicated error. The code does none of this, and the model follows the code.

## Model

| member | source | states |
|---|---|---|
| EmailIdConsumerExecutor.GetIdOrFail | extensions/email/src/main/java/org/mule/extension/email/internal/commands/EmailIdConsumerExecutor.java:70-76 | an id exactly when email attributes are present, and it is their id; absent attributes raise NO_ID_ERROR; attributes of another type raise a ClassCastException |
| EmailIdConsumerExecutor.ElementId | extensions/email/src/main/java/org/mule/extension/email/internal/commands/EmailIdConsumerExecutor.java:47-53 | a list element that is not an operation result raises NO_ID_ERROR; an operation result yields what GetIdOrFail yields |
| EmailIdConsumerExecutor.ListOutcome | extensions/email/src/main/java/org/mule/extension/email/internal/commands/EmailIdConsumerExecutor.java:46-55 | a list run accepts at most one id per element, and ends without an exception exactly when it accepted one id for every element |
| EmailIdConsumerExecutor.Execute | extensions/email/src/main/java/org/mule/extension/email/internal/commands/EmailIdConsumerExecutor.java:43-65 | the ids the consumer accepts and the exception raised are those of the reference outcome Dispatch, for every message and explicit id |
| EmailIdConsumerExecutor.ExplicitIdIgnoresPayload | extensions/email/src/main/java/org/mule/extension/email/internal/commands/EmailIdConsumerExecutor.java:43-64 | with an explicit id the consumer accepts exactly that id once, with no exception, whatever the payload |
| EmailIdConsumerExecutor.ListOutcomeElementwise | extensions/email/src/main/java/org/mule/extension/email/internal/commands/EmailIdConsumerExecutor.java:46-55 | the accepted ids are the ids of the leading elements in list order; there is no exception exactly when every element yields an id; otherwise the exception is the one the element right after the accepted ones raises |
| EmailIdConsumerExecutor.AllElementsConsumed | extensions/email/src/main/java/org/mule/extension/email/internal/commands/EmailIdConsumerExecutor.java:46-50 | when every element yields an id, one id per element is accepted, in list order, with no exception |
| EmailIdConsumerExecutor.FirstFailureStopsList | extensions/email/src/main/java/org/mule/extension/email/internal/commands/EmailIdConsumerExecutor.java:47-53 | when element k is the first without an id, exactly the ids of elements 0..k-1 are accepted, fewer than the list's length, and the exception is element k's |
| EmailIdConsumerExecutor.EmptyListConsumesNothing | extensions/email/src/main/java/org/mule/extension/email/internal/commands/EmailIdConsumerExecutor.java:46-55 | an empty list accepts nothing and raises nothing; the trailing accept is never reached |
| EmailIdConsumerExecutor.SingleResultPayload | extensions/email/src/main/java/org/mule/extension/email/internal/commands/EmailIdConsumerExecutor.java:57-64 | a single operation result has its id accepted once, or raises GetIdOrFail's exception with nothing accepted |
| EmailIdConsumerExecutor.OtherPayloadFails | extensions/email/src/main/java/org/mule/extension/email/internal/commands/EmailIdConsumerExecutor.java:60-62 | any other payload raises NO_ID_ERROR with nothing accepted |
| ComponentStatsBean.InboundChildName | mule/src/java/org/mule/management/mbeans/ComponentStats.java:175 | the inbound child name is the parent name followed by ",router=inbound" |
| ComponentStatsBean.OutboundChildName | mule/src/java/org/mule/management/mbeans/ComponentStats.java:180 | the outbound child name is the parent name followed by ",router=outbound" |
| ComponentStatsBean.InboundNeverOutbound | mule/src/java/org/mule/management/mbeans/ComponentStats.java:175-180 | no inbound child name equals any outbound child name, so the two registrations of one bean never collide with each other |
| ComponentStatsBean.ChildNamesInjective | mule/src/java/org/mule/management/mbeans/ComponentStats.java:175-180 | distinct parent names give distinct child names, and no child name equals its parent's |
| ComponentStatsBean.MBeanServer.RegisterMBean | mule/src/java/org/mule/management/mbeans/ComponentStats.java:176 | registration raises an exception exactly when the name is taken or refused, and then leaves the registry unchanged; otherwise it adds exactly that entry |
| ComponentStatsBean.ChildNamesComposed | mule/src/java/org/mule/management/mbeans/ComponentStats.java:173-181 | a router child name changes only to the composed name and only when its router statistics are present; the inbound name is set as soon as the composed name is well formed, whether or not its registration succeeds |
| ComponentStatsBean.RegistryOnlyGainsChildren | mule/src/java/org/mule/management/mbeans/ComponentStats.java:172-185 | registration never removes or changes an existing entry; every added entry is a child under a composed name whose router statistics are present, and it wraps the inbound statistics |
| ComponentStatsBean.InboundFailureSkipsOutbound | mule/src/java/org/mule/management/mbeans/ComponentStats.java:172-185 | once the inbound step raises an exception, no outbound name is set and no outbound entry is added |
| ComponentStatsBean.FullRegistration | mule/src/java/org/mule/management/mbeans/ComponentStats.java:173-181 | with both router statistics present and no failure, exactly the two child entries are added, both names are set, and the outbound entry wraps the inbound statistics rather than the outbound ones |
| ComponentStatsBean.OutboundOnlyWrapsNull | mule/src/java/org/mule/management/mbeans/ComponentStats.java:178-181 | with only outbound router statistics, the outbound child is registered wrapping null and the inbound name is untouched |
| ComponentStatsBean.ComponentStats.constructor | mule/src/java/org/mule/management/mbeans/ComponentStats.java:39-41 | the bean wraps the given statistics and starts with no server, no name and no router child names |
| ComponentStatsBean.ComponentStats.Clear | mule/src/java/org/mule/management/mbeans/ComponentStats.java:46-48 | the reset is handed on to the wrapped statistics exactly once; the bean's own fields do not change |
| ComponentStatsBean.ComponentStats.AsyncEventsReceived | mule/src/java/org/mule/management/mbeans/ComponentStats.java:53-55 | returns the wrapped statistics' value unchanged |
| ComponentStatsBean.ComponentStats.AsyncEventsSent | mule/src/java/org/mule/management/mbeans/ComponentStats.java:59-61 | returns the wrapped statistics' value unchanged |
| ComponentStatsBean.ComponentStats.AverageExecutionTime | mule/src/java/org/mule/management/mbeans/ComponentStats.java:65-67 | returns the wrapped statistics' value unchanged |
| ComponentStatsBean.ComponentStats.AverageQueueSize | mule/src/java/org/mule/management/mbeans/ComponentStats.java:71-73 | returns the wrapped statistics' value unchanged |
| ComponentStatsBean.ComponentStats.ExecutedEvents | mule/src/java/org/mule/management/mbeans/ComponentStats.java:77-79 | returns the wrapped statistics' value unchanged |
| ComponentStatsBean.ComponentStats.ExecutionErrors | mule/src/java/org/mule/management/mbeans/ComponentStats.java:83-85 | returns the wrapped statistics' value unchanged |
| ComponentStatsBean.ComponentStats.FatalErrors | mule/src/java/org/mule/management/mbeans/ComponentStats.java:89-91 | returns the wrapped statistics' value unchanged |
| ComponentStatsBean.ComponentStats.MaxExecutionTime | mule/src/java/org/mule/management/mbeans/ComponentStats.java:95-97 | returns the wrapped statistics' value unchanged |
| ComponentStatsBean.ComponentStats.MaxQueueSize | mule/src/java/org/mule/management/mbeans/ComponentStats.java:101-103 | returns the wrapped statistics' value unchanged |
| ComponentStatsBean.ComponentStats.MinExecutionTime | mule/src/java/org/mule/management/mbeans/ComponentStats.java:107-109 | returns the wrapped statistics' value unchanged |
| ComponentStatsBean.ComponentStats.Name | mule/src/java/org/mule/management/mbeans/ComponentStats.java:113-115 | returns the wrapped statistics' name unchanged |
| ComponentStatsBean.ComponentStats.QueuedEvents | mule/src/java/org/mule/management/mbeans/ComponentStats.java:119-121 | returns the wrapped statistics' value unchanged |
| ComponentStatsBean.ComponentStats.ReplyToEventsSent | mule/src/java/org/mule/management/mbeans/ComponentStats.java:125-127 | returns the wrapped statistics' value unchanged |
| ComponentStatsBean.ComponentStats.SyncEventsReceived | mule/src/java/org/mule/management/mbeans/ComponentStats.java:131-133 | returns the wrapped statistics' value unchanged |
| ComponentStatsBean.ComponentStats.SyncEventsSent | mule/src/java/org/mule/management/mbeans/ComponentStats.java:137-139 | returns the wrapped statistics' value unchanged |
| ComponentStatsBean.ComponentStats.TotalEventsReceived | mule/src/java/org/mule/management/mbeans/ComponentStats.java:143-145 | returns the wrapped statistics' value unchanged |
| ComponentStatsBean.ComponentStats.TotalEventsSent | mule/src/java/org/mule/management/mbeans/ComponentStats.java:149-151 | returns the wrapped statistics' value unchanged |
| ComponentStatsBean.ComponentStats.TotalExecutionTime | mule/src/java/org/mule/management/mbeans/ComponentStats.java:155-157 | returns the wrapped statistics' value unchanged |
| ComponentStatsBean.ComponentStats.PreRegister | mule/src/java/org/mule/management/mbeans/ComponentStats.java:162-166 | records the server and the name, returns None so the proposed name stands, and leaves the router child names as they were |
| ComponentStatsBean.ComponentStats.PostRegister | mule/src/java/org/mule/management/mbeans/ComponentStats.java:171-186 | returns normally in every case; the new child names and registry are those of the reference effect PostRegisterEffect; child names stay composed names of present router statistics |
| ComponentStatsBean.ComponentStats.PreDeregister | mule/src/java/org/mule/management/mbeans/ComponentStats.java:191-192 | changes nothing in the bean or the server |
| ComponentStatsBean.ComponentStats.PostDeregister | mule/src/java/org/mule/management/mbeans/ComponentStats.java:197-198 | changes nothing: child entries stay registered and the names keep their values |
| ComponentStatsBean.ComponentStats.RouterInbound | mule/src/java/org/mule/management/mbeans/ComponentStats.java:203-205 | the inbound child name if set, which is then a composed inbound name of present inbound statistics; None before PostRegister |
| ComponentStatsBean.ComponentStats.RouterOutbound | mule/src/java/org/mule/management/mbeans/ComponentStats.java:210-212 | the outbound child name if set, which is then a composed outbound name of present outbound statistics; None before PostRegister |

## Left out

- mule/src/java/org/mule/tck/testmodels/mule/TestExceptionStrategy.java: an empty subclass of a framework class, with no behaviour of its own.
- The internals of the component and router statistics objects are not part of this model. Their values form an opaque record, and the router statistics are opaque objects compared by identity. What clear() resets is not visible, so the values after it are a parameter of `Clear`.
- The router statistics of a component are fixed when its statistics object is built.
- ComponentStats.Clear: states only that the reset is forwarded once and which values the unseen implementation leaves; it says nothing about what those values are.
- Object name parsing and validation: an object name is its string; a construction failure is membership in the `malformed` set given to `PostRegister`.
- The management server's own protocol: the callbacks it makes on a child bean when registering it, the reasons for refusing a name beyond the `refused` set, and what `registrationDone` reports (the source ignores it, and so does the model).
- The stack trace printed for a caught exception: console output only.
- An exception thrown by the consumer itself: the consumer is a trace that always accepts.
- A null message, or a null statistics object given to the constructor: the NullPointerExceptions these raise are not modelled.
- Email ids are Java ints passed through unchanged, with no arithmetic, so they are unbounded integers here.
- The payload is read twice in the source; the model assumes both reads give the same value.
- Concurrency: the source has no synchronisation.
