# XML-RPC handler registry of XmlRpcServerImpl, in Dafny

This project models the legacy XML-RPC endpoint that the IDE plugs into its
built-in HTTP server (`XmlRpcServerImpl`). The model covers:

- the **handler mapping**: a table from handler name to handler. `addHandler`
  stores an object that already implements `XmlRpcHandler` as it is. Any other
  object is stored wrapped in a reflective `Invoker`. `removeHandler` deletes a key
  and does nothing if the key is absent. `getHandler(methodName)` splits the method
  name at its last dot and looks up the prefix. It fails with one of two different
  exception texts, and which one depends only on whether the name contains a dot;
- the **logging mapping** (`LoggingDefaultHandlerMapping`) that the server really
  uses. Each of its calls writes one log record and then delegates to the plain
  mapping;
- the **server constructor**, which registers every declared handler bean in order
  and skips beans whose class cannot be loaded. The server's `addHandler` /
  `removeHandler` simply forward to the mapping;
- the **routing decision** of `messageReceived`. Only an HTTP POST is handled. A
  throwable from the XML-RPC worker closes the channel and sends no response. A
  result goes back as one `text/xml` response. Everything else is passed upstream.

Files:
- `Registry.dfy`: table values, `Wrap`/`Put`/`Without`, `LastIndexOf`,
  `Lookup` (the body of `getHandler`), the exception texts, and the lemmas about them.
- `HandlerMapping.dfy`: the classes `HandlerMappingImpl` (a `handlers` map field
  updated in place) and `LoggingDefaultHandlerMapping`. A Dafny class cannot extend
  another class, so the second class holds the first and forwards to it.
- `Server.dfy`: handler beans, the specification `Registered` of the constructor's
  loop with its lemmas, and the class `XmlRpcServerImpl`.
- `Routing.dfy`: `Route`, the decision `messageReceived` takes.

Handler objects are values with an identity and one flag: whether they implement
`XmlRpcHandler`. An `Entry` is `Native(h)` or `Invoker(h)`. The XML-RPC worker is a
function parameter of `Route`.

The second exception text, `RPC handler object not found for "` followed by the
method name, has no closing quote in the source. The model keeps the text exactly as
written.

## Model

| member | source | states |
|---|---|---|
| Registry.Wrap | platform/platform-impl/src/com/intellij/ide/XmlRpcServerImpl.java:116-123 | the stored entry is the object itself exactly when it is an XmlRpcHandler (otherwise an Invoker), and it always wraps the given object |
| Registry.Put | platform/platform-impl/src/com/intellij/ide/XmlRpcServerImpl.java:116-123 | after adding, the name maps to the wrapped handler, the key set gains only that name, and every other entry is unchanged |
| Registry.Without | platform/platform-impl/src/com/intellij/ide/XmlRpcServerImpl.java:125-127 | removal deletes exactly that key and keeps the other entries; removing an absent name leaves the table equal to before |
| Registry.LastIndexOf | platform/platform-impl/src/com/intellij/ide/XmlRpcServerImpl.java:132 | the result is -1 exactly when the character is absent; otherwise it is a position holding the character with no occurrence after it |
| Registry.LastIndexOfUnique | platform/platform-impl/src/com/intellij/ide/XmlRpcServerImpl.java:132 | a position holding the character with none after it is the value lastIndexOf returns |
| Registry.Lookup | platform/platform-impl/src/com/intellij/ide/XmlRpcServerImpl.java:129-148 | a dot-free name always fails naming the whole method name, even if it is a registered key; a success is always a table entry; a failure is of the named kind exactly when the name has a dot, and the name it carries is unregistered (that it is the prefix before the last dot is stated by Registry.LookupQualified with Registry.DottedNameSplits) |
| Registry.LastDotOfQualified | platform/platform-impl/src/com/intellij/ide/XmlRpcServerImpl.java:132-134 | in `n.m` with dot-free `m`, the last dot is the one right after `n`, even when `n` contains dots |
| Registry.LookupQualified | platform/platform-impl/src/com/intellij/ide/XmlRpcServerImpl.java:132-143 | for every `n` and dot-free `m`, `getHandler(n.m)` returns the entry for `n` if registered, else fails naming `n` |
| Registry.QualifiedSplitUnique | platform/platform-impl/src/com/intellij/ide/XmlRpcServerImpl.java:132-134 | a dotted name splits into handler name and dot-free method in only one way |
| Registry.DottedNameSplits | platform/platform-impl/src/com/intellij/ide/XmlRpcServerImpl.java:132-134 | every dotted name is `n.m` with dot-free `m`, so LookupQualified covers all dotted names |
| Registry.LookupAfterPut | platform/platform-impl/src/com/intellij/ide/XmlRpcServerImpl.java:116-140 | after adding under `n`, a call on `n` finds the new entry and never a different old one |
| Registry.LookupAfterPutOther | platform/platform-impl/src/com/intellij/ide/XmlRpcServerImpl.java:116-140 | adding under `n` does not change how calls on any other handler name resolve |
| Registry.LookupAfterRemove | platform/platform-impl/src/com/intellij/ide/XmlRpcServerImpl.java:125-143 | after removing `n`, a call on `n` fails naming `n` |
| Registry.Message | platform/platform-impl/src/com/intellij/ide/XmlRpcServerImpl.java:142-147 | both texts start "RPC handler object "; the named failure continues with a quote, then exactly the handler name, then the fixed 11-character tail; the dot-free failure continues with `not found for "` and ends with exactly the method name |
| Registry.MessagesDistinct | platform/platform-impl/src/com/intellij/ide/XmlRpcServerImpl.java:142-147 | the two failure texts never coincide, whatever names they carry |
| Registry.MessageDeterminesName | platform/platform-impl/src/com/intellij/ide/XmlRpcServerImpl.java:142-147 | equal texts come from the same failure with the same name |
| HandlerMapping.HandlerMappingImpl.constructor | platform/platform-impl/src/com/intellij/ide/XmlRpcServerImpl.java:114 | a new mapping starts with an empty table |
| HandlerMapping.HandlerMappingImpl.AddHandler | platform/platform-impl/src/com/intellij/ide/XmlRpcServerImpl.java:116-123 | the new table is the old one with the name set to the wrapped handler (Put) |
| HandlerMapping.HandlerMappingImpl.RemoveHandler | platform/platform-impl/src/com/intellij/ide/XmlRpcServerImpl.java:125-127 | the new table is the old one without that name (Without) |
| HandlerMapping.HandlerMappingImpl.GetHandler | platform/platform-impl/src/com/intellij/ide/XmlRpcServerImpl.java:129-148 | reads the table only and returns Lookup on it; what that means is stated by Registry.Lookup, Registry.LookupQualified and Registry.DottedNameSplits |
| HandlerMapping.LoggingDefaultHandlerMapping.constructor | platform/platform-impl/src/com/intellij/ide/XmlRpcServerImpl.java:38 | the server's mapping starts with a fresh empty table and an empty log |
| HandlerMapping.LoggingDefaultHandlerMapping.AddHandler | platform/platform-impl/src/com/intellij/ide/XmlRpcServerImpl.java:152-156 | one info record with the call and the table before it is logged; the table changes exactly as the plain addHandler changes it |
| HandlerMapping.LoggingDefaultHandlerMapping.RemoveHandler | platform/platform-impl/src/com/intellij/ide/XmlRpcServerImpl.java:158-162 | one debug record is logged; the table changes exactly as the plain removeHandler changes it |
| HandlerMapping.LoggingDefaultHandlerMapping.GetHandler | platform/platform-impl/src/com/intellij/ide/XmlRpcServerImpl.java:164-168 | one info record is logged, the result is the plain lookup, and the table is unchanged |
| Server.Register | platform/platform-impl/src/com/intellij/ide/XmlRpcServerImpl.java:44-52 | one loop step: a loaded bean adds its name to the keys and maps it to the wrapped handler; every other entry is kept; a bean whose class is missing leaves the table equal to before (the `continue`) |
| Server.RegisteredKeys | platform/platform-impl/src/com/intellij/ide/XmlRpcServerImpl.java:43-53 | after construction, the registered names are exactly the names of beans that instantiated |
| Server.RegisteredLastWins | platform/platform-impl/src/com/intellij/ide/XmlRpcServerImpl.java:43-53 | the last bean that loads under a name determines that name's entry; later beans overwrite earlier ones |
| Server.RegisteredEntryOrigin | platform/platform-impl/src/com/intellij/ide/XmlRpcServerImpl.java:43-53 | every registered entry is the wrapped handler of the last bean that loaded under that name |
| Server.RegisteredSkipsMissingClass | platform/platform-impl/src/com/intellij/ide/XmlRpcServerImpl.java:45-51 | a bean whose class is missing adds nothing, and the beans after it register as if it were absent |
| Server.ConstructedLookup | platform/platform-impl/src/com/intellij/ide/XmlRpcServerImpl.java:43-53 | after construction, `n.m` resolves to the handler of the last bean that loaded under `n` |
| Server.XmlRpcServerImpl.constructor | platform/platform-impl/src/com/intellij/ide/XmlRpcServerImpl.java:42-56 | the loop leaves the mapping's table equal to Registered(beans) and its log equal to one add record per loaded bean, in order |
| Server.XmlRpcServerImpl.AddHandler | platform/platform-impl/src/com/intellij/ide/XmlRpcServerImpl.java:67-69 | forwards to the logging mapping: the table becomes Put of the old one, and one record is logged |
| Server.XmlRpcServerImpl.RemoveHandler | platform/platform-impl/src/com/intellij/ide/XmlRpcServerImpl.java:71-73 | forwards to the logging mapping: the table becomes Without of the old one, and one record is logged |
| Routing.Route | platform/platform-impl/src/com/intellij/ide/XmlRpcServerImpl.java:75-101 | a message is passed upstream unchanged exactly when it is not an HTTP POST; a POST closes the channel exactly when the worker throws; any response is text/xml and carries the worker's result |
| Routing.RouteIgnoresStateUnlessPost | platform/platform-impl/src/com/intellij/ide/XmlRpcServerImpl.java:76-100 | a message that is not a POST is routed the same way whatever the table and the worker |
| Routing.RouteDependsOnlyOnWorkerResult | platform/platform-impl/src/com/intellij/ide/XmlRpcServerImpl.java:78-96 | a POST's outcome depends on the worker only through its result on this request |

## Left out

- Netty plumbing is not modelled: `consume`, the channel buffers and streams, `Responses.create`/`send`, and `exceptionCaught` (lines 58-61, 80-95, 103-111). `Route` returns the decision as a value.
- The XML-RPC worker is a parameter of `Route`. This covers request decoding, the `getHandler` call it makes, the reflective `Invoker` call and response encoding, all of which belong to the RPC library. A lookup failure reaches `Route` only as the worker's throwable or result, as the library decides. The model makes no claim that it closes the channel.
- `DefaultXmlRpcContext` (line 40) only carries the mapping to the worker. It is not modelled.
- The log records of the logging mapping are structured. Each holds a level, the call and the table before the call; the formatted message text is not modelled. The constructor's own `LOG.error`/`LOG.info` calls (lines 49, 55) are not modelled.
- `Extensions.getExtensions` and `handlerBean.instantiate()` become an input sequence of beans with their instantiation outcomes. An instantiation failure other than `ClassNotFoundException` would abort the constructor in the source; it is not modelled.
- `getPortNumber` (lines 63-65) reads the web server's port from a host service. It is not modelled.
- The table is shared by concurrent dispatches in the source. The model is sequential only.
- Registry.Wrap: an `Invoker` is a value, not a fresh object as at line 121. Adding the same plain object twice therefore gives two equal entries, while the source gives two distinct `Invoker` instances. `Invoker` identity is not modelled.
- Handler names, method names and handler objects are assumed non-null everywhere. Only `addHandler` of the mapping marks its arguments `@NotNull`; the null path of `getHandler` (a NullPointerException at line 132) and null names in `removeHandler` are not modelled.
- The mapping's `toString`/`getHandlers` formatting (lines 170-177) is not modelled.
- ui-designer/impl/com/intellij/uiDesigner/palette/ComponentItemDialog.java is not part of this model. It is Swing dialog wiring over layout constants that are not available.
- plugins/InspectionGadgets/src/com/siyeh/ig/controlflow/UnnecessaryLabelOnContinueStatementInspection.java is not part of this model. It is a syntax-tree visitor bound to the IDE's tree API.
- platform/vcs-impl/src/com/intellij/vcs/ViewUpdateInfoNotification.java is not part of this model. It is tool-window and notification glue.
