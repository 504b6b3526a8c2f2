# BBLibReflect in Dafny

This project models the core of BBLibReflect, a Java library for Bukkit/Spigot servers, and proves properties of the model. The library reaches version-dependent server internals through reflection, and intercepts the packets between server and clients. The model has three parts.

- **Structural member resolution.** This is the `handle/` package.
  - ComparableType decides assignability under three modes, with optional unboxing.
  - The predicate builders turn constraints into predicates over one member.
  - The field, method and constructor handles walk a class and its superclasses, stopping before `Object`, and select the first member a predicate accepts.
  - The two field-counting rules are kept apart. In FieldHandle and ClassPredicateBuilder, null counts against one shared counter. In AFieldHandle, false counts per declared field type and null excludes.
  - EnumHandle maps constants by ordinal.
  - The ClassHandle, RClass and ReflectionHelper caches are filled on first use and never emptied.
- **Names and versions.** The RClass and ReflClass tables choose a class name for each side of the 1.17 package refactoring and substitute `{v}`. ReflectionHelper and ServerVersion parse version strings such as `v1_16_R3` and order the supported releases.
- **Interception and communicators.**
  - The PacketInterceptor keeps global and per-player modifier lists in priority order and places its handler in each channel pipeline. It also swaps the server's channel-future list for a proxy and updates viewer state from handshake, login and open-window messages.
  - Both InterceptedChannelDuplexHandler variants relay traffic through the modifier chain.
  - The packet communicators build, personalise and fan out packets, and complete a callback once every delivery has completed. The registry routes calls by parameter and packet type.
  - The set-slot and fake-item communicators lay out set-slot packets.
  - The two book-edit communicators keep one request per player.
  - The PermissionListener proxies permission maps, debounces bursts of `put` calls and diffs permission lists.

**How the source is represented.**
- Host objects are plain values: a class is a record of its declared members and its superclass, and `Class.isAssignableFrom` is an abstract relation.
- Objects whose fields the source updates are classes with `modifies` frames.
- Code with loops is written as methods proved against specification functions.
- A few modules model JDK behaviour the code relies on, and have no source lines of their own:
  - `JavaInts`: 32-bit wrap-around, truncating division and remainder;
  - `JavaStrings`: case folding, `replace`, `split`, `Integer.parseInt`;
  - `Reflect`: the superclass walk, first-match search, Guava's `Primitives.unwrap`.
- Reflection failures, the scheduler, clocks and Bukkit lookups become parameters: a `bool` success flag, a `Result`, a time value or a lookup function.

## Model

| member | source | states |
|---|---|---|
| AConstructorHandle.Locate | src/main/java/me/blvckbytes/bblibreflect/handle/AConstructorHandle.java:31-49 | A found constructor is one of the target's own declared constructors and is accepted by the predicate. NoSuchMethod is thrown exactly when the target is present and no declared constructor is accepted. |
| AConstructorHandle.NewAConstructorHandle | src/main/java/me/blvckbytes/bblibreflect/handle/AConstructorHandle.java:31-49 | The constructor's loop gives IllegalState without a target, the first accepted declared constructor, or NoSuchMethod. |
| AFieldHandle.SearchTyped | src/main/java/me/blvckbytes/bblibreflect/handle/AFieldHandle.java:41-59 | A taken field lies on the walk, and the predicate answered true for it at some type counter. |
| AFieldHandle.NewAFieldHandle | src/main/java/me/blvckbytes/bblibreflect/handle/AFieldHandle.java:32-66 | The hierarchy loop keeps one counter per exact field type. It computes the per-type search: IllegalState without a target, NoSuchField when nothing is taken. |
| AFieldHandle.ScanTyped | src/main/java/me/blvckbytes/bblibreflect/handle/AFieldHandle.java:44-56 | The loop over one class's declared fields either ends the walk with the walk's own result (a throw or a take), or leaves counters from which the walk over the remaining classes gives the same result. |
| AFieldHandle.LocateAccepted | src/main/java/me/blvckbytes/bblibreflect/handle/AFieldHandle.java:44-51 | The handle's field lies on the target's hierarchy walk and was accepted by the predicate. |
| AFieldHandle.SearchTypedPointwise | src/main/java/me/blvckbytes/bblibreflect/handle/AFieldHandle.java:44-56 | Two predicates that agree on every field of the walk select the same field. |
| AFieldHandle.TypedSkipSelects | src/main/java/me/blvckbytes/bblibreflect/handle/AFieldHandle.java:44-56 | Under the counting rule, the search takes the earliest field that is counted and accepted and has at least skip counted fields of its own type before it. Nothing is taken exactly when no such field exists. |
| AFieldHandle.UncountedSelects | src/main/java/me/blvckbytes/bblibreflect/handle/AFieldHandle.java:31-56 | A predicate that never answers null and ignores the counter selects the first field of the walk it accepts. |
| AMethodHandle.SearchFlagged | src/main/java/me/blvckbytes/bblibreflect/handle/AMethodHandle.java:38-51 | A found method is declared in some class of the walk, and the predicate accepted it with flag "class differs from target". |
| AMethodHandle.NewAMethodHandle | src/main/java/me/blvckbytes/bblibreflect/handle/AMethodHandle.java:31-58 | The nested loops give IllegalState without a target, the first accepted method in walk order, or NoSuchMethod. |
| AMethodHandle.FlagMarksSuperclasses | src/main/java/me/blvckbytes/bblibreflect/handle/AMethodHandle.java:38-43 | The walk starts at the target, and every later class of the walk differs from it. So the flag is false exactly for the target's own methods. |
| AMethodHandle.OwnMethodsOnly | src/main/java/me/blvckbytes/bblibreflect/handle/AMethodHandle.java:41-46 | A predicate that refuses superclass methods can only select one of the target's own methods. |
| AMethodHandle.FlagIgnored | src/main/java/me/blvckbytes/bblibreflect/handle/AMethodHandle.java:38-51 | A predicate that ignores the flag makes the walk a plain first match over all methods in walk order. |
| AMethodHandle.LocateIgnoringFlag | src/main/java/me/blvckbytes/bblibreflect/handle/AMethodHandle.java:31-58 | With a flag-ignoring predicate, the handle is the first accepted method of the whole walk, or NoSuchMethod. |
| ArgsConstructorHandle.ArgsConstructorSelects | src/main/java/me/blvckbytes/bblibreflect/handle/ArgsConstructorHandle.java:24-40 | The handle is the first declared constructor whose parameter count matches and whose parameters accept the arguments position by position. Otherwise NoSuchMethod, and then no constructor accepts. With no arguments the handle has no parameters. |
| ArgsMethodHandle.CheckArguments | src/main/java/me/blvckbytes/bblibreflect/handle/ArgsMethodHandle.java:33-42 | The parameter loop answers true exactly when the lengths agree and every parameter type is assignable from the argument type at its position. |
| ArgsMethodHandle.Accepts | src/main/java/me/blvckbytes/bblibreflect/handle/ArgsMethodHandle.java:29-43 | The predicate of both constructors: the declaring-class check unless superclasses are allowed, the positional parameter check, and the return type when one is given. Its meaning is stated by ArgsSelectsFirst and ExactParametersAccepted. |
| ArgsMethodHandle.Locate | src/main/java/me/blvckbytes/bblibreflect/handle/ArgsMethodHandle.java:24-67 | The constructors search the walk with that predicate. ArgsSelectsFirst states what they find. |
| ArgsMethodHandle.ArgsSelectsFirst | src/main/java/me/blvckbytes/bblibreflect/handle/ArgsMethodHandle.java:24-67 | A found method is accepted: it is declared on the target unless superclasses are allowed, its parameters accept the arguments position by position, and its return type fits when one is given. No earlier method of the walk is accepted. NoSuchMethod is thrown exactly when no method of the walk is accepted. |
| ArgsMethodHandle.ExactParametersAccepted | src/main/java/me/blvckbytes/bblibreflect/handle/ArgsMethodHandle.java:29-43 | With a reflexive assignability relation, a method declared on the target with exactly the argument types is accepted. |
| InterceptedChannelHandler.RunModifiers | src/main/java/me/blvckbytes/bblibreflect/InterceptedChannelDuplexHandler.java:49-55 | The modifier loop with its early return on null is the chain evaluation: each modifier gets its predecessor's output, a null ends the chain, and a throw stops it at the latest message. |
| InterceptedChannelHandler.SpecificsFor | src/main/java/me/blvckbytes/bblibreflect/InterceptedChannelDuplexHandler.java:58-61 | The receiver-specific list is empty without a UUID or without an entry; otherwise it is the UUID's list. |
| InterceptedChannelHandler.EvaluateLists | src/main/java/me/blvckbytes/bblibreflect/InterceptedChannelDuplexHandler.java:46-78 | Running the global list, then the receiver's list, with the shared catch, relays what running their concatenation relays: nothing if a modifier returned null, else the latest message. |
| InterceptedChannelHandler.ChannelRead | src/main/java/me/blvckbytes/bblibreflect/InterceptedChannelDuplexHandler.java:43-79 | An inbound message is relayed as the evaluation of both lists decides. |
| InterceptedChannelHandler.Write | src/main/java/me/blvckbytes/bblibreflect/InterceptedChannelDuplexHandler.java:81-120 | An outbound message whose class name lacks "Packet" is written unchanged; any other is relayed as the evaluation of both lists decides. |
| InterceptedChannelHandler.EvaluationOrder | src/main/java/me/blvckbytes/bblibreflect/InterceptedChannelDuplexHandler.java:46-78 | A null from a global modifier drops the message; a throw among the globals relays the latest message and skips the receiver's list; otherwise the receiver's list runs on the globals' output. Without a UUID only the globals run. |
| Interception.RunChainAppend | src/main/java/me/blvckbytes/bblibreflect/InterceptedChannelDuplexHandler.java:46-70 | Running two lists in turn is running their concatenation. The second list runs only when the first passed the message on. |
| Interception.TerminationStopsChain | src/main/java/me/blvckbytes/bblibreflect/InterceptedChannelDuplexHandler.java:49-55 | If the i-th modifier returns null, the whole chain ends terminated, whatever follows it. |
| Interception.InsertByPriority | src/main/java/me/blvckbytes/bblibreflect/PacketInterceptor.java:155-160 | A HIGH modifier goes first and a LOW one last, with the rest of the list unchanged. |
| Interception.WithoutModifier | src/main/java/me/blvckbytes/bblibreflect/PacketInterceptor.java:162-166 | removeIf keeps exactly the entries of other modifiers, and no entry of the removed one is left. |
| Interception.RegistrationQueries | src/main/java/me/blvckbytes/bblibreflect/PacketInterceptor.java:155-173 | After register the modifier is registered; after unregister it is not. |
| Interception.WithoutAbsentModifier | src/main/java/me/blvckbytes/bblibreflect/PacketInterceptor.java:162-166 | Unregistering a modifier that is not registered leaves the list as it was. |
| Interception.WithoutModifierAppend | src/main/java/me/blvckbytes/bblibreflect/PacketInterceptor.java:162-166 | removeIf distributes over concatenation. |
| Interception.RegisterThenUnregister | src/main/java/me/blvckbytes/bblibreflect/PacketInterceptor.java:155-166 | Registering a new modifier and then unregistering it restores the list. |
| Interception.RegistrationKeepsOthers | src/main/java/me/blvckbytes/bblibreflect/PacketInterceptor.java:155-166 | Registering one modifier changes another's remaining list only by the new entry at the front or at the back. |
| Interception.RemoveName | src/main/java/me/blvckbytes/bblibreflect/PacketInterceptor.java:343-347 | Removing a handler name keeps only names of the pipeline, and an absent name changes nothing. |
| Interception.IndexOf | src/main/java/me/blvckbytes/bblibreflect/PacketInterceptor.java:378-379 | The position found holds the name, and the name does not occur before it. |
| Interception.Pipeline.constructor | src/main/java/me/blvckbytes/bblibreflect/PacketInterceptor.java:338-340 | A pipeline holds distinct handler names. |
| Interception.Pipeline.Remove | src/main/java/me/blvckbytes/bblibreflect/PacketInterceptor.java:347 | Removing a handler takes exactly that name out, keeps the others in order, and keeps names distinct. |
| Interception.Pipeline.AddBefore | src/main/java/me/blvckbytes/bblibreflect/PacketInterceptor.java:378-379 | The new name is inserted directly before the base handler, and the names stay distinct. |
| Interception.Pipeline.AddLast | src/main/java/me/blvckbytes/bblibreflect/PacketInterceptor.java:382 | The new name is appended, and the names stay distinct. |
| ClassHandle.Handle.constructor | src/main/java/me/blvckbytes/bblibreflect/handle/ClassHandle.java:27-41 | A handle wraps the given class. |
| ClassHandle.Handle.LocateMethod | src/main/java/me/blvckbytes/bblibreflect/handle/ClassHandle.java:87-89 | A fresh method builder queries this class with the builder's defaults. |
| ClassHandle.Handle.LocateConstructor | src/main/java/me/blvckbytes/bblibreflect/handle/ClassHandle.java:94-96 | A fresh constructor builder queries this class with no constraints. |
| ClassHandle.IsInstance | src/main/java/me/blvckbytes/bblibreflect/handle/ClassHandle.java:54-56 | null is never an instance. Every other object is an instance exactly when its runtime class is assignable to the class: a raw Class object has runtime class java.lang.Class, a ClassHandle has the ClassHandle class, and any other object has its own runtime type. |
| ClassHandle.EverythingIsAnObject | src/main/java/me/blvckbytes/bblibreflect/handle/ClassHandle.java:54-56 | When every class is assignable to java.lang.Object, a handle of java.lang.Object accepts every non-null object, Class objects and handles included. |
| ClassHandle.Equals | src/main/java/me/blvckbytes/bblibreflect/handle/ClassHandle.java:98-104 | equals as written holds exactly for the wrapped Class object itself. |
| ClassHandle.EqualsIrreflexive | src/main/java/me/blvckbytes/bblibreflect/handle/ClassHandle.java:98-104 | As written, no handle equals itself or any other handle. |
| ClassHandle.EqualsCorrectedContract | src/main/java/me/blvckbytes/bblibreflect/handle/ClassHandle.java:98-109 | The corrected equality is reflexive, symmetric and transitive on handles and agrees with hashCode. It also accepts everything the written one accepts. |
| ClassHandle.Caches.constructor | src/main/java/me/blvckbytes/bblibreflect/handle/ClassHandle.java:36-39 | Both caches start empty. |
| ClassHandle.Caches.Of | src/main/java/me/blvckbytes/bblibreflect/handle/ClassHandle.java:115-127 | of returns the cached handle of the class. A first call creates a fresh handle and caches it, and the enum cache is untouched. |
| ClassHandle.Caches.OfTwice | src/main/java/me/blvckbytes/bblibreflect/handle/ClassHandle.java:115-127 | Two calls of of on one class give the identical handle. |
| ClassHandle.Caches.AsEnum | src/main/java/me/blvckbytes/bblibreflect/handle/ClassHandle.java:62-75 | asEnum returns the cached enum handle, else builds one and caches it on success. It throws IllegalState for a non-enum class and then caches nothing. |
| ClassHandle.Caches.AsEnumTwice | src/main/java/me/blvckbytes/bblibreflect/handle/ClassHandle.java:62-75 | Two calls of asEnum on one handle give the same answer. |
| ClassNames.ForName | src/main/java/me/blvckbytes/bblibreflect/ReflClass.java:158-160 | Class.forName succeeds exactly for a non-empty name the loader knows, returning that class; otherwise it throws ClassNotFound. |
| ClassNames.SubstitutionComplete | src/main/java/me/blvckbytes/bblibreflect/ReflClass.java:158-160 | If every brace of a name starts a "{v}", substituting a brace-free version leaves no brace in it. |
| ClassNames.VersionIndependent | src/main/java/me/blvckbytes/bblibreflect/ReflClass.java:158-160 | A name without a placeholder resolves to itself for every version. |
| ClassNames.NoBraceNoPlaceholder | src/main/java/me/blvckbytes/bblibreflect/ReflClass.java:158-160 | A brace-free name contains no "{v}". |
| ClassPredicateBuilder.Builder.constructor | src/main/java/me/blvckbytes/bblibreflect/handle/ClassPredicateBuilder.java:38-40 | A new builder targets the class with both modifiers as wildcards and skip 0. |
| ClassPredicateBuilder.Builder.WithPublic | src/main/java/me/blvckbytes/bblibreflect/handle/ClassPredicateBuilder.java:48-51 | Only the public constraint changes. |
| ClassPredicateBuilder.Builder.WithStatic | src/main/java/me/blvckbytes/bblibreflect/handle/ClassPredicateBuilder.java:57-60 | Only the static constraint changes. |
| ClassPredicateBuilder.Builder.WithSkip | src/main/java/me/blvckbytes/bblibreflect/handle/ClassPredicateBuilder.java:68-71 | Only the skip count changes. |
| ClassPredicateBuilder.IsSkipPredicate | src/main/java/me/blvckbytes/bblibreflect/handle/ClassPredicateBuilder.java:92-107 | The class predicate is the generic skip predicate over the modifier filters: false on a mismatch, null while skip exceeds the counter, else true. |
| ClassPredicateBuilder.SelectsNth | src/main/java/me/blvckbytes/bblibreflect/handle/ClassPredicateBuilder.java:75-108 | required returns the (skip)-th class that passes both modifier filters, or fails when there are not that many. optional returns that class or null. |
| CollectionFieldHandle.NamedCollectionPredicate | src/main/java/me/blvckbytes/bblibreflect/handle/CollectionFieldHandle.java:58-69 | The named predicate never answers null. It accepts exactly a collection-assignable field whose name equals the given one ignoring case. |
| CollectionFieldHandle.SelectedFieldFits | src/main/java/me/blvckbytes/bblibreflect/handle/CollectionFieldHandle.java:27-56 | A selected field is parameterized with a class as its first type argument, is counted under the static filter, and passes the public, declaring-class, collection and element-type checks. |
| CollectionFieldHandle.CollectionSelects | src/main/java/me/blvckbytes/bblibreflect/handle/CollectionFieldHandle.java:27-56 | When every collection-assignable field on the walk is parameterized with a class as its first type argument (other fields are arbitrary), the handle takes exactly the first selectable field. Without one it throws NoSuchField. |
| CollectionFieldHandle.CollectionCastFails | src/main/java/me/blvckbytes/bblibreflect/handle/CollectionFieldHandle.java:50-55 | Once a field passes every filter, the predicate throws ClassCastException exactly when the field is raw or its first type argument is not a class. It answers without throwing exactly when the field is parameterized that way. |
| CollectionFieldHandle.Locate | src/main/java/me/blvckbytes/bblibreflect/handle/CollectionFieldHandle.java:27-56 | The constructor searches the walk with the typed collection predicate. SelectedFieldFits and CollectionSelects state what it finds for any target whose collection-typed fields carry a class argument, and CollectionCastFails when it throws. |
| ComparableTypes.Make | src/main/java/me/blvckbytes/bblibreflect/handle/ComparableType.java:39-44 | The constructor keeps the flags and stores an already unwrapped type when boxing is ignored. |
| ComparableTypes.MatchesExact | src/main/java/me/blvckbytes/bblibreflect/handle/ComparableType.java:50-66 | Mode NONE matches exactly the stored type; with boxing ignored both sides are unwrapped first. |
| ComparableTypes.MatchesTypeToTarget | src/main/java/me/blvckbytes/bblibreflect/handle/ComparableType.java:50-75 | TYPE_TO_TARGET matches when the stored type is assignable from the candidate, compared unwrapped when boxing is ignored. |
| ComparableTypes.MatchesTargetToType | src/main/java/me/blvckbytes/bblibreflect/handle/ComparableType.java:50-72 | TARGET_TO_TYPE matches when the candidate is assignable from the stored type, compared unwrapped when boxing is ignored. |
| ComparableTypes.BoxedMatchesPrimitive | src/main/java/me/blvckbytes/bblibreflect/handle/ComparableType.java:39-56 | Integer and int match each other when boxing is ignored, and not otherwise. |
| ComparableTypes.MatchesItself | src/main/java/me/blvckbytes/bblibreflect/handle/ComparableType.java:39-80 | With a reflexive assignability relation, every mode matches its own type. |
| ConstructorHandle.Locate | src/main/java/me/blvckbytes/bblibreflect/handle/ConstructorHandle.java:37-54 | A found constructor is a declared constructor of the target that the predicate accepts. |
| ConstructorHandle.NewConstructorHandle | src/main/java/me/blvckbytes/bblibreflect/handle/ConstructorHandle.java:37-58 | The constructor's loop computes the search: IllegalState without a target, the first accepted constructor, or NoSuchMethod. |
| ConstructorHandle.IgnoresSuperclass | src/main/java/me/blvckbytes/bblibreflect/handle/ConstructorHandle.java:43-50 | Only the target's own constructors are searched, so its superclass does not change the result. |
| ConstructorHandle.ChoosesEarliest | src/main/java/me/blvckbytes/bblibreflect/handle/ConstructorHandle.java:43-50 | The first accepted constructor in declaration order is taken. |
| ConstructorPredicateBuilder.CheckParameters | src/main/java/me/blvckbytes/bblibreflect/handle/ConstructorPredicateBuilder.java:123-137 | The arity test and the positional loop accept exactly when there are as many parameters as requested and each matches its requested type. |
| ConstructorPredicateBuilder.Builder.constructor | src/main/java/me/blvckbytes/bblibreflect/handle/ConstructorPredicateBuilder.java:39-42 | A new builder targets the class with a public wildcard and no parameter types. |
| ConstructorPredicateBuilder.Builder.WithPublic | src/main/java/me/blvckbytes/bblibreflect/handle/ConstructorPredicateBuilder.java:50-53 | Only the public constraint changes. |
| ConstructorPredicateBuilder.Builder.WithParameter | src/main/java/me/blvckbytes/bblibreflect/handle/ConstructorPredicateBuilder.java:73-76 | One comparable type is appended to the requested parameters, and nothing else changes. |
| ConstructorPredicateBuilder.Builder.WithParameters | src/main/java/me/blvckbytes/bblibreflect/handle/ConstructorPredicateBuilder.java:61-65 | Each given type is appended in order as an exact, boxing-sensitive comparable type. |
| ConstructorPredicateBuilder.Builder.GetRequired | src/main/java/me/blvckbytes/bblibreflect/handle/ConstructorPredicateBuilder.java:115-139 | required scans the target's declared constructors with the built predicate. |
| ConstructorPredicateBuilder.Builder.GetOptional | src/main/java/me/blvckbytes/bblibreflect/handle/ConstructorPredicateBuilder.java:100-113 | optional gives the required result or null, and rethrows IncompletePredicateBuilder. |
| ConstructorPredicateBuilder.RequiredOutcomes | src/main/java/me/blvckbytes/bblibreflect/handle/ConstructorPredicateBuilder.java:100-139 | required returns the first accepted constructor in declaration order. It throws NoSuchMethod exactly when no constructor is accepted. optional never throws here and is null exactly when required throws. |
| ConstructorPredicateBuilder.NoParametersMeansNullary | src/main/java/me/blvckbytes/bblibreflect/handle/ConstructorPredicateBuilder.java:123-126 | Without requested parameters only a parameterless constructor with the right public modifier is found. |
| EnumHandle.New | src/main/java/me/blvckbytes/bblibreflect/handle/EnumHandle.java:36-47 | The constructor throws IllegalState exactly for a class without enum constants; otherwise it holds the class and its constants. |
| EnumHandle.GetByOrdinal | src/main/java/me/blvckbytes/bblibreflect/handle/EnumHandle.java:56-62 | getByOrdinal returns the constant at an ordinal in range and throws EnumConstantNotPresent for any other ordinal. |
| EnumHandle.CopyMapsByPosition | src/main/java/me/blvckbytes/bblibreflect/handle/EnumHandle.java:71-73 | A copy whose constants are in the same order maps its i-th constant to the handle's i-th constant, or throws when the handle has fewer constants. |
| EnumHandle.OwnConstantsRoundTrip | src/main/java/me/blvckbytes/bblibreflect/handle/EnumHandle.java:36-73 | Looking a handle's own well-ordered constants up by copy gives each constant back. |
| FieldHandle.SearchCounted | src/main/java/me/blvckbytes/bblibreflect/handle/FieldHandle.java:45-66 | A found field is one of the walked fields. |
| FieldHandle.NewFieldHandle | src/main/java/me/blvckbytes/bblibreflect/handle/FieldHandle.java:36-75 | The hierarchy loop with its shared counter computes the search: IllegalState without a target, the first taken field, or NoSuchField. |
| FieldHandle.SearchCountedAppend | src/main/java/me/blvckbytes/bblibreflect/handle/FieldHandle.java:44-66 | Searching two lists in turn is searching their concatenation, with the counter carried from the first into the second. |
| FieldHandle.SearchStopsAtFirstTake | src/main/java/me/blvckbytes/bblibreflect/handle/FieldHandle.java:58-62 | The search stops at the first field the predicate takes, whatever follows it. |
| FieldHandle.Filter | src/main/java/me/blvckbytes/bblibreflect/handle/FieldHandle.java:48-63 | The eligible candidates are kept in order, and only those. |
| FieldHandle.SkipSelectsNth | src/main/java/me/blvckbytes/bblibreflect/handle/FieldHandle.java:49-62 | With a predicate that answers null while skip exceeds the counter, the search takes the (skip+1)-th eligible candidate. |
| FieldHandle.FieldHandleSkip | src/main/java/me/blvckbytes/bblibreflect/handle/FieldHandle.java:36-75 | A field handle with such a predicate holds the (skip)-th eligible field of the walk, or throws NoSuchField when there are not that many. |
| InterceptedViewers.SendPacket | src/main/java/me/blvckbytes/bblibreflect/InterceptedViewer.java:64-85 | On an open channel the send method is invoked, with a listener exactly when a callback is given. On a closed channel nothing is invoked and a given callback runs at once. |
| InterceptedViewers.SendHandsCallbackOverOnce | src/main/java/me/blvckbytes/bblibreflect/InterceptedViewer.java:64-85 | A given callback is either attached to the send or run at once, never both. Without one, neither happens. |
| InterceptedViewers.ReceivePacket | src/main/java/me/blvckbytes/bblibreflect/InterceptedViewer.java:88-104 | The receive method is invoked exactly on an open channel. The callback runs on a closed channel or after a successful invocation, and a failed invocation is only logged. |
| InterceptedViewers.ResponseTime | src/main/java/me/blvckbytes/bblibreflect/InterceptedViewer.java:117-121 | The response time is the elapsed time when it fits an int, and 0 when negative. The (int) cast of the long difference wraps, and the result always lies in 0..2^31-1. |
| InterceptedViewers.SmoothedPing | src/main/java/me/blvckbytes/bblibreflect/InterceptedViewer.java:136 | The new ping is (3*ping + responseTime)/4, computed in 32-bit arithmetic with truncating division. |
| InterceptedViewers.SmoothedPingBetween | src/main/java/me/blvckbytes/bblibreflect/InterceptedViewer.java:136 | Without overflow, the smoothed ping lies between the old ping and the response time, and is the floor of their 3:1 weighted mean. |
| InterceptedViewers.SmoothedPingSteady | src/main/java/me/blvckbytes/bblibreflect/InterceptedViewer.java:136 | A response time equal to the ping leaves the ping unchanged. |
| InterceptedViewers.Viewer.constructor | src/main/java/me/blvckbytes/bblibreflect/InterceptedViewer.java:49-61 | A new viewer holds its channel, with no UUID and all counters at 0. |
| InterceptedViewers.Viewer.SetUuid | src/main/java/me/blvckbytes/bblibreflect/InterceptedViewer.java:41 | The setter changes only the UUID. |
| InterceptedViewers.Viewer.SetClientVersion | src/main/java/me/blvckbytes/bblibreflect/InterceptedViewer.java:42 | The setter changes only the client version. |
| InterceptedViewers.Viewer.SetCurrentWindowId | src/main/java/me/blvckbytes/bblibreflect/InterceptedViewer.java:43 | The setter changes only the current window id. |
| InterceptedViewers.Viewer.SetLastHandshakeRequest | src/main/java/me/blvckbytes/bblibreflect/InterceptedViewer.java:45-46 | The setters change only the handshake request stamp and id. |
| InterceptedViewers.Viewer.CompletedHandshake | src/main/java/me/blvckbytes/bblibreflect/InterceptedViewer.java:115-137 | Only the ping changes. It becomes the smoothed ping of the old value and the clamped response time since the last request. |
| MapFieldHandle.NamedMapPredicate | src/main/java/me/blvckbytes/bblibreflect/handle/MapFieldHandle.java:62-73 | The named predicate never answers null. It accepts exactly a field of exactly the map type whose name equals the given one ignoring case. |
| MapFieldHandle.MapTakes | src/main/java/me/blvckbytes/bblibreflect/handle/MapFieldHandle.java:36-59 | The predicate takes a field exactly when it passes the modifier, superclass and skip filters, has an assignable map type, and has at least two class type arguments that fit the key and value types. |
| MapFieldHandle.MapFiltersBeforeCast | src/main/java/me/blvckbytes/bblibreflect/handle/MapFieldHandle.java:38-48 | A field rejected by the public, superclass or skip filter is rejected (or skipped on a static mismatch) before its generic type is read, so it never throws. |
| MapFieldHandle.MapCastFails | src/main/java/me/blvckbytes/bblibreflect/handle/MapFieldHandle.java:50-58 | Once a field with two type arguments passes every filter, the predicate throws ClassCastException exactly when the field is raw, its key argument is not a class, or its key fits and its value argument is not a class. The value argument is read only after the key fits. |
| MapFieldHandle.MapSelects | src/main/java/me/blvckbytes/bblibreflect/handle/MapFieldHandle.java:27-60 | When every map-assignable field on the walk has two class type arguments (other fields are arbitrary), the handle takes exactly the earliest field that fits and has at least skip earlier counted fields of its exact type. Without one it throws NoSuchField. |
| MapFieldHandle.Locate | src/main/java/me/blvckbytes/bblibreflect/handle/MapFieldHandle.java:27-60 | The constructor searches the walk with the typed map predicate. MapSelects states what it finds for any target whose map-typed fields carry two class arguments, and MapCastFails when it throws. |
| MethodHandle.NewMethodHandle | src/main/java/me/blvckbytes/bblibreflect/handle/MethodHandle.java:36-66 | The hierarchy loop computes the search: IllegalState without a target, the first accepted method walking upward, or NoSuchMethod. |
| MethodHandle.ScanDeclared | src/main/java/me/blvckbytes/bblibreflect/handle/MethodHandle.java:47-54 | The loop over one class's declared methods yields the first method the predicate accepts, or nothing when it accepts none. |
| MethodHandle.DerivedWins | src/main/java/me/blvckbytes/bblibreflect/handle/MethodHandle.java:44-54 | An accepted method of the target itself is taken before any superclass method. |
| MethodHandle.ContinuesInSuperclass | src/main/java/me/blvckbytes/bblibreflect/handle/MethodHandle.java:44-57 | When no own method is accepted, the result is the superclass's. |
| MethodHandle.NoMatchThrows | src/main/java/me/blvckbytes/bblibreflect/handle/MethodHandle.java:59-61 | NoSuchMethod is thrown exactly when no walked method is accepted. |
| MethodPredicateBuilder.CheckParameters | src/main/java/me/blvckbytes/bblibreflect/handle/MethodPredicateBuilder.java:224-238 | The parameter check accepts when no parameters are requested, or when the counts agree and each parameter matches its requested type in order. |
| MethodPredicateBuilder.Builder.constructor | src/main/java/me/blvckbytes/bblibreflect/handle/MethodPredicateBuilder.java:43-48 | A new builder asks for non-static methods of the target only, with no name, return type or parameters. |
| MethodPredicateBuilder.Builder.WithStatic | src/main/java/me/blvckbytes/bblibreflect/handle/MethodPredicateBuilder.java:56-59 | Only the static constraint changes. |
| MethodPredicateBuilder.Builder.WithPublic | src/main/java/me/blvckbytes/bblibreflect/handle/MethodPredicateBuilder.java:65-68 | Only the public constraint changes. |
| MethodPredicateBuilder.Builder.WithName | src/main/java/me/blvckbytes/bblibreflect/handle/MethodPredicateBuilder.java:76-79 | Only the name changes. |
| MethodPredicateBuilder.Builder.WithReturnType | src/main/java/me/blvckbytes/bblibreflect/handle/MethodPredicateBuilder.java:105-113 | A null type clears the return type; otherwise the comparable type is stored. Nothing else changes. |
| MethodPredicateBuilder.Builder.WithParameter | src/main/java/me/blvckbytes/bblibreflect/handle/MethodPredicateBuilder.java:143-146 | One comparable type is appended to the requested parameters. |
| MethodPredicateBuilder.Builder.WithParameters | src/main/java/me/blvckbytes/bblibreflect/handle/MethodPredicateBuilder.java:131-135 | Each given type is appended in order as an exact, boxing-sensitive comparable type. |
| MethodPredicateBuilder.Builder.WithAllowSuperclass | src/main/java/me/blvckbytes/bblibreflect/handle/MethodPredicateBuilder.java:174-177 | Only the superclass flag changes. |
| MethodPredicateBuilder.Builder.GetRequired | src/main/java/me/blvckbytes/bblibreflect/handle/MethodPredicateBuilder.java:196-242 | required applies the completeness check and then the method search with the built predicate. |
| MethodPredicateBuilder.Builder.GetOptional | src/main/java/me/blvckbytes/bblibreflect/handle/MethodPredicateBuilder.java:181-194 | optional gives the required result or null, and rethrows IncompletePredicateBuilder. |
| MethodPredicateBuilder.RequiredOutcomes | src/main/java/me/blvckbytes/bblibreflect/handle/MethodPredicateBuilder.java:196-242 | required throws IncompletePredicateBuilder exactly when no name, return type or parameter is given. Any other failure is NoSuchMethod. A found method lies on the walk and passes every test. |
| MethodPredicateBuilder.OptionalOutcomes | src/main/java/me/blvckbytes/bblibreflect/handle/MethodPredicateBuilder.java:181-194 | optional throws exactly for an incomplete builder. It is null exactly when required throws NoSuchMethod, and otherwise it is required's method. |
| MethodPredicateBuilder.NameIgnoresCase | src/main/java/me/blvckbytes/bblibreflect/handle/MethodPredicateBuilder.java:216-218 | Two names equal ignoring case select the same method. |
| MethodPredicateBuilder.DefaultSkipsStatic | src/main/java/me/blvckbytes/bblibreflect/handle/MethodPredicateBuilder.java:43-48 | With the defaults and a name, only a non-static method declared in the target itself is found. |
| NamedMethodHandle.NamedSelectsFirst | src/main/java/me/blvckbytes/bblibreflect/handle/NamedMethodHandle.java:24-51 | The handle holds the first walked method whose name equals the requested one ignoring case, that is declared in the target unless superclasses are allowed, and whose return type fits when one is given. Without such a method it throws NoSuchMethod. |
| NamedMethodHandle.Locate | src/main/java/me/blvckbytes/bblibreflect/handle/NamedMethodHandle.java:24-51 | Both constructors search the walk with the name, declaring-class and return-type predicate. NamedSelectsFirst states what they find. |
| PacketsReflClass.ResolveLoadsCandidate | src/main/java/me/blvckbytes/bblibpackets/ReflClass.java:129-131 | Unfolds resolve's definition: it loads the chosen candidate name with "{v}" substituted, and throws ClassNotFound when the loader lacks it. Its partners are AfterRefactorVersionIndependent and BeforeRefactorSubstituted. |
| PacketsReflClass.AfterRefactorVersionIndependent | src/main/java/me/blvckbytes/bblibpackets/ReflClass.java:129-131 | A placeholder-free post-refactoring name resolves the same for every version. |
| ReflClass.ResolveLoadsCandidate | src/main/java/me/blvckbytes/bblibreflect/ReflClass.java:158-160 | Unfolds resolve's definition: it loads the chosen candidate of the table as written, with "{v}" substituted, and throws ClassNotFound when the loader lacks it. Its partners are AfterRefactorVersionIndependent, ResolveCorrectedAgrees and BeforeRefactorSubstituted. |
| ReflClass.ResolveCorrectedAgrees | src/main/java/me/blvckbytes/bblibreflect/ReflClass.java:38-41 | Resolving with the intended table differs from the table as written only for I_CHAT_BASE_COMPONENT before the refactoring. There the written table loads whatever NetworkManager loads. |
| ReflClass.AfterRefactorVersionIndependent | src/main/java/me/blvckbytes/bblibreflect/ReflClass.java:158-160 | A placeholder-free post-refactoring name resolves the same for every version. |
| ReflClass.BeforeRefactorSubstituted | src/main/java/me/blvckbytes/bblibreflect/ReflClass.java:158-160 | A pre-refactoring name of the table as written whose braces are all placeholders has none left after substituting a brace-free version. |
| RClassTable.ResolveCache.constructor | src/main/java/me/blvckbytes/bblibreflect/RClass.java:273-277 | The resolve cache starts empty. |
| RClassTable.ResolveCache.Resolve | src/main/java/me/blvckbytes/bblibreflect/RClass.java:279-293 | resolve returns the cached handle of the constant without loading anything. Otherwise it loads the chosen name of the table as written; a failure throws ClassNotFound and caches nothing, and a success caches the handle of the loaded class. |
| RClassTable.ResolveCache.ResolveNamed | src/main/java/me/blvckbytes/bblibreflect/RClass.java:280-293 | Once the name is chosen, a cached handle is returned as is; otherwise a failed load throws ClassNotFound and caches nothing, and a successful one caches the handle of the loaded class. |
| RClassTable.ResolveCache.ResolveCorrected | src/main/java/me/blvckbytes/bblibreflect/RClass.java:279-293 | resolve with the intended table: the same caching, loading the intended name. |
| RClassTable.NameCorrectedAgrees | src/main/java/me/blvckbytes/bblibreflect/RClass.java:42-45 | The intended name differs from the written one only for I_CHAT_BASE_COMPONENT before the refactoring, where the written name is NetworkManager's. |
| RClassTable.EmptyCandidateFails | src/main/java/me/blvckbytes/bblibreflect/RClass.java:279-290 | A constant without a name on the chosen side of the refactoring cannot be resolved. |
| ReflectionHelper.FindVersion | src/main/java/me/blvckbytes/bblibreflect/ReflectionHelper.java:172-174 | The version is the fourth dot-separated segment of the server class name, and it fails when there are fewer segments. |
| ReflectionHelper.ParseVersion | src/main/java/me/blvckbytes/bblibreflect/ReflectionHelper.java:180-187 | A parsed version has exactly three numbers. |
| ReflectionHelper.ParseVersionRoundTrip | src/main/java/me/blvckbytes/bblibreflect/ReflectionHelper.java:180-187 | parseVersion reads back the major, minor and revision numbers of any "vM_N_RK" string with int-sized numbers. |
| ReflectionHelper.DigitsHaveNoLetters | src/main/java/me/blvckbytes/bblibreflect/ReflectionHelper.java:180-187 | A digit string contains no separator or prefix letter, so splitting on "_" keeps numbers whole. |
| ReflectionHelper.FindVersionOfPackage | src/main/java/me/blvckbytes/bblibreflect/ReflectionHelper.java:172-174 | For a package path of more than three dot-free segments, findVersion returns the fourth. |
| ReflectionHelper.EmptyPacketChoice | src/main/java/me/blvckbytes/bblibreflect/ReflectionHelper.java:80-96 | The choice is a declared constructor that takes no parameters or only the packet data serializer. There is none exactly when no constructor is applicable, and the serializer path is used exactly when the chosen constructor takes it. |
| ReflectionHelper.BurnTimeIn | src/main/java/me/blvckbytes/bblibreflect/ReflectionHelper.java:147-161 | A burn time is found exactly when the furnace table has an entry for the material, and then it is that entry's value. |
| ReflectionHelper.Helper.constructor | src/main/java/me/blvckbytes/bblibreflect/ReflectionHelper.java:56-71 | A new helper carries the loader and version, with empty caches. |
| ReflectionHelper.Helper.GetClass | src/main/java/me/blvckbytes/bblibreflect/ReflectionHelper.java:115-124 | getClass answers from its cache. An uncached class is resolved and cached on success; on failure it throws ClassNotFound and caches nothing. An unresolved constant is loaded by its substituted name from the RClass table as written. It succeeds exactly when RClass already holds the constant or its name loads, and RClass's cache changes at most at that constant. |
| ReflectionHelper.Helper.Load | src/main/java/me/blvckbytes/bblibreflect/ReflectionHelper.java:121-123 | Past the cache, getClass caches and returns the resolved class, or throws ClassNotFound and caches nothing. An unresolved constant is loaded by its substituted name from the RClass table as written. |
| ReflectionHelper.Helper.CreateEmptyPacket | src/main/java/me/blvckbytes/bblibreflect/ReflectionHelper.java:74-112 | The constructor loop and the serializer flag compute the constructor choice. None stands for the logged IllegalState and null. |
| ReflectionHelper.Helper.GetBurnTime | src/main/java/me/blvckbytes/bblibreflect/ReflectionHelper.java:127-166 | A cached burn time is returned at once and nothing changes. Otherwise getClass is asked for CRAFT_ITEM_STACK, ITEM and TILE_ENTITY_FURNACE, in that order, stopping at the first failure, and each class it reaches and can have is cached. The result is the table's first entry for the material exactly when all three classes can be had, asNewCraftStack exists and the table is readable; otherwise it is empty. A found time is cached, and no class other than these three enters the class cache. |
| ReflectionHelper.Helper.FetchBurnClasses | src/main/java/me/blvckbytes/bblibreflect/ReflectionHelper.java:133-137 | The three getClass calls of getBurnTime succeed exactly when each class can be had in turn and asNewCraftStack exists; each class reached that can be had is cached, and only these three are added. |
| ReflectionHelper.Helper.Fetch | src/main/java/me/blvckbytes/bblibreflect/ReflectionHelper.java:133 | A getClass whose ClassNotFound is caught. It succeeds exactly when the class can be had; then the class is cached, earlier entries stay, and no other constant changes in RClass's cache. |
| ReflectionHelper.Helper.SearchBurnTable | src/main/java/me/blvckbytes/bblibreflect/ReflectionHelper.java:148-161 | The loop over the furnace table returns the first entry's duration for the material, as BurnTimeIn defines it. |
| ReflectionHelper.NewHelper | src/main/java/me/blvckbytes/bblibreflect/ReflectionHelper.java:56-71 | A helper is built from the version found in the server class name and its three parsed numbers. It is refactored exactly when the minor number is at least 17, and it holds the loaded packet data serializer. It fails when the version cannot be found or parsed. |
| ReflectionHelper.Helper.LoadSerializer | src/main/java/me/blvckbytes/bblibreflect/ReflectionHelper.java:68-70 | With nothing resolved yet, the serializer is the class loaded under the packet data serializer's substituted name, and it is kept on success. |
| ScalarFieldHandle.NamedScalarPredicate | src/main/java/me/blvckbytes/bblibreflect/handle/ScalarFieldHandle.java:32-37 | The named predicate never answers null and accepts exactly a name equal to the requested one ignoring case. |
| ScalarFieldHandle.ScalarExcludesOnStaticMismatch | src/main/java/me/blvckbytes/bblibreflect/handle/ScalarFieldHandle.java:16-17 | The predicate answers null, so the field is not even counted, exactly on a static mismatch. |
| ScalarFieldHandle.ScalarSkipBeforeType | src/main/java/me/blvckbytes/bblibreflect/handle/ScalarFieldHandle.java:25-26 | While skip exceeds the type counter, a field is rejected whatever its type. |
| ScalarFieldHandle.ScalarIsTypedSkip | src/main/java/me/blvckbytes/bblibreflect/handle/ScalarFieldHandle.java:15-29 | The scalar predicate is the generic typed-skip predicate over its public, superclass and type filters, counted under the static filter. |
| ScalarFieldHandle.ScalarTakes | src/main/java/me/blvckbytes/bblibreflect/handle/ScalarFieldHandle.java:15-29 | A field is taken exactly when every filter passes, the counter reached skip, and its type is assignable. |
| ScalarFieldHandle.Locate | src/main/java/me/blvckbytes/bblibreflect/handle/ScalarFieldHandle.java:7-30 | The typed constructor searches the walk with the scalar predicate. ScalarIsTypedSkip ties it to the typed-skip rule, and AFieldHandle.TypedSkipSelects states what that rule finds. |
| ScalarFieldHandle.LocateNamed | src/main/java/me/blvckbytes/bblibreflect/handle/ScalarFieldHandle.java:32-37 | The named constructor searches the walk with the named predicate. NamedScalarSelects states what it finds. |
| ScalarFieldHandle.NamedScalarSelects | src/main/java/me/blvckbytes/bblibreflect/handle/ScalarFieldHandle.java:32-37 | The named handle holds the first walked field whose name equals the requested one ignoring case. Without one it throws NoSuchField, and without a target IllegalState. |
| ReflectedAccessor.AbsorbAll | src/main/java/me/blvckbytes/bblibreflect/AReflectedAccessor.java:63-77 | Catching every exception turns every failure into null and keeps every success. |
| ReflectedAccessor.AbsorbOnly | src/main/java/me/blvckbytes/bblibreflect/AReflectedAccessor.java:120-133 | Catching one exception kind turns only that failure into null and propagates the others. |
| ReflectedAccessor.RequireClass | src/main/java/me/blvckbytes/bblibreflect/AReflectedAccessor.java:39-41 | requireClass returns the helper's cached class. An unresolved constant is loaded by its substituted name from the table as written, and ClassNotFound propagates. |
| ReflectedAccessor.OptionalClass | src/main/java/me/blvckbytes/bblibreflect/AReflectedAccessor.java:43-49 | optionalClass returns the cached class, or loads it by its name from the table as written, with a failure becoming null. |
| ReflectedAccessor.OptionalFieldHelpersNeverThrow | src/main/java/me/blvckbytes/bblibreflect/AReflectedAccessor.java:63-107 | The optional collection and map helpers never throw, not even on a raw field. They find a field exactly when the required helper does. |
| ReflectedAccessor.OptionalScalarAbsorbsOnlyMissingField | src/main/java/me/blvckbytes/bblibreflect/AReflectedAccessor.java:109-133 | The optional scalar helper still throws IllegalState without a target, turns NoSuchField into null, and finds exactly what the required helper finds. |
| ServerVersions.Values | src/main/java/me/blvckbytes/bblibreflect/ServerVersion.java:26-113 | values() lists the 60 constants. |
| ServerVersions.OrdinalLayout | src/main/java/me/blvckbytes/bblibreflect/ServerVersion.java:26-113 | Every constant belongs to a minor line 7..19 with a patch inside that line. Its ordinal is the line's first ordinal plus its patch. |
| ServerVersions.LineBlocksAscend | src/main/java/me/blvckbytes/bblibreflect/ServerVersion.java:26-113 | The constants of a lower minor line all come before those of a higher one. |
| ServerVersions.OrdinalRoundTrip | src/main/java/me/blvckbytes/bblibreflect/ServerVersion.java:115-124 | Each constant sits in values() at its own ordinal. |
| ServerVersions.ReleaseOrder | src/main/java/me/blvckbytes/bblibreflect/ServerVersion.java:26-113 | Declaration order is release order and distinguishes constants: a lower ordinal is exactly an earlier minor line or patch. |
| ServerVersions.GreaterThanOrEqual | src/main/java/me/blvckbytes/bblibreflect/ServerVersion.java:136-138 | greaterThanOrEqual holds exactly when this version was not released before the other. |
| ServerVersions.GreaterThan | src/main/java/me/blvckbytes/bblibreflect/ServerVersion.java:145-147 | greaterThan holds exactly when the other version was released before this one. |
| ServerVersions.LessThan | src/main/java/me/blvckbytes/bblibreflect/ServerVersion.java:154-156 | lessThan holds exactly when this version was released before the other. |
| ServerVersions.LessThanOrEqual | src/main/java/me/blvckbytes/bblibreflect/ServerVersion.java:163-165 | lessThanOrEqual holds exactly when the other version was not released before this one. |
| ServerVersions.ComparisonsAreComplements | src/main/java/me/blvckbytes/bblibreflect/ServerVersion.java:136-165 | lessThan is the negation of greaterThanOrEqual, and greaterThan the negation of lessThanOrEqual. |
| ServerVersions.ReleaseOrderTotal | src/main/java/me/blvckbytes/bblibreflect/ServerVersion.java:136-165 | Two versions are equal exactly when neither was released before the other. |
| ServerVersions.FirstAndLatest | src/main/java/me/blvckbytes/bblibreflect/ServerVersion.java:117-125 | first is V1_7 and latest is V1_19_2; every version lies between them. |
| ServerVersions.NameInjective | src/main/java/me/blvckbytes/bblibreflect/ServerVersion.java:26-113 | No two constants share a name. |
| ServerVersions.EveryConstantListed | src/main/java/me/blvckbytes/bblibreflect/ServerVersion.java:115-121 | A name that no constant in values() has is the name of no constant at all. |
| ServerVersions.ValueOf | src/main/java/me/blvckbytes/bblibreflect/ServerVersion.java:173-178 | valueOf returns the constant with exactly that name, and throws IllegalArgument when none has it. |
| ServerVersions.ValueOfName | src/main/java/me/blvckbytes/bblibreflect/ServerVersion.java:173-178 | Looking a constant up by its own name gives it back. |
| ServerVersions.RewriteRevision | src/main/java/me/blvckbytes/bblibreflect/ServerVersion.java:176 | The replaceAll never lengthens the segment. |
| ServerVersions.RewriteRevisionPrefix | src/main/java/me/blvckbytes/bblibreflect/ServerVersion.java:176 | A prefix without R is copied unchanged. |
| ServerVersions.RewriteRevisionMarker | src/main/java/me/blvckbytes/bblibreflect/ServerVersion.java:176 | "_R" followed by a number becomes "_" followed by that number. |
| ServerVersions.ParseCurrentVersion | src/main/java/me/blvckbytes/bblibreflect/ServerVersion.java:171-182 | A class name with no fourth segment gives latest. Otherwise the result is the constant named by the rewritten, upper-cased segment, or latest when no constant has that name. |
| ServerVersions.PackageSegmentKey | src/main/java/me/blvckbytes/bblibreflect/ServerVersion.java:174-177 | The package segment v1_M_RK is looked up as V1_M_K. |
| ServerVersions.ParseCraftBukkitPackage | src/main/java/me/blvckbytes/bblibreflect/ServerVersion.java:171-182 | A server class in package ...v1_M_RK... parses to the constant with minor M and patch K. When there is no such constant it gives latest. |
| PacketsChannelHandler.KnownOnly | src/main/java/me/blvckbytes/bblibpackets/InterceptedChannelDuplexHandler.java:30-61 | The identity-keyed lists, restricted to known UUIDs, hold exactly the lists of those UUIDs. |
| PacketsChannelHandler.DuplexHandler.constructor | src/main/java/me/blvckbytes/bblibpackets/InterceptedChannelDuplexHandler.java:28 | The handler keeps the receiver's UUID it was built with. |
| PacketsChannelHandler.DuplexHandler.Relay | src/main/java/me/blvckbytes/bblibpackets/InterceptedChannelDuplexHandler.java:49-76 | The global loop, then the loop over the list under the handler's identity, with early return on null and the shared catch. It relays what the evaluation of both lists relays, and passes non-packet messages unchanged. |
| PacketsChannelHandler.DuplexHandler.ChannelRead | src/main/java/me/blvckbytes/bblibpackets/InterceptedChannelDuplexHandler.java:33-77 | A non-packet inbound message is relayed unchanged; a packet is relayed as the evaluation decides. |
| PacketsChannelHandler.DuplexHandler.Write | src/main/java/me/blvckbytes/bblibpackets/InterceptedChannelDuplexHandler.java:80-115 | A non-packet outbound message is written unchanged; a packet is relayed as the evaluation decides. |
| PacketsChannelHandler.VariantDifferences | src/main/java/me/blvckbytes/bblibpackets/InterceptedChannelDuplexHandler.java:44-70 | Unlike the older handler, read also skips non-packets, and a receiver without UUID runs the list stored under the null key. With a UUID it behaves exactly like the older handler. |
| PacketInterceptors.HandlerNameShape | src/main/java/me/blvckbytes/bblibreflect/PacketInterceptor.java:133-138 | The handler name is "pi_" plus the plugin name with spaces replaced by underscores, lower-cased. It keeps the name's length, holds no space or upper-case letter, and differs from "packet_handler". |
| PacketInterceptors.WithSpecific | src/main/java/me/blvckbytes/bblibreflect/PacketInterceptor.java:175-186 | registerSpecific registers the modifier under the target, adds the target to the map if new, and leaves every other identity's list alone. No list becomes empty. |
| PacketInterceptors.WithoutSpecific | src/main/java/me/blvckbytes/bblibreflect/PacketInterceptor.java:188-201 | An unknown target changes nothing. Otherwise no entry of the modifier remains under the target, an emptied list takes the target out of the map, and other identities are untouched. |
| PacketInterceptors.SpecificRoundTrip | src/main/java/me/blvckbytes/bblibreflect/PacketInterceptor.java:175-201 | registerSpecific followed by unregisterSpecific of a modifier not registered there restores the map. |
| PacketInterceptors.InjectedPlacesOnce | src/main/java/me/blvckbytes/bblibreflect/PacketInterceptor.java:356-383 | After injectChannel the pipeline holds exactly one handler of that name and keeps every other handler in order. The handler sits directly in front of "packet_handler" when there is one, else last. |
| PacketInterceptors.Proxied | src/main/java/me/blvckbytes/bblibreflect/PacketInterceptor.java:418-459 | proxyFutureList installs a proxy over the current list and saves the current list. A failure changes nothing. |
| PacketInterceptors.Unproxied | src/main/java/me/blvckbytes/bblibreflect/PacketInterceptor.java:389-409 | unproxyFutureList does nothing before a proxy; otherwise it restores the saved list and forgets it. A failure changes nothing. |
| PacketInterceptors.ProxyRoundTrip | src/main/java/me/blvckbytes/bblibreflect/PacketInterceptor.java:389-459 | Proxying and then unproxying restores the vanilla list, and unproxying twice is unproxying once. |
| PacketInterceptors.ListProxyCall | src/main/java/me/blvckbytes/bblibreflect/PacketInterceptor.java:434-440 | The list proxy forwards every call. An add with a channel future first hooks that future; an add whose first argument is not a future fails its cast. |
| PacketInterceptors.OutgoingReturn | src/main/java/me/blvckbytes/bblibreflect/PacketInterceptor.java:544-574 | The intended modifyOutgoing returns the outgoing message unchanged for every receiver. |
| PacketInterceptors.OutgoingReturnAsWrittenLosesMessage | src/main/java/me/blvckbytes/bblibreflect/PacketInterceptor.java:546-547 | As written, a receiver that is not an intercepted viewer is returned in place of the message; for viewers both versions agree. |
| PacketInterceptors.Interceptor.constructor | src/main/java/me/blvckbytes/bblibreflect/PacketInterceptor.java:89-148 | The interceptor starts with itself as the only HIGH global modifier and empty maps of specifics, viewers and versions. The server's future list is proxied when it is reachable. |
| PacketInterceptors.Interceptor.Register | src/main/java/me/blvckbytes/bblibreflect/PacketInterceptor.java:155-160 | register inserts by priority into the global list and changes nothing else. |
| PacketInterceptors.Interceptor.Unregister | src/main/java/me/blvckbytes/bblibreflect/PacketInterceptor.java:162-166 | unregister removes every global entry of the modifier and changes nothing else. |
| PacketInterceptors.Interceptor.RegisterSpecific | src/main/java/me/blvckbytes/bblibreflect/PacketInterceptor.java:175-186 | The create-then-insert steps give the registered specifics map, and nothing else changes. |
| PacketInterceptors.Interceptor.UnregisterSpecific | src/main/java/me/blvckbytes/bblibreflect/PacketInterceptor.java:188-201 | The remove-then-drop steps give the unregistered specifics map, and nothing else changes. |
| PacketInterceptors.Interceptor.InjectChannel | src/main/java/me/blvckbytes/bblibreflect/PacketInterceptor.java:356-383 | A null receiver is ignored. Otherwise any old handler is removed and the new one is placed before "packet_handler" or last. |
| PacketInterceptors.Interceptor.Uninject | src/main/java/me/blvckbytes/bblibreflect/PacketInterceptor.java:334-350 | The handler is removed from the pipeline when it is there, and the pipeline is unchanged otherwise. |
| PacketInterceptors.Interceptor.ProxyFutureList | src/main/java/me/blvckbytes/bblibreflect/PacketInterceptor.java:418-459 | The future lists become proxied, and nothing else changes. |
| PacketInterceptors.Interceptor.UnproxyFutureList | src/main/java/me/blvckbytes/bblibreflect/PacketInterceptor.java:389-409 | The future lists become unproxied, and nothing else changes. |
| PacketInterceptors.Interceptor.ModifyIncoming | src/main/java/me/blvckbytes/bblibreflect/PacketInterceptor.java:523-541 | The message passes unchanged. A handshake from an intercepted viewer sets its client version to the handshake's version field, and nothing else of the viewer changes. |
| PacketInterceptors.Interceptor.RecordOutgoing | src/main/java/me/blvckbytes/bblibreflect/PacketInterceptor.java:551-571 | A login with a profile sets the viewer's UUID, registers the viewer, and caches its client version; a login without one throws before any update and skips the window-id update. An open-window message records its window id. |
| PacketInterceptors.Interceptor.ModifyOutgoingAsWritten | src/main/java/me/blvckbytes/bblibreflect/PacketInterceptor.java:544-574 | As written, a non-viewer receiver is returned instead of the message and no state changes. |
| PacketInterceptors.Interceptor.ModifyOutgoing | src/main/java/me/blvckbytes/bblibreflect/PacketInterceptor.java:544-574 | The corrected modifyOutgoing records the viewer's updates and always returns the message. |
| PacketInterceptors.Interceptor.OnQuit | src/main/java/me/blvckbytes/bblibreflect/PacketInterceptor.java:280-288 | The player's viewer is removed and uninjected, and its cached client version is dropped. |
| PacketInterceptors.Interceptor.InjectAsWritten | src/main/java/me/blvckbytes/bblibreflect/PacketInterceptor.java:298-328 | As written, inject returns null and registers nothing when a reflective lookup of the channel fails. Otherwise it registers a fresh viewer over the player's channel with the cached client version or -1 and the player's UUID, and leaves the channel without the handler. |
| PacketInterceptors.Interceptor.Inject | src/main/java/me/blvckbytes/bblibreflect/PacketInterceptor.java:298-328 | The corrected inject also places the handler in the channel of a new viewer, as injectChannel does. A failed lookup still gives null. |
| PacketInterceptors.Interceptor.GetPlayerAsViewer | src/main/java/me/blvckbytes/bblibreflect/PacketInterceptor.java:210-218 | getPlayerAsViewer returns the registered viewer. Otherwise it calls inject as written: null with nothing registered when the lookup fails, else a fresh registered viewer whose channel keeps no handler. |
| PacketInterceptors.Interceptor.GetPlayerAsViewerCorrected | src/main/java/me/blvckbytes/bblibreflect/PacketInterceptor.java:210-218 | Over the corrected inject, a newly injected viewer also has the handler placed in its channel. |
| PacketCommunicators.ViewersDeliveriesShape | src/main/java/me/blvckbytes/bblibreflect/communicator/APacketCommunicator.java:298-316 | The viewers walk either completes with one delivery per viewer, in viewer order, or stops early. Either way the deliveries made so far go to a prefix of the viewers in order, with the given direction and callback flag. |
| PacketCommunicators.UnpersonalizedViewersGetBasePacket | src/main/java/me/blvckbytes/bblibreflect/communicator/APacketCommunicator.java:303-309 | When every viewer's personalisation is unsupported, every viewer gets the base packet unchanged, in order. |
| PacketCommunicators.DeliverPackets | src/main/java/me/blvckbytes/bblibreflect/communicator/APacketCommunicator.java:165-182 | sendPacketsToReceiver hands each packet once, in order, to the one receiver, each with a callback exactly when one was given. |
| PacketCommunicators.DeliverToReceivers | src/main/java/me/blvckbytes/bblibreflect/communicator/APacketCommunicator.java:193-210 | sendPacketsToReceivers runs the routine once per receiver, in order, each with a callback exactly when one was given. |
| PacketCommunicators.DeliverToViewers | src/main/java/me/blvckbytes/bblibreflect/communicator/APacketCommunicator.java:298-316 | The loop over viewers personalises the shared packet viewer by viewer and matches the viewers walk, both in completion and in the deliveries made. |
| PacketCommunicators.ToReceiver | src/main/java/me/blvckbytes/bblibreflect/communicator/APacketCommunicator.java:224-238 | sendToReceiver answers VIEWER_REQUIRED without sending when a viewer is required, REFLECTION_ERROR when building throws, and otherwise SUCCESS after one delivery of the built packet. |
| PacketCommunicators.ToReceivers | src/main/java/me/blvckbytes/bblibreflect/communicator/APacketCommunicator.java:248-264 | sendToReceivers has the same error cases, and on SUCCESS delivers the one built packet to every receiver in order. |
| PacketCommunicators.ToViewer | src/main/java/me/blvckbytes/bblibreflect/communicator/APacketCommunicator.java:274-289 | sendToViewer: a throwing build or a failing personalisation gives REFLECTION_ERROR. An unsupported personalisation sends the base packet, and a supported one sends the personalised packet. |
| PacketCommunicators.ToViewers | src/main/java/me/blvckbytes/bblibreflect/communicator/APacketCommunicator.java:299-316 | sendToViewers yields only SUCCESS or REFLECTION_ERROR, one delivery per viewer on SUCCESS, and never more deliveries than viewers, in viewer order. With no personalisation every viewer gets the base packet. |
| PacketCommunicators.ViewerIsOneViewerWalk | src/main/java/me/blvckbytes/bblibreflect/communicator/APacketCommunicator.java:274-316 | Sending to one viewer gives the same result and deliveries as sending to a collection holding just that viewer. |
| PacketCommunicators.ToPlayer | src/main/java/me/blvckbytes/bblibreflect/communicator/APacketCommunicator.java:326-328 | sendToPlayer yields SUCCESS or REFLECTION_ERROR and delivers to the player's viewer only. An unpersonalised packet reaches that viewer unchanged. |
| PacketCommunicators.ToPlayers | src/main/java/me/blvckbytes/bblibreflect/communicator/APacketCommunicator.java:338-357 | sendToPlayers yields SUCCESS or REFLECTION_ERROR, with one delivery per player on SUCCESS, each to that player's viewer, in player order. |
| PacketCommunicators.CompletionCounter.constructor | src/main/java/me/blvckbytes/bblibreflect/communicator/APacketCommunicator.java:173 | The counter starts at zero with the total to wait for, and done has not run. |
| PacketCommunicators.CompletionCounter.Complete | src/main/java/me/blvckbytes/bblibreflect/communicator/APacketCommunicator.java:176-180 | Each completion increments the count, and the increment that reaches the total runs done. |
| PacketCommunicators.CompletionCounter.CompleteMany | src/main/java/me/blvckbytes/bblibreflect/communicator/APacketCommunicator.java:173-181 | After k of the total completions done has run once if k is the total and the total is positive, and otherwise not at all; with nothing to send it never runs. |
| CommunicatorRegistry.Register | src/main/java/me/blvckbytes/bblibreflect/PacketCommunicatorRegistry.java:55-69 | registerCommunicator puts an incoming communicator into both incoming maps, even when it is also outgoing, and an outgoing-only one into both outgoing maps. Any other communicator is refused with IllegalArgumentException. |
| CommunicatorRegistry.Route | src/main/java/me/blvckbytes/bblibreflect/PacketCommunicatorRegistry.java:72-189 | Every send and receive call answers UNKNOWN_PARAMETER_TYPE for an unregistered parameter class, and otherwise returns the registered communicator's answer. |
| CommunicatorRegistry.Parse | src/main/java/me/blvckbytes/bblibreflect/PacketCommunicatorRegistry.java:192-209 | parseIncoming and parseOutgoing give null for an unregistered packet class, and otherwise the registered communicator's parse. |
| CommunicatorRegistry.RegistrationRoutes | src/main/java/me/blvckbytes/bblibreflect/PacketCommunicatorRegistry.java:55-209 | After registration the communicator's parameter type and packet type route to it, and the other direction's routing is unchanged. |
| CommunicatorRegistry.RegistrationReplaces | src/main/java/me/blvckbytes/bblibreflect/PacketCommunicatorRegistry.java:55-69 | A later registration of the same kind for the same parameter type replaces the earlier one. |
| CommunicatorRegistry.Registry.constructor | src/main/java/me/blvckbytes/bblibreflect/PacketCommunicatorRegistry.java:46-51 | The registry starts with four empty maps. |
| CommunicatorRegistry.Registry.RegisterCommunicator | src/main/java/me/blvckbytes/bblibreflect/PacketCommunicatorRegistry.java:55-69 | The method's new maps are the registration's, and a refused communicator leaves them unchanged. |
| CommunicatorRegistry.Registry.GetParameterType | src/main/java/me/blvckbytes/bblibreflect/PacketCommunicatorRegistry.java:212-214 | getParameterType always throws UnsupportedOperationException. |
| CommunicatorRegistry.Registry.GetPacketType | src/main/java/me/blvckbytes/bblibreflect/PacketCommunicatorRegistry.java:217-219 | getPacketType always throws UnsupportedOperationException. |
| PlayerInfo.Ordinal | src/main/java/me/blvckbytes/bblibreflect/communicator/parameter/EnumGameMode.java:24-31 | The five game modes take the ordinals 0 to 4. |
| PlayerInfo.OrdinalRoundTrip | src/main/java/me/blvckbytes/bblibreflect/communicator/parameter/EnumGameMode.java:24-31 | The declaration order is a bijection between the game modes and 0..4. |
| PlayerInfo.FromServer | src/main/java/me/blvckbytes/bblibreflect/communicator/parameter/EnumGameMode.java:38-51 | getFromPlayer maps each of the four server modes to its namesake, and NOT_SET is returned exactly for any other mode. |
| PlayerInfo.FromServerInjectiveOnKnown | src/main/java/me/blvckbytes/bblibreflect/communicator/parameter/EnumGameMode.java:38-51 | No two different known server modes map to the same game mode. |
| PlayerInfo.ResolveGameProfile | src/main/java/me/blvckbytes/bblibreflect/communicator/parameter/PlayerInfoParameter.java:164-175 | resolveGameProfile returns the explicit profile first, then the player's profile, whose lookup may fail. With neither it throws IllegalStateException. |
| PlayerInfo.ResolveLatency | src/main/java/me/blvckbytes/bblibreflect/communicator/parameter/PlayerInfoParameter.java:181-189 | resolveLatency returns the explicit latency, else the player's ping, else it throws IllegalStateException. |
| PlayerInfo.ResolveGameMode | src/main/java/me/blvckbytes/bblibreflect/communicator/parameter/PlayerInfoParameter.java:194-202 | resolveGameMode returns the explicit mode, else the player's mode mapped through getFromPlayer, else it throws IllegalStateException. |
| PlayerInfo.ResolutionOfConstructors | src/main/java/me/blvckbytes/bblibreflect/communicator/parameter/PlayerInfoParameter.java:68-202 | Entries built from a player infer what they lack from that player. Entries built from a profile resolve their profile, and throw for the latency or mode they were not given. |
| SetSlotCommunicator.SlotPacket.constructor | src/main/java/me/blvckbytes/bblibreflect/communicator/SetSlotCommunicator.java:128-129 | A fresh set-slot packet has the given number of int fields, all zero, and holds AIR. |
| SetSlotCommunicator.WindowIdFor | src/main/java/me/blvckbytes/bblibreflect/communicator/SetSlotCommunicator.java:70 | A top-inventory parameter targets the viewer's current window, and any other targets the player's inventory, window -2. |
| SetSlotCommunicator.Layout | src/main/java/me/blvckbytes/bblibreflect/communicator/SetSlotCommunicator.java:128-146 | On any packet with two or more int fields, the window id is first and the slot is the second field, or the third when a third exists. Anything between and after is zero. |
| SetSlotCommunicator.ItemOrAir | src/main/java/me/blvckbytes/bblibreflect/communicator/SetSlotCommunicator.java:137-140 | An empty slot is encoded as AIR, and any other item is kept. |
| SetSlotCommunicator.CreatePacket | src/main/java/me/blvckbytes/bblibreflect/communicator/SetSlotCommunicator.java:128-146 | createPacket writes the slot into the chosen field and the item or AIR, and leaves the window id at zero. |
| SetSlotCommunicator.SendToViewerAsWritten | src/main/java/me/blvckbytes/bblibreflect/communicator/SetSlotCommunicator.java:67-76 | As written, sendToViewer builds and stamps the packet and returns SUCCESS, but sends nothing. A reflection failure gives REFLECTION_ERROR. |
| SetSlotCommunicator.SendToViewer | src/main/java/me/blvckbytes/bblibreflect/communicator/SetSlotCommunicator.java:67-76 | The corrected sendToViewer sends the stamped packet once to the viewer, with the callback when given. |
| SetSlotCommunicator.SendToViewerDiscrepancy | src/main/java/me/blvckbytes/bblibreflect/communicator/SetSlotCommunicator.java:67-76 | On the same input a successful send reaches nobody as written and exactly the viewer as intended. |
| SetSlotCommunicator.SendToViewers | src/main/java/me/blvckbytes/bblibreflect/communicator/SetSlotCommunicator.java:79-115 | sendToViewers and sendToPlayers hand every viewer, in order, the one packet re-stamped with that viewer's window id. No viewer sees another's window id. |
| FakeItemCommunicator.FakeLayout | src/main/java/me/blvckbytes/bblibpackets/FakeItemCommunicator.java:69-72 | setFakeSlot writes the window id to the first int field, 0 to the second, and the slot to the third, or to the second when there is no third. Writes to missing fields change nothing. |
| FakeItemCommunicator.LayoutsAgree | src/main/java/me/blvckbytes/bblibpackets/FakeItemCommunicator.java:69-72 | Wherever the packet has two int fields or more, the fake item and set-slot communicators lay it out alike. |
| FakeItemCommunicator.SetIntField | src/main/java/me/blvckbytes/bblibpackets/FakeItemCommunicator.java:69-72 | An int-field write by position succeeds exactly when the field exists, and changes only that field. |
| FakeItemCommunicator.SetFakeSlot | src/main/java/me/blvckbytes/bblibpackets/FakeItemCommunicator.java:60-87 | A slot outside 0..35 is refused before anything is built, and a reflection failure gives false. Otherwise the item or AIR is sent in the laid-out packet, and the result is the send's result. |
| FakeItemCommunicator.SetFakeTopInventorySlot | src/main/java/me/blvckbytes/bblibpackets/FakeItemCommunicator.java:36-44 | With no window open (id 0) nothing is sent and the answer is false; otherwise the slot is faked in the open window. |
| FakeItemCommunicator.SetFakeInventorySlot | src/main/java/me/blvckbytes/bblibpackets/FakeItemCommunicator.java:46-50 | The slot is faked in the player's own inventory, window -2. |
| BookEditRequests.FakeSlot | src/main/java/me/blvckbytes/bblibreflect/communicator/BookEditCommunicator.java:119-120 | (held + 36) % 36 in Java int arithmetic lands in 0..35 for every held slot in range, and is the held slot itself for 0..35. |
| BookEditRequests.HotbarFakeSlot | src/main/java/me/blvckbytes/bblibreflect/communicator/BookEditCommunicator.java:119-120 | Every hotbar slot, 0 to 8, is its own fake slot, and the fake item sender accepts it. |
| BookEditRequests.ReceivedEffects | src/main/java/me/blvckbytes/bblibreflect/communicator/BookEditCommunicator.java:317-332 | bookEditReceived schedules the request's callback, with the given pages, exactly when the player has a request, and does nothing otherwise. |
| BookEditRequests.UndoEffects | src/main/java/me/blvckbytes/bblibreflect/communicator/BookEditCommunicator.java:339-345 | undoFakeHand always re-sends the real inventory first. A cancel then also calls back with null pages. |
| BookEditRequests.CallbackAtMostOnce | src/main/java/me/blvckbytes/bblibreflect/communicator/BookEditCommunicator.java:317-345 | A request's callback is scheduled at most once, and never again after the request has left the map. |
| BookEditRequests.CleanupEffectsAt | src/main/java/me/blvckbytes/bblibreflect/communicator/BookEditCommunicator.java:136-140 | Cancelling every request re-sends each player's inventory and then calls back once with null pages, in iteration order. |
| BookEditRequests.CleanupAsWrittenEffects | src/main/java/me/blvckbytes/bblibreflect/communicator/BookEditCommunicator.java:136-140 | As written, only the first request of the iteration is cancelled before the iterator throws. |
| BookEditRequests.CleanupAsWrittenMissesSecond | src/main/java/me/blvckbytes/bblibreflect/communicator/BookEditCommunicator.java:136-140 | With two requests open, the corrected cleanup calls back the second one and the as-written cleanup never does. |
| BookEditRequests.DecideIncoming | src/main/java/me/blvckbytes/bblibreflect/communicator/BookEditCommunicator.java:242-280 | A creative-slot message is dropped exactly when the sender is online with a request. A book-edit message delivers its pages exactly when they extract, and passes when they do not; every other message passes. |
| BookEditRequests.Requests.constructor | src/main/java/me/blvckbytes/bblibreflect/communicator/BookEditCommunicator.java:88 | There are no requests and no effects yet. |
| BookEditRequests.Requests.BookEditReceived | src/main/java/me/blvckbytes/bblibreflect/communicator/BookEditCommunicator.java:317-332 | The request leaves the map, and its callback is scheduled with the pages. |
| BookEditRequests.Requests.UndoFakeHand | src/main/java/me/blvckbytes/bblibreflect/communicator/BookEditCommunicator.java:339-345 | The inventory is re-sent. A cancel also removes the request and calls back with null pages. |
| BookEditRequests.Requests.Withdraw | src/main/java/me/blvckbytes/bblibreflect/communicator/BookEditCommunicator.java:126-131 | The cancel hook drops the request and re-sends the inventory without calling back. |
| BookEditRequests.Requests.OnLeave | src/main/java/me/blvckbytes/bblibreflect/communicator/BookEditCommunicator.java:150-193 | onQuit and onInvOpen cancel a player's open request and otherwise change nothing. |
| BookEditRequests.Requests.OnAbandon | src/main/java/me/blvckbytes/bblibreflect/communicator/BookEditCommunicator.java:196-235 | onInvClick, onHotbarSelect and onDrop cancel the event and the request exactly when the player has one. |
| BookEditRequests.Requests.HandleIncoming | src/main/java/me/blvckbytes/bblibreflect/communicator/BookEditCommunicator.java:242-280 | The incoming decision is carried out. A dropped message cancels the request, and a delivery hands over the pages and re-sends the inventory; a passed message changes nothing. |
| BookEditRequests.Requests.CleanupAsWritten | src/main/java/me/blvckbytes/bblibreflect/communicator/BookEditCommunicator.java:136-140 | As written, two or more requests make cleanup throw ConcurrentModificationException after cancelling only the first. |
| BookEditRequests.Requests.Cleanup | src/main/java/me/blvckbytes/bblibreflect/communicator/BookEditCommunicator.java:136-140 | The corrected cleanup cancels every request, and the map ends empty. |
| BookEditCommunicator.PagesFieldCheck | src/main/java/me/blvckbytes/bblibreflect/communicator/BookEditCommunicator.java:83-84 | The constructor throws IllegalStateException exactly when the book-edit message has neither a lines field nor an item field. |
| BookEditCommunicator.Resend | src/main/java/me/blvckbytes/bblibreflect/communicator/BookEditCommunicator.java:176 | The interaction re-send sends the request's book into the player's inventory at the request's fake slot. |
| BookEditCommunicator.ResendMatchesPlacement | src/main/java/me/blvckbytes/bblibreflect/communicator/BookEditCommunicator.java:117-120 | A request placed from a hotbar slot is re-sent into the same window and slot it was first placed in. |
| BookEditCommunicator.BookEdit.constructor | src/main/java/me/blvckbytes/bblibreflect/communicator/BookEditCommunicator.java:63-91 | A new communicator has no requests and no effects. |
| BookEditCommunicator.BookEdit.SendParameterized | src/main/java/me/blvckbytes/bblibreflect/communicator/BookEditCommunicator.java:99-116 | Any previous fake hand is undone without a callback, and a book with the pages and the player as author is built for the deferred task. |
| BookEditCommunicator.BookEdit.RunRequestTask | src/main/java/me/blvckbytes/bblibreflect/communicator/BookEditCommunicator.java:117-132 | The task sends the book into the held slot of the player's inventory and replaces the player's request. The cancel hook is installed exactly when one was given. |
| BookEditCommunicator.BookEdit.OnInteract | src/main/java/me/blvckbytes/bblibreflect/communicator/BookEditCommunicator.java:162-178 | With a request, the event is cancelled and the fake book is sent again; otherwise nothing happens. |
| BookEditCommunicator.BookEdit.ModifyIncoming | src/main/java/me/blvckbytes/bblibreflect/communicator/BookEditCommunicator.java:242-280 | A receiver without identity passes unchanged. Otherwise the message is dropped exactly when the decision cancels, and the request map and effects follow the decision. |
| BookEditCommunicator.BookEdit.ModifyOutgoing | src/main/java/me/blvckbytes/bblibreflect/communicator/BookEditCommunicator.java:283-285 | Outgoing messages pass unchanged. |
| BookEditorCommunicator.FakeInventoryEffects | src/main/java/me/blvckbytes/bblibreflect/BookEditorCommunicator.java:84 | The book is faked into the player's inventory exactly when the slot is within 0..35. |
| BookEditorCommunicator.FakeTopEffects | src/main/java/me/blvckbytes/bblibreflect/BookEditorCommunicator.java:140 | The book is faked into the open window exactly when a window is open and the slot is within 0..35. |
| BookEditorCommunicator.InteractResendAsWrittenMisses | src/main/java/me/blvckbytes/bblibreflect/BookEditorCommunicator.java:84-140 | The re-send on interaction targets the top inventory, not the inventory the book was placed in. With no window open nothing is re-sent, and otherwise the book lands in another window. |
| BookEditorCommunicator.BookEditor.constructor | src/main/java/me/blvckbytes/bblibreflect/BookEditorCommunicator.java:44-58 | A new editor has no requests and no effects. |
| BookEditorCommunicator.BookEditor.InitBookEditor | src/main/java/me/blvckbytes/bblibreflect/BookEditorCommunicator.java:65-91 | initBookEditor undoes any previous fake hand without a callback, defers the book to a task, and always answers true. |
| BookEditorCommunicator.BookEditor.RunRequestTask | src/main/java/me/blvckbytes/bblibreflect/BookEditorCommunicator.java:81-88 | The task fakes the book into the held slot of the inventory and replaces the player's request. |
| BookEditorCommunicator.BookEditor.QuitBookEditor | src/main/java/me/blvckbytes/bblibreflect/BookEditorCommunicator.java:94-97 | The request is dropped without a callback and the inventory is re-sent. |
| BookEditorCommunicator.BookEditor.OnInteractAsWritten | src/main/java/me/blvckbytes/bblibreflect/BookEditorCommunicator.java:126-142 | As written, the event is cancelled exactly when the player has a request, and the book is re-sent into the top inventory. |
| BookEditorCommunicator.BookEditor.OnInteract | src/main/java/me/blvckbytes/bblibreflect/BookEditorCommunicator.java:126-142 | As intended, the book is re-sent into the player's inventory where it was placed. |
| BookEditorCommunicator.BookEditor.ModifyIncoming | src/main/java/me/blvckbytes/bblibreflect/BookEditorCommunicator.java:206-238 | The shared incoming decision applies to the sender. The message is dropped exactly when the request is cancelled, which removes the request and adds the undo effects. A delivered edit removes the request and adds the received effects and an inventory update. A passed message changes nothing. |
| BookEditorCommunicator.BookEditor.ModifyOutgoing | src/main/java/me/blvckbytes/bblibreflect/BookEditorCommunicator.java:241-243 | Outgoing messages pass unchanged. |
| PermissionListener.Absent | src/main/java/me/blvckbytes/bblibreflect/events/PermissionListener.java:130-140 | The entries of one list missing from another, in order: an entry is kept exactly when it is in the first list and not in the second, and the result is never longer than the first list. |
| PermissionListener.AbsentAppend | src/main/java/me/blvckbytes/bblibreflect/events/PermissionListener.java:130-140 | Taking the absent entries distributes over concatenation of the scanned list. |
| PermissionListener.AbsentOfNothing | src/main/java/me/blvckbytes/bblibreflect/events/PermissionListener.java:136-140 | Nothing is absent from an empty list, so every entry is kept. |
| PermissionListener.DiffReconstructs | src/main/java/me/blvckbytes/bblibreflect/events/PermissionListener.java:125-145 | The previous permissions minus the removed ones, plus the added ones, are exactly the current permissions, and the reverse also holds. |
| PermissionListener.FirstDiff | src/main/java/me/blvckbytes/bblibreflect/events/PermissionListener.java:128 | With no previous list (getOrDefault gives an empty one), every current permission is added and none is removed. |
| PermissionListener.AbsentOfCovered | src/main/java/me/blvckbytes/bblibreflect/events/PermissionListener.java:130-140 | When every entry of a list also occurs in the other, none of them is absent. |
| PermissionListener.RepeatedChangeIsEmpty | src/main/java/me/blvckbytes/bblibreflect/events/PermissionListener.java:152-158 | A repeated change to the same permissions adds and removes nothing. |
| PermissionListener.Diff | src/main/java/me/blvckbytes/bblibreflect/events/PermissionListener.java:125-140 | The two loops of fireEvent build exactly the added list (current entries not previously held) and the removed list (previous entries no longer held), in list order. |
| PermissionListener.CollectAbsent | src/main/java/me/blvckbytes/bblibreflect/events/PermissionListener.java:130-140 | Each of fireEvent's loops keeps the entries of one list, in order, that the other list does not contain. |
| PermissionListener.ActivePermissions | src/main/java/me/blvckbytes/bblibreflect/events/PermissionListener.java:191-197 | getPermissions keeps the permission of every granted attachment, and is never longer than the attachments. |
| PermissionListener.ActivePermissionsSound | src/main/java/me/blvckbytes/bblibreflect/events/PermissionListener.java:191-197 | Every permission returned comes from a granted attachment. |
| PermissionListener.AfterProxy | src/main/java/me/blvckbytes/bblibreflect/events/PermissionListener.java:266-280 | proxyPermissions records the vanilla map exactly when the reflection and the field write succeed, and otherwise changes nothing. |
| PermissionListener.AfterUnproxy | src/main/java/me/blvckbytes/bblibreflect/events/PermissionListener.java:165-184 | unproxyPermissions forgets a proxied player's vanilla map once the reflection succeeds. An unproxied player, or a failed reflection, leaves the records unchanged. |
| PermissionListener.ProxyUnproxyRoundTrip | src/main/java/me/blvckbytes/bblibreflect/events/PermissionListener.java:165-280 | A successful proxy records the vanilla map, and unproxying the player afterwards restores the records. |
| PermissionListener.Step | src/main/java/me/blvckbytes/bblibreflect/events/PermissionListener.java:224-248 | A put with no pending task, or after its 250 ms, restarts the debounce task at the present time. Every other call leaves the debounce state alone. |
| PermissionListener.PendingBurstRestartsNothing | src/main/java/me/blvckbytes/bblibreflect/events/PermissionListener.java:227-232 | A burst of puts within 250 ms of a pending task's creation never restarts it. |
| PermissionListener.BurstRestartsOnce | src/main/java/me/blvckbytes/bblibreflect/events/PermissionListener.java:227-248 | With no task pending, a burst of puts within 250 ms of its first call starts exactly one task. |
| PermissionListener.ProxyHandler.constructor | src/main/java/me/blvckbytes/bblibreflect/events/PermissionListener.java:214-216 | A new proxy starts with no debounce task, created at time 0. |
| PermissionListener.ProxyHandler.Invoke | src/main/java/me/blvckbytes/bblibreflect/events/PermissionListener.java:222-255 | Every call is forwarded. A restart cancels the pending task, if any, and the debounce state advances by the restart rule. |
| PermissionListener.ProxyHandler.TaskRuns | src/main/java/me/blvckbytes/bblibreflect/events/PermissionListener.java:245-248 | The debounce task fires one change event for the granted permissions, records them as the previous permissions, and clears its handle. |
| PermissionListener.PreviousOf | src/main/java/me/blvckbytes/bblibreflect/events/PermissionListener.java:128 | The previous permissions of a player, or an empty list when none were recorded. |
| PermissionListener.ChangeEvent | src/main/java/me/blvckbytes/bblibreflect/events/PermissionListener.java:125-145 | The fired event carries the player and the current permissions. Its added list holds exactly the current permissions not held before, and its removed list exactly the previous ones no longer held. |
| PermissionListener.Listener.constructor | src/main/java/me/blvckbytes/bblibreflect/events/PermissionListener.java:63-67 | The listener starts with no vanilla references, no previous permissions and no events. |
| PermissionListener.Listener.FireEvent | src/main/java/me/blvckbytes/bblibreflect/events/PermissionListener.java:125-145 | fireEvent appends the change event and changes no state. |
| PermissionListener.Listener.OnPermissionChange | src/main/java/me/blvckbytes/bblibreflect/events/PermissionListener.java:152-158 | The change event is computed against the old previous permissions, and the new permissions are then recorded as previous. |
| PermissionListener.Listener.ProxyPermissions | src/main/java/me/blvckbytes/bblibreflect/events/PermissionListener.java:266-280 | The proxy is installed and the vanilla map recorded when the reflection and the write succeed, and nothing changes otherwise. This is also onLogin. |
| PermissionListener.Listener.UnproxyPermissions | src/main/java/me/blvckbytes/bblibreflect/events/PermissionListener.java:165-184 | A proxied player's vanilla map is restored and forgotten, and anything else is left alone. This is also onQuit. |
| PermissionListener.Listener.Cleanup | src/main/java/me/blvckbytes/bblibreflect/events/PermissionListener.java:87-91 | On unload every online player's record is removed, and offline players' records remain. |
| ReflClass.ChatComponentAsWrittenIsNetworkManager | src/main/java/me/blvckbytes/bblibreflect/ReflClass.java:38-41 | As written, the chat component's pre-refactoring name is the network manager's name. A pre-refactoring server therefore loads the network manager class for it. |
| ReflClass.ChatComponentNameDistinct | src/main/java/me/blvckbytes/bblibreflect/ReflClass.java:38-41 | With the intended name, the chat component and NetworkManager no longer share a pre-refactoring name, and every other name is kept as written. |
| RClassTable.ChatComponentAsWrittenIsNetworkManager | src/main/java/me/blvckbytes/bblibreflect/RClass.java:42-45 | As written, the chat component's pre-refactoring name is the network manager's name. A pre-refactoring server therefore loads the network manager class for it. |
| RClassTable.ChatComponentNameDistinct | src/main/java/me/blvckbytes/bblibreflect/RClass.java:42-45 | With the intended name, the chat component and NetworkManager no longer share a pre-refactoring name, and every other name is kept as written. |

## Left out

- Host reflection primitives are abstract data and lookups: `Class.forName`, the declared-member lists, `Field.get/set`, `Method.invoke`, `newInstance` and `Proxy.newProxyInstance`. Their failures are a `Result` or a success flag passed in.
- Netty is reduced to a pipeline of handler names and a relay that outputs a message or nothing. Channel I/O, `GenericFutureListener` and `channel.isOpen` are not modelled beyond an `open` flag.
- Concurrency is modelled sequentially: synchronized lists and maps, `synchronized` blocks, `AtomicInteger` and the permission proxy's `ReentrantLock`. Completion callbacks may arrive in any order, and CompletionCounter.CompleteMany counts them without an order.
- SetSlotCommunicator.SendToViewers: each viewer is modelled getting the packet as stamped for it. Sending is asynchronous and the one packet object is re-stamped for the next viewer, so a slow send can carry a later viewer's window id. That race is not modelled.
- Bukkit scheduling is not modelled. Each `runTask` body is a separate method the caller runs later: RunRequestTask in both book-edit communicators, and TaskRuns for the permission debounce. Events, `updateInventory`, metadata buffers, `BookMeta` and `ItemStack` construction are effects or values.
- Wall-clock time is a parameter (`now`) in InterceptedViewers and PermissionListener.
- JSON and chat components are not modelled: `toJson`, `ChatSerializer`, and hex colours beyond the protocol-version test.
- JavaStrings models only ASCII case folding. Java's Unicode case mapping of other letters is not modelled.
- `PacketInterceptor.initialize` and `cleanup` (src/main/java/me/blvckbytes/bblibreflect/PacketInterceptor.java:221-273) are not modelled.
  - They work on Bukkit metadata.
  - `cleanup`'s specific-list loop mutates the map it iterates.
  - Its `viewers.remove(p)` removes a `Player` key from a map keyed by UUID.
- `PacketInterceptor.proxyChannelFuture` and the channel initializer it installs (src/main/java/me/blvckbytes/bblibreflect/PacketInterceptor.java:466-520) are not modelled. They are Netty pipeline wiring. The list proxy's add hook is modelled by PacketInterceptors.ListProxyCall.
- PacketInterceptors.ListProxyCall: a cast failure of the add hook is returned as a value. Its propagation through the proxy's `invoke` into the caller is not modelled.
- PermissionListener's `initialize` loop over the online players is not modelled. Each iteration is PermissionListener.Listener.ProxyPermissions.
- PermissionListener.Listener.Cleanup assumes every reflective restore succeeds. A failure inside the loop, which keeps that player's record, is covered only per player by UnproxyPermissions.
- `ReflectionHelper.Helper.GetBurnTime`: the three getClass calls and their caching are modelled, but the lookup of asNewCraftStack, the search for the static Map getter and reading its table are not. They are inputs: `hasNewCraftStack`, and `lut`, which is None when there is no getter or reading it throws. Converting each key through asNewCraftStack and getType is modelled by a table whose entries already carry their material.
- `PacketsChannelHandler.DuplexHandler`: the packet source handed to incoming modifiers is not modelled (src/main/java/me/blvckbytes/bblibpackets/InterceptedChannelDuplexHandler.java:34-40). Its callback lets a modifier inject further inbound packets, so in the model modifiers cannot re-inject packets.
- The reflection-wiring communicators only set host packet fields from their parameters, and are not modelled: Title, TitleTimings, TitleSubtitle, TitleTitle, ATitleBase, Chat, ChatIn, ChatOut and PlayerInfo.
- The setters on PlayerInfoParameter.Entry are not modelled: the entry is an immutable value built by its constructors.
- The ItemStack field write in FakeItemCommunicator.SetFakeSlot is modelled only as the item the sent packet holds.
- FieldPredicateBuilder is not part of this model.
- Snapshot mismatches are modelled file by file, as each file is written:
  - IFieldPredicate's three-argument `matches` against the two-argument calls in AFieldHandle;
  - ClassPredicateBuilder's call to a two-argument ClassHandle constructor that ClassHandle does not declare (its predicate and the shared-counter walk are modelled);
  - the five-argument InterceptedViewer constructor against PacketInterceptor's four-argument call. Here InterceptedViewers.Viewer.constructor takes only the channel.
- APacketCommunicator's `sendToViewers` and `sendToPlayers` hand the one built packet to every viewer. When a personaliser changes that object in place, a later viewer's changes can reach an earlier, still pending send. The model gives each delivery the packet as computed for it.
- The communicators' viewer and ping lookups (`viewerOf`, `pingOf`) are total functions. They do not model `getPlayerAsViewer`'s inject side effect or its null result, which PacketInterceptors.Interceptor.GetPlayerAsViewer states on its own.
- InterceptedViewers.SendPacket does not model an exception out of the Netty send. In the source that exception loses the callback.
- The `instanceof` tests on handshake, set-creative-slot and book-edit packets are exact class-name comparisons. Subclasses of those packet classes are not modelled.
- JavaStrings.ParseInt accepts only ASCII digits. `Integer.parseInt` also accepts other Unicode decimal digits.
- The static caches of RClass, ClassHandle and ReflectionHelper are fields of one helper or cache object. They are not shared across the process.
- The `completedHandshake` cast is modelled as a wrap of the difference into 32 bits. The `long` subtraction itself is unbounded in the model.

## Findings

| source | as written | input that shows it | evidently intended | confidence | as-written member | corrected member |
|---|---|---|---|---|---|---|
| src/main/java/me/blvckbytes/bblibreflect/handle/ClassHandle.java:98-104 | `equals` is true only for a raw `Class` equal to the wrapped one, so a handle is never equal to itself or to another handle of the same class | `h.equals(h)` for any handle `h` | handles compare by wrapped class, which makes `equals` reflexive and consistent with `hashCode` | high, not executed | ClassHandle.EqualsIrreflexive | ClassHandle.EqualsCorrectedContract |
| src/main/java/me/blvckbytes/bblibreflect/PacketInterceptor.java:546-547 | `modifyOutgoing` returns the receiver object instead of the message when the receiver is not an intercepted viewer | any outgoing message on a receiver that is not an InterceptedViewer | return the message unchanged, as `modifyIncoming` does | high, not executed | PacketInterceptors.OutgoingReturnAsWrittenLosesMessage | PacketInterceptors.OutgoingReturn |
| src/main/java/me/blvckbytes/bblibreflect/PacketInterceptor.java:298-328 | `inject`, documented as injecting a player after reloads, registers a viewer but never places the handler in its channel | `getPlayerAsViewer(p)` for a player online before a reload | also call `injectChannel` on the new viewer | medium, not executed | PacketInterceptors.Interceptor.InjectAsWritten | PacketInterceptors.Interceptor.Inject |
| src/main/java/me/blvckbytes/bblibreflect/communicator/SetSlotCommunicator.java:67-76 | `sendToViewer` builds and stamps the packet and returns SUCCESS without sending it | any `sendToViewer` or `sendToPlayer` call whose packet builds | send the stamped packet to the viewer, as `sendToViewers` does | high, not executed | SetSlotCommunicator.SendToViewerAsWritten | SetSlotCommunicator.SendToViewer |
| src/main/java/me/blvckbytes/bblibreflect/communicator/BookEditCommunicator.java:136-140 | `cleanup` cancels requests while it iterates the key set, and each cancel removes from that key set; BookEditorCommunicator.java:100-104 has the same loop | two requests open when the plugin unloads: the second iteration step throws ConcurrentModificationException | cancel every request, iterating a copy of the keys | high, not executed | BookEditRequests.CleanupAsWrittenMissesSecond | BookEditRequests.Requests.Cleanup |
| src/main/java/me/blvckbytes/bblibreflect/BookEditorCommunicator.java:140 | `onInteract` re-sends the book with `setFakeTopInventorySlot`, although it was placed with `setFakeInventorySlot` | an interaction while no window is open: nothing is re-sent | re-send into the player's inventory, as placed at line 84 | medium, not executed | BookEditorCommunicator.InteractResendAsWrittenMisses | BookEditorCommunicator.BookEditor.OnInteract |
| src/main/java/me/blvckbytes/bblibreflect/RClass.java:42-45 | the chat component's pre-refactoring name is `net.minecraft.server.{v}.NetworkManager` | resolving I_CHAT_BASE_COMPONENT on a pre-1.17 server loads NetworkManager | `net.minecraft.server.{v}.IChatBaseComponent` | high, not executed | RClassTable.ChatComponentAsWrittenIsNetworkManager | RClassTable.ChatComponentNameDistinct |
| src/main/java/me/blvckbytes/bblibreflect/ReflClass.java:38-41 | the same name is repeated in the ReflClass table | resolving I_CHAT_BASE_COMPONENT on a pre-1.17 server loads NetworkManager | `net.minecraft.server.{v}.IChatBaseComponent` | high, not executed | ReflClass.ChatComponentAsWrittenIsNetworkManager | ReflClass.ChatComponentNameDistinct |
