# CommandAPI 1.16.1 adapter core, modelled in Dafny

This project models three parts of CommandAPI's version adapter for the 1.16.1 game server, plus two value records.

- The behavioural math-operation classifier (`getMathOperation`). The server's scoreboard operator exposes no identity, only `apply(left, right)`, and that call rewrites two score cells. The adapter seeds two fresh cells with 6 and 2, applies the operator and decodes the left cell. On the ambiguous outcome 2 it checks for a swap. Otherwise it reseeds the cells with 2 and 6 and applies the operator again to tell min from assign. Here a `Score` class is the mutable cell and an `Operator` class has an `Apply` method that rewrites two distinct cells. `GetMathOperation` is proved to return the decision table `Classify` of the operator's effect. A counter that `Apply` itself increments proves the operator is applied once or twice. Lemmas prove that the table picks out each of the nine operations under their true integer semantics. No operation is reported for a first-probe value outside the table. An operator outside the nine whose first probe gives 2 with no swap is still reported as assign, unless its second probe leaves the left cell at 2, which reads as min.
- The adapter's small pure mappings: integer-range extraction with open bounds (`getIntRange`), translation of the host axis set into Bukkit axes (`getAxis`), the selector and score-holder parser dispatch (`_ArgumentEntity`, `_ArgumentScoreholder`) and selector extraction (`getEntitySelector`). In extraction, a host syntax error becomes an empty list for the plural kinds and propagates for the singular kinds.
- The `ItemSlot` record. It decodes a numeric slot id into a container type and an index, and it is proved to round-trip with an encoder `ToId`. The `IntegerRange` record is an inclusive interval of Java ints with a containment test.

Files: `wrappers.dfy` (Option, Result), `int32.dfy` (Java `int`), `integer_range.dfy`, `item_slot.dfy`, `math_operation.dfy`, `int_range_extraction.dfy`, `axis_extraction.dfy`, `entity_selector.dfy`.

Host objects become values:
- A parse result from the server becomes a datatype: a `HostIntRange` with optional bounds, a set of `HostAxis`, or a `HostSelection` that records what each host selector extractor returns or throws.
- A thrown `CommandSyntaxException` becomes `Failure(SyntaxError(reason))`.
- A Java `null` becomes `None`.

## Model

| member | source | states |
|---|---|---|
| `NmsMathOperation.GetMathOperation` | 1.13CommandAPI/commandapi-1.16.1/src/main/java9/dev/jorel/commandapi/nms/NMS_1_16_R1.java:617-653 | Probing two fresh cells through the operator's own `Apply` returns exactly the decision table's answer. The operator's call counter, which only `Apply` increments, grows by 2 exactly when the first left outcome is 2 and the right cell is not 6, and by 1 otherwise. |
| `NmsMathOperation.ClassifyCorrect` | 1.13CommandAPI/commandapi-1.16.1/src/main/java9/dev/jorel/commandapi/nms/NMS_1_16_R1.java:617-653 | An operator that behaves as add, subtract, multiply, divide, mod, assign, min, max or swap is classified as exactly that operation. |
| `NmsMathOperation.ProbeCountOfOperations` | 1.13CommandAPI/commandapi-1.16.1/src/main/java9/dev/jorel/commandapi/nms/NMS_1_16_R1.java:641-649 | Among the nine true operations, only min and assign need the second probe; swap and the six directly decoded ones need one. |
| `NmsMathOperation.Classify` | 1.13CommandAPI/commandapi-1.16.1/src/main/java9/dev/jorel/commandapi/nms/NMS_1_16_R1.java:627-652 | The decision table returns no operation exactly when the first-probe left value is outside {0, 2, 3, 4, 6, 8, 12}. |
| `NmsMathOperation.ClassifyDependsOnlyOnProbes` | 1.13CommandAPI/commandapi-1.16.1/src/main/java9/dev/jorel/commandapi/nms/NMS_1_16_R1.java:623-649 | Two operators that agree on the first probe's two cells and on the second probe's left cell are classified alike. |
| `NmsMathOperation.ClassifySound` | 1.13CommandAPI/commandapi-1.16.1/src/main/java9/dev/jorel/commandapi/nms/NMS_1_16_R1.java:627-649 | A reported operation agrees with the operator on the first probe's left cell. A reported swap also matches on the right cell, and a reported min on the second probe. A reported assign only means that the second probe's left cell is not 2, min's outcome. So an operator outside the nine whose first probe gives 2 with no swap is reported as assign. |
| `NmsIntRange.GetIntRange` | 1.13CommandAPI/commandapi-1.16.1/src/main/java9/dev/jorel/commandapi/nms/NMS_1_16_R1.java:537-543 | A present bound passes through unchanged. An absent lower bound becomes `Integer.MIN_VALUE` and an absent upper bound `Integer.MAX_VALUE`. The resulting range contains an int exactly when the host range admits it. |
| `NmsIntRange.FullyOpenRangeContainsEveryInt` | 1.13CommandAPI/commandapi-1.16.1/src/main/java9/dev/jorel/commandapi/nms/NMS_1_16_R1.java:540-542 | A range open at both ends contains every 32-bit int. |
| `NmsAxis.GetAxis` | 1.13CommandAPI/commandapi-1.16.1/src/main/java9/dev/jorel/commandapi/nms/NMS_1_16_R1.java:387-404 | The loop's output holds X, Y or Z exactly when the host set holds the corresponding host axis, and nothing else. |
| `NmsEntitySelector.ArgumentEntity` | 1.13CommandAPI/commandapi-1.16.1/src/main/java9/dev/jorel/commandapi/nms/NMS_1_16_R1.java:245-257 | The plural selector kinds, and only those, get the plural parsers `multipleEntities()` and `d()`. |
| `NmsEntitySelector.ArgumentEntityInjective` | 1.13CommandAPI/commandapi-1.16.1/src/main/java9/dev/jorel/commandapi/nms/NMS_1_16_R1.java:245-257 | The four selector kinds map to four distinct host parser factories. |
| `NmsEntitySelector.ArgumentScoreholder` | 1.13CommandAPI/commandapi-1.16.1/src/main/java9/dev/jorel/commandapi/nms/NMS_1_16_R1.java:345-347 | A single score holder gets factory `a()` and multiple holders get `b()`. |
| `NmsEntitySelector.GetEntitySelector` | 1.13CommandAPI/commandapi-1.16.1/src/main/java9/dev/jorel/commandapi/nms/NMS_1_16_R1.java:464-488 | The plural kinds never fail and yield a list of the right kind. The singular kinds succeed exactly when their host call does, fail with the host's own error, and wrap the host entity. |
| `NmsEntitySelector.ToBukkit` | 1.13CommandAPI/commandapi-1.16.1/src/main/java9/dev/jorel/commandapi/nms/NMS_1_16_R1.java:469-471 | Mapping host entities to their Bukkit views keeps the length and wraps the k-th host entity at position k. |
| `NmsEntitySelector.PluralListContents` | 1.13CommandAPI/commandapi-1.16.1/src/main/java9/dev/jorel/commandapi/nms/NMS_1_16_R1.java:466-481 | A plural list is empty when the host call threw. Otherwise it holds the Bukkit view of each host match, in the host's order. |
| `NmsEntitySelector.NoMatchAsymmetry` | 1.13CommandAPI/commandapi-1.16.1/src/main/java9/dev/jorel/commandapi/nms/NMS_1_16_R1.java:466-485 | When every host call throws the same error, the plural kinds yield empty lists and the singular kinds fail with that error. |
| `ItemSlots.FromId` | 1.13CommandAPI/src/io/github/jorelali/commandapi/api/wrappers/ItemSlot.java:18-57 | A decoded index is never negative and stays below its container's slot count (54, 27, 8, 15, or 1 for a single slot). An id with no container gets index 0. |
| `ItemSlots.FromIdToId` | 1.13CommandAPI/src/io/github/jorelali/commandapi/api/wrappers/ItemSlot.java:18-57 | Each container's id range decodes to that container, offset by the range's base id. Each special id decodes to its own container with index 0. |
| `ItemSlots.ToIdFromId` | 1.13CommandAPI/src/io/github/jorelali/commandapi/api/wrappers/ItemSlot.java:18-57 | Round-trip: every id that decodes to a container re-encodes to itself. |
| `ItemSlots.AbsentIffNoSlotHasId` | 1.13CommandAPI/src/io/github/jorelali/commandapi/api/wrappers/ItemSlot.java:40-55 | An id decodes to a `null` container exactly when it is not the id of any slot of any container. |
| `IntegerRanges.IntegerRange.GetLowerBound` | 1.13CommandAPI/commandapi-core/src/main/java/dev/jorel/commandapi/wrappers/IntegerRange.java:25-27 | The lower bound of a non-empty range is itself in range. |
| `IntegerRanges.IntegerRange.GetUpperBound` | 1.13CommandAPI/commandapi-core/src/main/java/dev/jorel/commandapi/wrappers/IntegerRange.java:33-35 | The upper bound of a non-empty range is itself in range. |
| `IntegerRanges.IntegerRange.IsInRange` | 1.13CommandAPI/commandapi-core/src/main/java/dev/jorel/commandapi/wrappers/IntegerRange.java:38-44 | No int is in an inverted range. Both endpoints of a non-empty range are in it. |
| `IntegerRanges.BoundsAreConstructorArguments` | 1.13CommandAPI/commandapi-core/src/main/java/dev/jorel/commandapi/wrappers/IntegerRange.java:16-35 | `getLowerBound` and `getUpperBound` return the constructor's arguments unchanged. |
| `IntegerRanges.InRangeIffBetween` | 1.13CommandAPI/commandapi-core/src/main/java/dev/jorel/commandapi/wrappers/IntegerRange.java:42-44 | `isInRange(i)` holds exactly when low <= i <= high. |
| `IntegerRanges.EndpointsIncluded` | 1.13CommandAPI/commandapi-core/src/main/java/dev/jorel/commandapi/wrappers/IntegerRange.java:38-44 | Both bounds of a non-empty range are in range, as the doc comment promises. |
| `IntegerRanges.NeighboursExcluded` | 1.13CommandAPI/commandapi-core/src/main/java/dev/jorel/commandapi/wrappers/IntegerRange.java:42-44 | low - 1 and high + 1 are out of range wherever they are representable ints. |
| `IntegerRanges.InvertedRangeIsEmpty` | 1.13CommandAPI/commandapi-core/src/main/java/dev/jorel/commandapi/wrappers/IntegerRange.java:42-44 | A range with low > high contains no int. |

## Left out

- The datapack reload (`reloadDataPacks`) is left out. It runs a reflective field write and an asynchronous resource reload on the server.
- The other `_Argument…` factories are left out because each returns an opaque host parser. The same goes for `compatibleVersions`, a constant, and for the extractors that only delegate to host or Bukkit calls (biome, chat, enchantment, loot table, recipe, player, potion effect, NBT, function, score holder, time).
- `getSound` is left out: it is a reflective scan over `CraftSound`.
- `getFloatRange`, `getLocation`, `getLocation2D` and `getRotation` are left out because they work on floating-point values and world objects.
- Suggestion providers, the dispatcher file writer, packet resending, the command map and sender resolution are host I/O and are left out.
- The argument classes `Location2DArgument`, `FunctionArgument`, `NBTCompoundArgument`, `SoundArgument`, `ScoreboardSlotArgument` and `ProxyCommandExecutor` hold no logic of their own and are not part of this model.
- Adapter resolution by server version is not part of this model.
- NmsMathOperation.Operator: the host operator is modelled by a fixed effect on (left, right), applied to two distinct cells. An operator whose behaviour depends on hidden state, or that is applied to one cell twice, is not modelled.
- NmsMathOperation.Operator.Apply: an `apply` that throws is not modelled. A `CommandSyntaxException` from it would propagate out of `getMathOperation`, which declares it at NMS_1_16_R1.java:617. Among the nine operations, only divide and mod throw, and only on a zero divisor. The probes' right cells hold 2 and 6, so none of the nine throws while it is being classified.
- NmsMathOperation.Score: a score cell holds an unbounded integer. The probes use 2 and 6, so no operation the classifier tells apart comes near 32-bit overflow.
- NmsMathOperation.Semantics: a zero divisor makes the server's `/=` and `%=` raise an error; the reference semantics leaves the cells unchanged instead. Division is floor division. The probes never divide by zero.
- NmsMathOperation.GetMathOperation: an unknown probe outcome gives `None`, because the code returns `null` at NMS_1_16_R1.java:652. The caller receives `null`, and no error is raised.
- NmsEntitySelector.ArgumentEntity: the `return null` after the switch (NMS_1_16_R1.java:256, and 487 in `getEntitySelector`) cannot be reached for the four enum values. A Dafny match is exhaustive, so it has no counterpart here.
- NmsEntitySelector.GetEntitySelector: the host extractors' own matching (which entities a selector picks, and the host's zero-match exception) is an input to the model, not computed by it.
