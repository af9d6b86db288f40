# Design-pattern demo: flyweight, mediator, prototype

A Dafny model of the three in-memory pattern modules of a small single-page demo:

- **Flyweight** (`flyweight.dfy`): the `iconDefinitions` table over the four icon names
  (`spark`, `leaf`, `wave`, `bolt`); `IconFlyweight`, which wraps one definition;
  `IconFlyweightFactory`, a memoising cache with `hits` and `misses` counters; and
  `buildBadgeCollection`, which samples blueprints, resolves each icon through one
  factory and reports statistics.
- **Mediator** (`mediator.dfy`): the `channelBriefs` and `updateLibrary` tables,
  `pickTemplate`, and `LaunchMediator`. The mediator keeps a total record from the five
  disciplines to their last message. `dispatch` rewrites one entry and returns a routed
  log entry. `getChannelSnapshot` copies the record.
- **Prototype** (`prototype.dfy`): `CreativeBriefPrototype`, whose `clone` merges
  overrides over its read-only spec and whose `snapshot` copies that spec, and the
  `creativeBriefLibrary` seed list, whose construction issues the first three brief ids.
- **Ids** (`ids.dfy`): the module-level counters behind `createBadgeId`, `createLogId`
  and `createId`. Each is an explicit `Counter` object passed by the caller. An id is
  its prefix and the serial it was issued with.
- **Draws** (`draws.dfy`): the `Math.floor(Math.random() * n)` index arithmetic and
  `randomInt`, with the draw as a parameter in [0, 1).

The factory is a class. Its ghost `calls` history and its `Valid()` invariant tie the
cache keys, `misses` and `hits` to the names asked for. `buildBadgeCollection` is a
loop around that factory and the badge counter. The mediator is a class over a `map`.
Its constructor runs the `reduce` as a loop whose invariant is the left fold
`Accumulate`. The prototype keeps its spec in a `const` field, because the source
declares it `readonly`. JS arrays and records become Dafny `seq`s, `map`s and
datatypes. These are values, so both the copies the source makes with spread and the
objects it shares by reference (see "## Left out") are plain values here.

`uniqueIcons` is the factory's cache size; `BuildBadgeCollection` proves it equals the
number of distinct icons among the selected blueprints.

## Model

| member | source | states |
|---|---|---|
| `Flyweight.IconFlyweight.constructor` | src/patterns/flyweight.ts:27-33 | `getDefinition()` (`GetDefinition`) returns exactly the definition the flyweight was built with; the field is immutable |
| `Flyweight.DefinitionsDistinct` | src/patterns/flyweight.ts:8-25 | in the `iconDefinitions` table (`Definition`) all four icons share the viewBox `0 0 24 24`, and two names have the same definition only when they are the same name |
| `Flyweight.AtMostFourNames` | src/patterns/flyweight.ts:1 | no set of icon names has more than four members, the size of the `IconName` enumeration |
| `Flyweight.IconFlyweightFactory.constructor` | src/patterns/flyweight.ts:35-38 | a new factory has an empty cache, zero hits and zero misses |
| `Flyweight.IconFlyweightFactory.GetIcon` | src/patterns/flyweight.ts:40-51 | a cached name returns the stored instance, adds one hit and leaves the misses and cache as they were. An absent name stores a fresh flyweight over `iconDefinitions[name]` and adds one miss, with hits and other entries unchanged. Either way the call is recorded, and the invariant is kept: a name is cached exactly when it has been asked for, `misses` is the cache size, `hits + misses` is the number of calls, and every entry wraps its own name's definition |
| `Flyweight.IconFlyweightFactory.CacheSize` | src/patterns/flyweight.ts:53-55 | the cache size equals `misses` and the number of distinct names asked for; `hits` plus it equals the number of calls; it is at most 4 |
| `Flyweight.SparkSparkLeaf` | src/patterns/flyweight.ts:36-55 | `spark`, `spark`, `leaf` gives one hit, two misses and cache size two, and both `spark` calls return the same instance |
| `Flyweight.BadgeForRenders` | src/patterns/flyweight.ts:168-177 | `BadgeFor` is the callback's object literal. A badge shows its blueprint's title, product, meta, accent and icon name, plus that icon's static viewBox and path. Badges whose serials differ have different ids |
| `Flyweight.DistinctIcons` | src/patterns/flyweight.ts:162-165 | the distinct names the map callbacks ask the factory for are exactly the icons the selected blueprints use |
| `Flyweight.ResolveBadge` | src/patterns/flyweight.ts:164-177 | one map callback. It resolves the icon through the factory, which keeps its invariant and records the name. It issues one badge id, so the counter rises by 1. It returns the badge its blueprint renders with the new serial |
| `Flyweight.MapBadges` | src/patterns/flyweight.ts:164-178 | `selectedBlueprints.map(...)` gives one badge per blueprint, in order, with consecutive badge serials. The factory ends up asked for exactly the selected icons, in that order, and the badge counter advances by the number of blueprints |
| `Flyweight.BuildBadgeCollection` | src/patterns/flyweight.ts:158-189 | `badges.length == totalBadges == sampleSize`, which lies in [5, 10]. `cacheHits + cacheMisses == totalBadges`. `uniqueIcons == cacheMisses ==` the number of distinct icons among the selected blueprints (`Selected(picks)`, the blueprints the drawn indices name, in draw order), which is at most 4. The i-th badge renders the i-th drawn blueprint. Badge ids carry consecutive serials, so no two are equal. The badge counter advances by `sampleSize` |
| `Draws.FloorIndex` | src/patterns/flyweight.ts:134-135 | `floor(r * n)` for `0 <= r < 1` is an index below `n` (used by `pickBlueprint` and by `pickTemplate` at src/patterns/mediator.ts:125) |
| `Draws.FloorIndexReaches` | src/patterns/flyweight.ts:134-135 | every index below `n` is the image of some draw in [0, 1), so no blueprint or template is out of reach |
| `Draws.RandomInt` | src/patterns/flyweight.ts:131-132 | `randomInt(min, max)` lies in [min, max], so the sample size lies in [5, `badgeBlueprints.length + 2`] |
| `Ids.Counter.constructor` | src/patterns/flyweight.ts:125 | a counter starts at 0, as `badgeCounter`, `logCounter` and `briefCounter` do when their modules load. Every operation that issues ids accepts a counter at any count, because `briefCounter` is already 3 once the seed library is built |
| `Ids.Counter.Next` | src/patterns/flyweight.ts:126-129 | the counter rises by exactly 1 and the id carries the new value, so ids from one counter are pairwise distinct (likewise `createLogId`, src/patterns/mediator.ts:117-121, and `createId`, src/patterns/prototype.ts:18-22) |
| `Mediator.UpdateLibrary` | src/patterns/mediator.ts:54-115 | every discipline's template list is non-empty, and every template routes to at least one discipline other than its sender |
| `Mediator.PickTemplate` | src/patterns/mediator.ts:123-126 | a slot chosen below the list's length yields a template of that discipline's list |
| `Mediator.AccumulateKeys` | src/patterns/mediator.ts:141-147 | `Accumulate` is the `reduce` and its callback. The record it builds has an entry for exactly the disciplines the briefs name |
| `Mediator.AccumulateLastWins` | src/patterns/mediator.ts:141-147 | a brief that no later brief overrides leaves its own summary in the record |
| `Mediator.InitialMessages` | src/patterns/mediator.ts:15-46 | over the static `channelBriefs` the record is total and maps each brief's discipline to that brief's summary |
| `Mediator.LaunchMediator.constructor` | src/patterns/mediator.ts:140-148 | a fresh mediator's record is total and maps every discipline to its `channelBriefs` summary |
| `Mediator.LaunchMediator.Dispatch` | src/patterns/mediator.ts:150-162 | `lastMessage[d]` becomes the chosen template's summary and every other entry is unchanged. The entry has `from == d` and the template's summary, routing and nudge. The log counter rises by exactly 1 and the entry's id carries the new value |
| `Mediator.LaunchMediator.GetChannelSnapshot` | src/patterns/mediator.ts:164-166 | the snapshot is total and equal to the current record entry by entry; reading it changes nothing |
| `Prototype.Merge` | src/patterns/prototype.ts:33-46 | for `name`, `theme`, `tone`, `palette`, `keywords` and `deliverables`, the override wins when it is given and the original's value is kept otherwise; the id is the one settled on |
| `Prototype.MergeNothing` | src/patterns/prototype.ts:30-47 | merging no overrides reproduces the original spec in every field but the id |
| `Prototype.MergeTwice` | src/patterns/prototype.ts:30-47 | cloning a clone equals one clone of the original with the second overrides layered over the first |
| `Prototype.CreativeBriefPrototype.constructor` | src/patterns/prototype.ts:28 | the prototype stores the given spec |
| `Prototype.CreativeBriefPrototype.Clone` | src/patterns/prototype.ts:30-47 | an `id` override becomes the clone's id and leaves the counter alone. Without one, a fresh `"brief"` id is issued and the counter rises by exactly 1. All other fields follow `Merge`. The result is a fresh prototype, and the source spec, being read-only, is unchanged |
| `Prototype.CreativeBriefPrototype.Snapshot` | src/patterns/prototype.ts:49-56 | the snapshot equals the stored spec in every field, lists included |
| `Prototype.CloneUnchanged` | src/patterns/prototype.ts:30-56 | the first snapshot equals the original's spec. A clone with no overrides, snapshotted, equals it except for the id, which is a freshly issued `"brief"` id. The counter rises by exactly 1 |
| `Prototype.SeedLibrary` | src/patterns/prototype.ts:59-87 | building `creativeBriefLibrary` gives three prototypes over the three seed specs, in order. Their ids are issued by `createId` with consecutive serials, so the brief counter rises by 3 |
| `Prototype.FirstCloneSerial` | src/patterns/prototype.ts:18-87 | from the initial counter the seeds get serials 1, 2 and 3, so the first clone without an `id` override gets serial 4 |

## Left out

- `Date.now()` inside ids and the `new Date().toISOString()` log timestamp are clock reads, so they are not modelled. An id keeps only its prefix and counter value, and a log entry has no timestamp.
- The rendering of an id as the string `${prefix}-${time}-${counter}` is not modelled. Ids are compared as (prefix, serial) pairs, and distinctness rests on the serial.
- `Math.random` is not modelled. Draws are parameters: `BuildBadgeCollection` takes the sample size and the blueprint indices, and `Dispatch` takes the template slot. These values are assumed already in range, as `Draws.RandomInt` and `Draws.FloorIndex` show the conversions yield.
- `Draws.FloorIndex`, `Draws.RandomInt`: use exact real arithmetic; IEEE double rounding of `r * n` is not modelled.
- SVG path strings are an opaque token per icon (`SvgPath`), because nothing in the core reads inside them. The viewBox strings, colour codes and copy text are kept as strings and only copied.
- The three id counters are module-level globals in the source. Here each is a `Counter` object that the caller must pass in, and the model does not force one counter per module.
- JS object identity is approximated. Spread copies are value copies here. An override field explicitly set to `undefined` is not modelled, because an override is either given (`Some`) or absent (`None`).
- Counters, `hits` and `misses` are JS numbers, and `+= 1` stops growing at 2^53. The model's counters are unbounded, so id distinctness is proved only for serials below that bound.
- `getDefinition()` (src/patterns/flyweight.ts:30-32) and `routedTo: template.routedTo` (src/patterns/mediator.ts:158) hand out the library's own objects, not copies. Values cannot alias here, so a caller that mutated such an object would not change the table in the model.
- `BriefId` keeps a supplied id (`Supplied`) apart from an issued one (`Issued`). In the source both are strings, and a supplied string can equal a generated one.
- `src/router/index.ts` and the Vue views are not modelled: they are presentation glue over a library that is not part of this model.
