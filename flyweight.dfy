/**
 * Flyweight icon cache and badge builder: a factory hands out one shared flyweight
 * per icon name and counts cache hits and misses; the badge builder resolves the icon
 * of every sampled blueprint through one factory.
 */
module Flyweight {
  import opened Ids

  datatype IconName = Spark | Leaf | Wave | Bolt

  /**
   * The SVG path data of each icon, kept as an opaque token: nothing in the core reads
   * inside a path string.
   */
  datatype SvgPath = SparkPath | LeafPath | WavePath | BoltPath

  datatype IconDefinition = IconDefinition(viewBox: string, path: SvgPath)

  /** The static `iconDefinitions` table, total over the four icon names. */
  function Definition(name: IconName): IconDefinition
  {
    match name
    case Spark => IconDefinition(ViewBox, SparkPath)
    case Leaf => IconDefinition(ViewBox, LeafPath)
    case Wave => IconDefinition(ViewBox, WavePath)
    case Bolt => IconDefinition(ViewBox, BoltPath)
  }

  /** The one viewBox all four icons share. */
  const ViewBox: string := "0 0 24 24"

  /** Every icon shares the one viewBox and has a path of its own. */
  lemma DefinitionsDistinct(a: IconName, b: IconName)
    ensures Definition(a).viewBox == ViewBox
    ensures Definition(a) == Definition(b) <==> a == b
  {
  }

  /** The set of names a call history touched. */
  function Distinct(calls: seq<IconName>): set<IconName>
  {
    set n | n in calls
  }

  /** No set of icon names is larger than the enumeration itself. */
  lemma AtMostFourNames(names: set<IconName>)
    ensures |names| <= 4
  {
    var all := {Spark, Leaf, Wave, Bolt};
    assert names <= all by {
      forall n | n in names ensures n in all {
        match n
        case Spark =>
        case Leaf =>
        case Wave =>
        case Bolt =>
      }
    }
    assert names - all == {};
    assert names * all == names;
    assert names + all == all;
  }

  /** A flyweight wraps one definition, immutable for the flyweight's lifetime. */
  class IconFlyweight {
    const definition: IconDefinition

    constructor (definition: IconDefinition)
      ensures GetDefinition() == definition
    {
      this.definition := definition;
    }

    function GetDefinition(): IconDefinition
    {
      definition
    }
  }

  class IconFlyweightFactory {
    var cache: map<IconName, IconFlyweight>
    var hits: nat
    var misses: nat
    /** Every name passed to GetIcon so far, in order. */
    ghost var calls: seq<IconName>

    ghost predicate Valid()
      reads this
    {
      && (forall n :: n in cache <==> n in calls)
      && misses == |cache|
      && hits + misses == |calls|
      && forall n :: n in cache ==> cache[n].GetDefinition() == Definition(n)
    }

    constructor ()
      ensures Valid()
      ensures cache == map[] && hits == 0 && misses == 0 && calls == []
    {
      cache := map[];
      hits, misses := 0, 0;
      calls := [];
    }

    /**
     * Returns the cached flyweight for `name` (a hit), or creates, stores and returns a
     * new one wrapping the static definition (a miss). Other entries never change.
     */
    method GetIcon(name: IconName) returns (icon: IconFlyweight)
      requires Valid()
      modifies this
      ensures Valid()
      ensures calls == old(calls) + [name]
      ensures icon.GetDefinition() == Definition(name)
      ensures name in old(cache) ==>
        && icon == old(cache)[name]
        && cache == old(cache)
        && hits == old(hits) + 1 && misses == old(misses)
      ensures name !in old(cache) ==>
        && fresh(icon)
        && cache == old(cache)[name := icon]
        && hits == old(hits) && misses == old(misses) + 1
      ensures hits + misses == |calls|
    {
      calls := calls + [name];
      if name in cache {
        icon := cache[name];
        hits := hits + 1;
      } else {
        icon := new IconFlyweight(Definition(name));
        cache := cache[name := icon];
        misses := misses + 1;
      }
    }

    /** The number of cached flyweights: one per name asked for, so at most four. */
    function CacheSize(): (n: nat)
      reads this
      requires Valid()
      ensures n == misses == |Distinct(calls)|
      ensures hits + n == |calls|
      ensures n <= 4
    {
      assert cache.Keys == Distinct(calls);
      AtMostFourNames(cache.Keys);
      |cache|
    }
  }

  /** The worked example: `spark`, `spark`, `leaf` gives one hit, two misses, two entries. */
  method SparkSparkLeaf() returns (hits: nat, misses: nat, size: nat, shared: bool)
    ensures hits == 1 && misses == 2 && size == 2 && shared
  {
    var factory := new IconFlyweightFactory();
    var first := factory.GetIcon(Spark);
    var second := factory.GetIcon(Spark);
    var third := factory.GetIcon(Leaf);
    hits, misses, size := factory.hits, factory.misses, factory.CacheSize();
    shared := first == second;
  }

  datatype BadgeBlueprint = BadgeBlueprint(
    product: string, title: string, icon: IconName, accent: string, meta: string)

  /** The static `badgeBlueprints` list. */
  const Blueprints: seq<BadgeBlueprint> := [
    BadgeBlueprint("Nova Finance", "Wallet Sync", Spark, "#fef3c7", "신규 가입자 온보딩 시간 25% 단축"),
    BadgeBlueprint("Flow CRM", "Signal Routing", Wave, "#e0f2fe", "팀 인입 티켓을 3개 스트림으로 자동 분류"),
    BadgeBlueprint("Atlas Ops", "Energy Sweep", Bolt, "#fee2e2", "야간 배포 대비 전력 사용량 18% 절감"),
    BadgeBlueprint("Moss Retail", "Green Cart", Leaf, "#dcfce7", "지속 가능 카테고리 클릭률 2.4배 상승"),
    BadgeBlueprint("Pulse Metrics", "Signal Routing", Wave, "#e0f2fe", "주요 알림을 세 가지 긴급도로 정렬"),
    BadgeBlueprint("Nova Finance", "Wallet Sync", Spark, "#fef3c7", "거래 기록 복구 성공률 99.2% 유지"),
    BadgeBlueprint("Atlas Ops", "Overdrive", Bolt, "#fee2e2", "인프라 스파이크 시나리오를 4분 내 시뮬레이션"),
    BadgeBlueprint("Moss Retail", "Green Cart", Leaf, "#dcfce7", "친환경 배지 클릭 대비 구매율 38% 증가")
  ]

  datatype BadgeInstance = BadgeInstance(
    id: GeneratedId, title: string, product: string, meta: string,
    iconName: IconName, accent: string, viewBox: string, path: SvgPath)

  datatype BuildStats = BuildStats(totalBadges: nat, uniqueIcons: nat, cacheHits: nat, cacheMisses: nat)

  datatype BuildResult = BuildResult(badges: seq<BadgeInstance>, stats: BuildStats)

  /** The badge a blueprint renders to when its id carries `serial`. */
  function BadgeFor(blueprint: BadgeBlueprint, serial: nat): BadgeInstance
  {
    var definition := Definition(blueprint.icon);
    BadgeInstance(GeneratedId("badge", serial), blueprint.title, blueprint.product, blueprint.meta,
                  blueprint.icon, blueprint.accent, definition.viewBox, definition.path)
  }

  /**
   * A badge shows its blueprint's display fields and its icon's static definition,
   * and badges with different serials have different ids.
   */
  lemma BadgeForRenders(blueprint: BadgeBlueprint, serial: nat, other: BadgeBlueprint, otherSerial: nat)
    ensures BadgeFor(blueprint, serial).title == blueprint.title
    ensures BadgeFor(blueprint, serial).product == blueprint.product
    ensures BadgeFor(blueprint, serial).meta == blueprint.meta
    ensures BadgeFor(blueprint, serial).iconName == blueprint.icon
    ensures BadgeFor(blueprint, serial).accent == blueprint.accent
    ensures BadgeFor(blueprint, serial).viewBox == Definition(blueprint.icon).viewBox
    ensures BadgeFor(blueprint, serial).path == Definition(blueprint.icon).path
    ensures serial != otherSerial ==> BadgeFor(blueprint, serial).id != BadgeFor(other, otherSerial).id
  {
  }

  /**
   * The blueprints a sequence of drawn indices selects, with repetition. The ensures
   * clauses spell out the comprehension so that `BuildBadgeCollection` needs no unfolding.
   */
  function Selected(picks: seq<nat>): (bps: seq<BadgeBlueprint>)
    requires forall i :: 0 <= i < |picks| ==> picks[i] < |Blueprints|
    ensures |bps| == |picks|
    ensures forall i {:trigger bps[i]} :: 0 <= i < |picks| ==> bps[i] == Blueprints[picks[i]]
  {
    seq(|picks|, i requires 0 <= i < |picks| => Blueprints[picks[i]])
  }

  /** The icon names of a list of blueprints, in order. */
  function IconsOf(bps: seq<BadgeBlueprint>): (names: seq<IconName>)
  {
    seq(|bps|, i requires 0 <= i < |bps| => bps[i].icon)
  }

  /**
   * The badges a list of blueprints renders to, with consecutive serials from `first`.
   * The ensures clauses spell out the comprehension for the callers' proofs.
   */
  function BadgesFor(bps: seq<BadgeBlueprint>, first: nat): (badges: seq<BadgeInstance>)
    ensures |badges| == |bps|
    ensures forall i {:trigger badges[i]} :: 0 <= i < |bps| ==> badges[i] == BadgeFor(bps[i], first + i)
  {
    seq(|bps|, i requires 0 <= i < |bps| => BadgeFor(bps[i], first + i))
  }

  /** The distinct names in the icon list are exactly the icons the blueprints use. */
  lemma DistinctIcons(bps: seq<BadgeBlueprint>)
    ensures Distinct(IconsOf(bps)) == set b | b in bps :: b.icon
  {
    var names := IconsOf(bps);
    forall n | n in Distinct(names) ensures n in set b | b in bps :: b.icon {
      var i :| 0 <= i < |names| && names[i] == n;
      assert bps[i] in bps;
    }
    forall n | n in set b | b in bps :: b.icon ensures n in Distinct(names) {
      var b :| b in bps && b.icon == n;
      var i :| 0 <= i < |bps| && bps[i] == b;
      assert names[i] == n;
    }
  }

  /** One more blueprint's icon extends the prefix of the icon list by that icon. */
  lemma IconsOfPrefix(bps: seq<BadgeBlueprint>, i: nat)
    requires i < |bps|
    ensures IconsOf(bps)[..i + 1] == IconsOf(bps)[..i] + [bps[i].icon]
  {
  }

  /** One more badge, with the next serial, extends the prefix of the rendered list. */
  lemma BadgesForPrefix(bps: seq<BadgeBlueprint>, first: nat, i: nat, badge: BadgeInstance)
    requires i < |bps| && badge == BadgeFor(bps[i], first + i)
    ensures BadgesFor(bps, first)[..i + 1] == BadgesFor(bps, first)[..i] + [badge]
  {
  }

  /**
   * The callback `buildBadgeCollection` maps over the selected blueprints: resolve the
   * icon through the shared factory, issue a badge id, copy the display fields.
   */
  method ResolveBadge(factory: IconFlyweightFactory, blueprint: BadgeBlueprint, badgeIds: Counter)
    returns (badge: BadgeInstance)
    requires factory.Valid()
    modifies factory, badgeIds
    ensures factory.Valid() && factory.calls == old(factory.calls) + [blueprint.icon]
    ensures badgeIds.count == old(badgeIds.count) + 1
    ensures badge == BadgeFor(blueprint, badgeIds.count)
  {
    var icon := factory.GetIcon(blueprint.icon);
    var definition := icon.GetDefinition();
    var id := badgeIds.Next("badge");
    badge := BadgeInstance(id, blueprint.title, blueprint.product, blueprint.meta,
                           blueprint.icon, blueprint.accent, definition.viewBox, definition.path);
  }

  /**
   * `selectedBlueprints.map(...)`: one badge per selected blueprint, in order, every
   * icon resolved through the one shared factory.
   */
  method MapBadges(factory: IconFlyweightFactory, selected: seq<BadgeBlueprint>, badgeIds: Counter)
    returns (badges: seq<BadgeInstance>)
    requires factory.Valid() && factory.calls == []
    modifies factory, badgeIds
    ensures factory.Valid() && factory.calls == IconsOf(selected)
    ensures badgeIds.count == old(badgeIds.count) + |selected|
    ensures badges == BadgesFor(selected, old(badgeIds.count) + 1)
  {
    badges := [];
    ghost var icons := IconsOf(selected);
    ghost var first := badgeIds.count + 1;
    ghost var expected := BadgesFor(selected, first);
    for i := 0 to |selected|
      invariant factory.Valid()
      invariant factory.calls == icons[..i]
      invariant badgeIds.count + 1 == first + i
      invariant badges == expected[..i]
    {
      var badge := ResolveBadge(factory, selected[i], badgeIds);
      IconsOfPrefix(selected, i);
      BadgesForPrefix(selected, first, i, badge);
      badges := badges + [badge];
    }
    assert icons[..|selected|] == icons;
    assert expected[..|selected|] == expected;
  }

  /**
   * `buildBadgeCollection` with its random draws as parameters: `sampleSize` is the
   * value of `randomInt(5, badgeBlueprints.length + 2)` and `picks[i]` the index the
   * i-th `pickBlueprint` call draws. `badgeIds` is the counter behind `createBadgeId`.
   */
  method BuildBadgeCollection(sampleSize: nat, picks: seq<nat>, badgeIds: Counter)
    returns (result: BuildResult)
    requires 5 <= sampleSize <= |Blueprints| + 2
    requires |picks| == sampleSize
    requires forall i :: 0 <= i < |picks| ==> picks[i] < |Blueprints|
    modifies badgeIds
    ensures badgeIds.count == old(badgeIds.count) + sampleSize
    ensures |result.badges| == result.stats.totalBadges == sampleSize
    ensures 5 <= result.stats.totalBadges <= 10
    ensures result.stats.cacheHits + result.stats.cacheMisses == result.stats.totalBadges
    ensures result.stats.uniqueIcons == result.stats.cacheMisses
              == |set b | b in Selected(picks) :: b.icon| <= 4
    ensures forall i :: 0 <= i < |result.badges| ==>
              result.badges[i] == BadgeFor(Blueprints[picks[i]], old(badgeIds.count) + 1 + i)
    ensures forall i, j :: 0 <= i < j < |result.badges| ==> result.badges[i].id != result.badges[j].id
  {
    var factory := new IconFlyweightFactory();
    var selected := Selected(picks);
    var badges := MapBadges(factory, selected, badgeIds);
    assert factory.calls == IconsOf(selected);
    var size := factory.CacheSize();
    DistinctIcons(selected);
    result := BuildResult(badges, BuildStats(|badges|, size, factory.hits, factory.misses));
  }
}
