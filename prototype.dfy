/**
 * Creative-brief prototype: a prototype holds a read-only brief spec and clones itself
 * into a new prototype whose spec takes the given overrides over its own fields.
 */
module Prototype {
  import opened Ids

  datatype Option<T> = None | Some(value: T)

  /** A spec's id: one the caller supplied, or one `createId` issued. */
  datatype BriefId = Supplied(text: string) | Issued(generated: GeneratedId)

  datatype BriefSpec = BriefSpec(
    id: BriefId,
    name: string,
    theme: string,
    tone: string,
    palette: seq<string>,
    keywords: seq<string>,
    deliverables: seq<string>)

  /** The optional fields of a `clone` call; `None` means the caller did not pass the field. */
  datatype BriefOverrides = BriefOverrides(
    id: Option<string>,
    name: Option<string>,
    theme: Option<string>,
    tone: Option<string>,
    palette: Option<seq<string>>,
    keywords: Option<seq<string>>,
    deliverables: Option<seq<string>>)

  /** `clone()` called with no argument. */
  const NoOverrides := BriefOverrides(None, None, None, None, None, None, None)

  function Or<T>(given: Option<T>, fallback: T): T
  {
    match given
    case Some(v) => v
    case None => fallback
  }

  /**
   * The spec `clone` builds: every field the overrides give wins over the original's,
   * and the id is the one clone settled on.
   */
  function Merge(spec: BriefSpec, overrides: BriefOverrides, id: BriefId): (merged: BriefSpec)
    ensures merged.id == id
    ensures overrides.name.Some? ==> merged.name == overrides.name.value
    ensures overrides.name.None? ==> merged.name == spec.name
    ensures overrides.theme.Some? ==> merged.theme == overrides.theme.value
    ensures overrides.theme.None? ==> merged.theme == spec.theme
    ensures overrides.tone.Some? ==> merged.tone == overrides.tone.value
    ensures overrides.tone.None? ==> merged.tone == spec.tone
    ensures overrides.palette.Some? ==> merged.palette == overrides.palette.value
    ensures overrides.palette.None? ==> merged.palette == spec.palette
    ensures overrides.keywords.Some? ==> merged.keywords == overrides.keywords.value
    ensures overrides.keywords.None? ==> merged.keywords == spec.keywords
    ensures overrides.deliverables.Some? ==> merged.deliverables == overrides.deliverables.value
    ensures overrides.deliverables.None? ==> merged.deliverables == spec.deliverables
  {
    BriefSpec(
      id,
      Or(overrides.name, spec.name),
      Or(overrides.theme, spec.theme),
      Or(overrides.tone, spec.tone),
      Or(overrides.palette, spec.palette),
      Or(overrides.keywords, spec.keywords),
      Or(overrides.deliverables, spec.deliverables))
  }

  /** Cloning without overrides reproduces the original in every field but the id. */
  lemma MergeNothing(spec: BriefSpec, id: BriefId)
    ensures Merge(spec, NoOverrides, id) == spec.(id := id)
  {
  }

  /** Overrides stacked over a later clone: the later clone's field wins, else the earlier's. */
  function Layer(earlier: BriefOverrides, later: BriefOverrides): BriefOverrides
  {
    BriefOverrides(
      if later.id.Some? then later.id else earlier.id,
      if later.name.Some? then later.name else earlier.name,
      if later.theme.Some? then later.theme else earlier.theme,
      if later.tone.Some? then later.tone else earlier.tone,
      if later.palette.Some? then later.palette else earlier.palette,
      if later.keywords.Some? then later.keywords else earlier.keywords,
      if later.deliverables.Some? then later.deliverables else earlier.deliverables)
  }

  /** A clone of a clone is one clone of the original with the overrides layered. */
  lemma MergeTwice(spec: BriefSpec, first: BriefOverrides, id1: BriefId,
                   second: BriefOverrides, id2: BriefId)
    ensures Merge(Merge(spec, first, id1), second, id2) == Merge(spec, Layer(first, second), id2)
  {
  }

  class CreativeBriefPrototype {
    const spec: BriefSpec

    constructor (spec: BriefSpec)
      ensures this.spec == spec
    {
      this.spec := spec;
    }

    /**
     * A new prototype over the merged spec. The id override is used when given;
     * otherwise `createId` issues a "brief" id, and only then does the counter move.
     * The source prototype's spec is read-only and so is left as it was.
     */
    method Clone(overrides: BriefOverrides, briefIds: Counter) returns (copy: CreativeBriefPrototype)
      modifies briefIds
      ensures fresh(copy)
      ensures overrides.id.Some? ==>
        copy.spec.id == Supplied(overrides.id.value) && briefIds.count == old(briefIds.count)
      ensures overrides.id.None? ==>
        copy.spec.id == Issued(GeneratedId("brief", briefIds.count))
        && briefIds.count == old(briefIds.count) + 1
      ensures copy.spec == Merge(spec, overrides, copy.spec.id)
    {
      var id: BriefId;
      if overrides.id.Some? {
        id := Supplied(overrides.id.value);
      } else {
        var generated := briefIds.Next("brief");
        id := Issued(generated);
      }
      copy := new CreativeBriefPrototype(Merge(spec, overrides, id));
    }

    /** A copy of the stored spec, equal to it in every field. */
    function Snapshot(): (copy: BriefSpec)
      ensures copy == spec
    {
      BriefSpec(spec.id, spec.name, spec.theme, spec.tone, spec.palette, spec.keywords, spec.deliverables)
    }
  }

  /** Cloning with no overrides and taking a snapshot gives the original snapshot up to the id. */
  method CloneUnchanged(original: CreativeBriefPrototype, briefIds: Counter) returns (before: BriefSpec, after: BriefSpec)
    modifies briefIds
    ensures before == original.spec
    ensures after == before.(id := after.id)
    ensures briefIds.count == old(briefIds.count) + 1
    ensures after.id == Issued(GeneratedId("brief", briefIds.count))
  {
    before := original.Snapshot();
    var copy := original.Clone(NoOverrides, briefIds);
    after := copy.Snapshot();
    MergeNothing(original.spec, copy.spec.id);
  }

  /** The fields of the k-th `creativeBriefLibrary` entry, with the id it was issued. */
  function SeedSpec(k: nat, id: BriefId): (spec: BriefSpec)
    requires k < 3
    ensures spec.id == id
  {
    if k == 0 then
      BriefSpec(id, "Aurora onboarding", "Soft gradients for fintech onboarding", "Calm",
                ["#7c4dff", "#c8b6ff", "#f8f2ff"], ["trust", "onboarding", "financial freedom"],
                ["Hero illustration", "Empty state visuals"])
    else if k == 1 then
      BriefSpec(id, "Pulse dashboard", "Data-heavy SaaS dashboard with motion hints", "Balanced",
                ["#0f172a", "#2563eb", "#22d3ee"], ["analytics", "velocity", "motion"],
                ["Widget cards", "Motion storyboard"])
    else
      BriefSpec(id, "Sprout wellness", "Organic ecommerce landing", "Playful",
                ["#0c6b58", "#8dd9c0", "#f7f1e1"], ["wellness", "organic", "community"],
                ["Homepage hero", "Social snippets"])
  }

  /**
   * Loading the module builds `creativeBriefLibrary`: three prototypes whose ids `createId`
   * issues in list order, so the brief counter has moved by three before any clone runs.
   */
  method SeedLibrary(briefIds: Counter) returns (library: seq<CreativeBriefPrototype>)
    modifies briefIds
    ensures briefIds.count == old(briefIds.count) + 3
    ensures |library| == 3
    ensures forall k :: 0 <= k < 3 ==>
              library[k].spec == SeedSpec(k, Issued(GeneratedId("brief", old(briefIds.count) + 1 + k)))
  {
    var id0 := briefIds.Next("brief");
    var aurora := new CreativeBriefPrototype(SeedSpec(0, Issued(id0)));
    var id1 := briefIds.Next("brief");
    var pulse := new CreativeBriefPrototype(SeedSpec(1, Issued(id1)));
    var id2 := briefIds.Next("brief");
    var sprout := new CreativeBriefPrototype(SeedSpec(2, Issued(id2)));
    library := [aurora, pulse, sprout];
  }

  /** With the counter at its initial 0, the seeds take serials 1 to 3, so the first plain clone gets 4. */
  method FirstCloneSerial() returns (seedIds: seq<BriefId>, cloneId: BriefId)
    ensures seedIds == [Issued(GeneratedId("brief", 1)), Issued(GeneratedId("brief", 2)),
                        Issued(GeneratedId("brief", 3))]
    ensures cloneId == Issued(GeneratedId("brief", 4))
  {
    var briefIds := new Counter();
    var library := SeedLibrary(briefIds);
    seedIds := [library[0].spec.id, library[1].spec.id, library[2].spec.id];
    var copy := library[0].Clone(NoOverrides, briefIds);
    cloneId := copy.spec.id;
  }
}
