/**
 * The slug subscriber: maps a nullable `slug` column on sluggable classes,
 * and on persist and update regenerates an entity's slug, making it unique
 * against the repository and the rest of the unit of work when the entity
 * asks for unique slugs.
 */
module Sluggable {
  import opened Wrappers
  import opened Orm
  import opened SlugSuffix

  /** The mapped field that holds the slug. */
  const SlugField := "slug"

  /** The events the subscriber is registered for. */
  const SubscribedEvents: seq<LifecycleEvent> :=
    [LoadClassMetadataEvent, PrePersistEvent, PreUpdateEvent]

  /** The subscriber listens to metadata load, persist and update, each once, and to nothing else. */
  lemma SubscribedEventsListed()
    ensures |SubscribedEvents| == 3
    ensures forall e :: e in SubscribedEvents
              <==> e == LoadClassMetadataEvent || e == PrePersistEvent || e == PreUpdateEvent
  {
  }

  /**
   * Metadata after load: a sluggable class gains a nullable string `slug`
   * column unless it maps one already; nothing else changes.
   */
  function MapSlugField(capabilities: set<Capability>, m: Mapping): (r: Mapping)
    ensures r.associations == m.associations
    ensures r.fields.Keys
            == if Sluggable in capabilities then m.fields.Keys + {SlugField} else m.fields.Keys
    ensures forall f :: f in m.fields ==> r.fields[f] == m.fields[f]
    ensures r != m <==> Sluggable in capabilities && SlugField !in m.fields
    ensures r != m ==> r.fields[SlugField] == NullableString
  {
    if Sluggable !in capabilities then m
    else m.(fields := EnsureKey(m.fields, SlugField, NullableString))
  }

  /** Loading the metadata a second time changes nothing more. */
  lemma MapSlugFieldIdempotent(capabilities: set<Capability>, m: Mapping)
    ensures MapSlugField(capabilities, MapSlugField(capabilities, m))
            == MapSlugField(capabilities, m)
  {
  }

  /** The filter of getOtherScheduledEntities, as a plain recursion over the list. */
  function OthersIn(sluggable: Entity, scheduled: seq<Entity>): seq<Entity> {
    if scheduled == [] then []
    else
      var last := scheduled[|scheduled| - 1];
      OthersIn(sluggable, scheduled[..|scheduled| - 1])
        + (if Sluggable in last.capabilities && last != sluggable then [last] else [])
  }

  lemma {:induction false} OthersInMembers(sluggable: Entity, scheduled: seq<Entity>)
    ensures |OthersIn(sluggable, scheduled)| <= |scheduled|
    ensures forall e :: e in OthersIn(sluggable, scheduled)
              ==> e in scheduled && Sluggable in e.capabilities && e != sluggable
    ensures forall e :: e in scheduled && Sluggable in e.capabilities && e != sluggable
              ==> e in OthersIn(sluggable, scheduled)
  {
    if scheduled != [] {
      var init := scheduled[..|scheduled| - 1];
      assert scheduled == init + [scheduled[|scheduled| - 1]];
      OthersInMembers(sluggable, init);
    }
  }

  lemma {:induction false} OthersInConcat(sluggable: Entity, a: seq<Entity>, b: seq<Entity>)
    ensures OthersIn(sluggable, a + b) == OthersIn(sluggable, a) + OthersIn(sluggable, b)
    decreases |b|
  {
    if b == [] {
      assert a + b == a;
    } else {
      assert (a + b)[..|a + b| - 1] == a + b[..|b| - 1];
      OthersInConcat(sluggable, a, b[..|b| - 1]);
    }
  }

  /**
   * The scheduled entities a candidate slug is compared with: the sluggable
   * ones other than `sluggable` itself (by identity), in their order.
   */
  function OtherScheduled(sluggable: Entity, scheduled: seq<Entity>): (r: seq<Entity>)
    ensures |r| <= |scheduled|
    ensures forall e :: e in r ==> e in scheduled && Sluggable in e.capabilities && e != sluggable
    ensures forall e :: e in scheduled && Sluggable in e.capabilities && e != sluggable ==> e in r
  {
    OthersInMembers(sluggable, scheduled);
    OthersIn(sluggable, scheduled)
  }

  /** Scanning a concatenation scans each part in turn. */
  lemma OtherScheduledConcat(sluggable: Entity, a: seq<Entity>, b: seq<Entity>)
    ensures OtherScheduled(sluggable, a + b) == OtherScheduled(sluggable, a) + OtherScheduled(sluggable, b)
  {
    OthersInConcat(sluggable, a, b);
  }

  /** The slugs the given entities hold, in their order (`getSlug()` of each). */
  function SlugValues(entities: seq<Entity>): (r: seq<Option<string>>)
    reads set e | e in entities
    ensures |r| == |entities|
    ensures forall j :: 0 <= j < |entities| ==> r[j] == entities[j].slug
  {
    if entities == [] then []
    else SlugValues(entities[..|entities| - 1]) + [entities[|entities| - 1].slug]
  }

  /** The slugs present in a list of nullable slugs. */
  function Present(slugs: seq<Option<string>>): (r: set<string>)
    ensures forall s :: s in r <==> Some(s) in slugs
  {
    set o | o in slugs && o.Some? :: o.value
  }

  /**
   * The slug an entity holds after prePersist/preUpdate: unchanged when it
   * is not sluggable, otherwise the slug it generated — made unique against
   * `blocked` only when it asks for unique slugs.
   */
  function RegeneratedSlug(sluggable: bool, uniqueSlugs: bool, before: Option<string>,
                           generated: string, blocked: set<string>): (r: Option<string>)
    ensures !sluggable ==> r == before
    ensures sluggable ==> r.Some?
    ensures sluggable && !uniqueSlugs ==> r == Some(generated)
    ensures sluggable && uniqueSlugs ==> r.value !in blocked
    ensures sluggable && generated !in blocked ==> r == Some(generated)
  {
    if !sluggable then before
    else if !uniqueSlugs then Some(generated)
    else
      FreeBaseKept(generated, blocked);
      UniqueSlugIsFirstFree(generated, blocked, 0);
      Some(UniqueSlug(generated, blocked))
  }

  class SluggableEventSubscriber {
    const unitOfWork: UnitOfWork

    constructor (unitOfWork: UnitOfWork)
      ensures this.unitOfWork == unitOfWork
    {
      this.unitOfWork := unitOfWork;
    }

    /**
     * The slugs a candidate for `sluggable` must avoid: those the repository
     * reports as used (`taken`) and those of the other scheduled sluggable
     * entities.
     */
    function Blocked(sluggable: Entity, taken: set<string>): (r: set<string>)
      reads unitOfWork, set e | e in unitOfWork.Scheduled() && e != sluggable
      ensures taken <= r
      ensures forall e :: e in OtherScheduled(sluggable, unitOfWork.Scheduled()) && e.slug.Some?
                ==> e.slug.value in r
    {
      taken + Present(SlugValues(OtherScheduled(sluggable, unitOfWork.Scheduled())))
    }

    /** Whether loadClassMetadata leaves the class alone. */
    predicate ShouldSkip(classMetadata: ClassMetadata)
      reads classMetadata
      ensures ShouldSkip(classMetadata)
              <==> MapSlugField(classMetadata.capabilities, classMetadata.Current())
                   == classMetadata.Current()
    {
      Sluggable !in classMetadata.capabilities || SlugField in classMetadata.fields
    }

    method LoadClassMetadata(classMetadata: ClassMetadata)
      modifies classMetadata`fields
      ensures classMetadata.Current()
              == MapSlugField(classMetadata.capabilities, old(classMetadata.Current()))
    {
      if ShouldSkip(classMetadata) {
        return;
      }
      classMetadata.MapField(SlugField, NullableString);
    }

    /** `generatedSlug` is the slug the entity holds after its own generateSlug(). */
    method PrePersist(entity: Entity, generatedSlug: string, taken: set<string>)
      modifies entity`slug
      ensures entity.slug
              == RegeneratedSlug(Sluggable in entity.capabilities, entity.uniqueSlugs,
                                 old(entity.slug), generatedSlug, Blocked(entity, taken))
    {
      ProcessLifecycleEventArgs(entity, generatedSlug, taken);
    }

    method PreUpdate(entity: Entity, generatedSlug: string, taken: set<string>)
      modifies entity`slug
      ensures entity.slug
              == RegeneratedSlug(Sluggable in entity.capabilities, entity.uniqueSlugs,
                                 old(entity.slug), generatedSlug, Blocked(entity, taken))
    {
      ProcessLifecycleEventArgs(entity, generatedSlug, taken);
    }

    method ProcessLifecycleEventArgs(entity: Entity, generatedSlug: string, taken: set<string>)
      modifies entity`slug
      ensures entity.slug
              == RegeneratedSlug(Sluggable in entity.capabilities, entity.uniqueSlugs,
                                 old(entity.slug), generatedSlug, Blocked(entity, taken))
    {
      if Sluggable !in entity.capabilities {
        return;
      }
      entity.slug := Some(generatedSlug);
      if entity.uniqueSlugs {
        GenerateUniqueSlugFor(entity, taken);
      }
    }

    /**
     * Stores the first of `slug`, `slug-1`, `slug-2`, … that passes both the
     * repository check and the unit-of-work check.
     */
    method GenerateUniqueSlugFor(sluggable: Entity, taken: set<string>)
      requires sluggable.slug.Some?
      modifies sluggable`slug
      ensures sluggable.slug == Some(UniqueSlug(old(sluggable.slug).value, Blocked(sluggable, taken)))
    {
      var slug := sluggable.slug.value;
      var scheduledEntities := GetOtherScheduledEntities(sluggable);
      var scheduledSlugs := GetSlugs(scheduledEntities);
      var uniqueSlug := SearchUniqueSlug(slug, taken, scheduledSlugs);
      assert Blocked(sluggable, taken) == taken + Present(scheduledSlugs);
      sluggable.slug := Some(uniqueSlug);
    }

    /**
     * The loop of generateUniqueSlugFor: tries `slug`, `slug-1`, `slug-2`, …
     * in turn, each counter once and in increasing order, until a candidate
     * passes both checks.
     */
    method SearchUniqueSlug(slug: string, taken: set<string>, scheduledSlugs: seq<Option<string>>)
      returns (uniqueSlug: string)
      ensures uniqueSlug == UniqueSlug(slug, taken + Present(scheduledSlugs))
    {
      ghost var blocked := taken + Present(scheduledSlugs);
      var i: nat := 0;
      uniqueSlug := slug;
      var unique := PassesUniquenessChecks(taken, scheduledSlugs, uniqueSlug);
      while !unique
        invariant uniqueSlug == Candidate(slug, i)
        invariant unique <==> uniqueSlug !in blocked
        invariant forall j :: 0 <= j < i ==> Candidate(slug, j) in blocked
        invariant i <= |blocked|
        decreases |blocked| - i
      {
        BlockedPrefixBound(slug, blocked, i + 1);
        i := i + 1;
        uniqueSlug := slug + Separator + NatToString(i);
        unique := PassesUniquenessChecks(taken, scheduledSlugs, uniqueSlug);
      }
      UniqueSlugIsFirstFree(slug, blocked, i);
    }

    /**
     * The loop condition of generateUniqueSlugFor: the repository reports the
     * candidate as unused and, only then, the unit of work is scanned.
     */
    method PassesUniquenessChecks(taken: set<string>, scheduledSlugs: seq<Option<string>>,
                                  uniqueSlug: string)
      returns (unique: bool)
      ensures unique <==> uniqueSlug !in taken && Some(uniqueSlug) !in scheduledSlugs
    {
      unique := uniqueSlug !in taken;
      if unique {
        unique := IsSlugUniqueInUnitOfWork(scheduledSlugs, uniqueSlug);
      }
    }

    /** No other scheduled sluggable entity holds `uniqueSlug`. */
    method IsSlugUniqueInUnitOfWork(scheduledSlugs: seq<Option<string>>, uniqueSlug: string)
      returns (unique: bool)
      ensures unique <==> Some(uniqueSlug) !in scheduledSlugs
    {
      for k := 0 to |scheduledSlugs|
        invariant forall j :: 0 <= j < k ==> scheduledSlugs[j] != Some(uniqueSlug)
      {
        if scheduledSlugs[k] == Some(uniqueSlug) {
          return false;
        }
      }
      return true;
    }

    /** `getSlug()` of each entity, in order. */
    method GetSlugs(entities: seq<Entity>) returns (slugs: seq<Option<string>>)
      ensures slugs == SlugValues(entities)
    {
      slugs := [];
      for k := 0 to |entities|
        invariant |slugs| == k
        invariant forall j :: 0 <= j < k ==> slugs[j] == entities[j].slug
      {
        slugs := slugs + [entities[k].slug];
      }
    }

    method GetOtherScheduledEntities(sluggable: Entity) returns (scheduledEntities: seq<Entity>)
      ensures scheduledEntities == OtherScheduled(sluggable, unitOfWork.Scheduled())
    {
      var uowScheduledEntities := unitOfWork.insertions + unitOfWork.updates + unitOfWork.deletions;
      scheduledEntities := [];
      for k := 0 to |uowScheduledEntities|
        invariant scheduledEntities == OtherScheduled(sluggable, uowScheduledEntities[..k])
      {
        var uowScheduledEntity := uowScheduledEntities[k];
        assert uowScheduledEntities[..k + 1][..k] == uowScheduledEntities[..k];
        if Sluggable in uowScheduledEntity.capabilities && sluggable != uowScheduledEntity {
          scheduledEntities := scheduledEntities + [uowScheduledEntity];
        }
      }
      assert uowScheduledEntities[..|uowScheduledEntities|] == uowScheduledEntities;
    }
  }

  /**
   * The scan covers insertions, then updates, then deletions: an entity
   * pending deletion still blocks its slug.
   */
  lemma ScanOrder(subscriber: SluggableEventSubscriber, sluggable: Entity)
    ensures var uow := subscriber.unitOfWork;
            OtherScheduled(sluggable, uow.Scheduled())
            == OtherScheduled(sluggable, uow.insertions) + OtherScheduled(sluggable, uow.updates)
               + OtherScheduled(sluggable, uow.deletions)
  {
    var uow := subscriber.unitOfWork;
    OtherScheduledConcat(sluggable, uow.insertions, uow.updates);
    OtherScheduledConcat(sluggable, uow.insertions + uow.updates, uow.deletions);
  }

  /**
   * The slug stored for a sluggable entity that asks for unique slugs is not
   * taken in the repository and differs from the slug of every other
   * sluggable entity scheduled for insertion, update or deletion.
   */
  lemma AcceptedSlugAvoidsScheduled(subscriber: SluggableEventSubscriber, sluggable: Entity,
                                    generated: string, taken: set<string>, other: Entity)
    requires other in subscriber.unitOfWork.Scheduled()
    requires Sluggable in other.capabilities && other != sluggable && other.slug.Some?
    ensures var accepted := UniqueSlug(generated, subscriber.Blocked(sluggable, taken));
            accepted !in taken && other.slug.value != accepted
  {
  }

  /**
   * Two sluggable entities in the same batch with the same generated slug
   * and the same repository answer end up with different slugs.
   */
  method SameBatchGetsDistinctSlugs(subscriber: SluggableEventSubscriber, a: Entity, b: Entity,
                                    generated: string, taken: set<string>)
    requires a != b
    requires Sluggable in a.capabilities && a.uniqueSlugs
    requires Sluggable in b.capabilities && b.uniqueSlugs
    requires a in subscriber.unitOfWork.insertions
    modifies a`slug, b`slug
    ensures a.slug.Some? && b.slug.Some? && a.slug != b.slug
  {
    subscriber.PrePersist(a, generated, taken);
    subscriber.PrePersist(b, generated, taken);
    AcceptedSlugAvoidsScheduled(subscriber, b, generated, taken, a);
  }
}
