# Doctrine behaviours: blame, log and slug subscribers

This project models the three Doctrine event subscribers of the
DoctrineBehaviors library in Dafny and proves what they promise.

- **Sluggable**:
  - On metadata load, a sluggable class gains a nullable string `slug` column.
  - On persist and update, a sluggable entity regenerates its slug.
  - When the entity asks for unique slugs, the subscriber tries `base`, `base-1`, `base-2`, … and keeps the first candidate that passes two checks. The repository must report it unused, and no other scheduled sluggable entity may hold it.
- **Blameable**:
  - On metadata load, a blameable class gains `createdBy`, `updatedBy` and `deletedBy`.
  - These are many-to-one associations when a user class is configured and exists. Otherwise they are nullable strings.
  - On persist, update and remove, the subscriber writes the current user into the matching field. It reports every write to the unit of work with `propertyChanged`.
- **Loggable**: after persist, after update and before remove, the subscriber sends the entity's messages to a logger at INFO level. An empty change-set message is not sent.

Layout:

- `wrappers.dfy`: `Option`, for PHP's nullable values.
- `orm.dfy`: the host ORM state the subscribers touch:
  - entity objects;
  - `ClassMetadata`, with fields and associations updated in place;
  - `UnitOfWork`, with the scheduled lists and the notification log.
- `slug_suffix.dfy`:
  - the candidate slugs;
  - the decimal rendering of the counter and its round trip;
  - the first candidate outside a finite blocked set, and the bound on the search.
- `sluggable.dfy`, `blameable.dfy`, `loggable.dfy`: one module per subscriber. Each has a class whose methods follow the PHP methods step by step. Each method is proved against a value-level specification function, and lemmas state the properties of those functions.

The parts of the ORM that the subscribers only call become parameters:

- the repository's `isSlugUniqueFor` becomes `taken`, the set of slugs the query reports as used;
- the slug the entity computes in `generateSlug()` becomes `generatedSlug`;
- the user provider's answer becomes `user: Option<Actor>`;
- the change set computed by the unit of work becomes `changeSet`;
- whether the configured user class exists (`class_exists`) becomes `userEntityExists`;
- the user class's identifier column becomes `userIdColumn`.

## Model

| member | source | states |
|---|---|---|
| Orm.EnsureKey | src/EventSubscriber/BlameableEventSubscriber.php:200-210 | the "map unless already mapped" step: the name is added, and every existing entry is kept unchanged |
| Orm.EnsureKeyIdempotent | src/EventSubscriber/BlameableEventSubscriber.php:178-182 | the ensure step run twice equals the step run once |
| Orm.ClassMetadata.MapField | src/EventSubscriber/SluggableEventSubscriber.php:40-44 | `mapField` replaces only the named field entry |
| Orm.ClassMetadata.MapManyToOne | src/EventSubscriber/BlameableEventSubscriber.php:186-197 | `mapManyToOne` replaces only the named association entry |
| Orm.UnitOfWork.PropertyChanged | src/EventSubscriber/BlameableEventSubscriber.php:85-86 | a `propertyChanged` call appends exactly one notification to the log |
| Orm.UnitOfWork.Scheduled | src/EventSubscriber/SluggableEventSubscriber.php:116-120 | the scheduled entities are the insertions, then the updates, then the deletions, each list kept whole and in order |
| SlugSuffix.NatToString | src/EventSubscriber/SluggableEventSubscriber.php:91 | the counter renders as a non-empty string of decimal digits, with no leading zero |
| SlugSuffix.ParseNatToString | src/EventSubscriber/SluggableEventSubscriber.php:91 | parsing the rendered counter gives the counter back |
| SlugSuffix.NatToStringInjective | src/EventSubscriber/SluggableEventSubscriber.php:91 | distinct counters render differently |
| SlugSuffix.Candidate | src/EventSubscriber/SluggableEventSubscriber.php:85-91 | candidate 0 is the base slug itself; candidate i > 0 is the base, then `-`, then more |
| SlugSuffix.CandidateInjective | src/EventSubscriber/SluggableEventSubscriber.php:87-92 | each candidate is tried at most once: distinct counters give distinct candidates |
| SlugSuffix.CandidatesBelow | src/EventSubscriber/SluggableEventSubscriber.php:87-92 | the candidates tried before counter n are exactly candidates 0 to n-1 |
| SlugSuffix.CandidatesBelowSize | src/EventSubscriber/SluggableEventSubscriber.php:87-92 | the first n candidates are n different strings |
| SlugSuffix.BlockedPrefixBound | src/EventSubscriber/SluggableEventSubscriber.php:87-92 | if the first n candidates all collide, at least n slugs are in use, so the search ends after at most that many collisions |
| SlugSuffix.FreeSuffixFrom | src/EventSubscriber/SluggableEventSubscriber.php:87-92 | resuming at counter i after i collisions: the result is the least free counter, and it is no larger than the number of blocked slugs |
| SlugSuffix.UniqueSuffix | src/EventSubscriber/SluggableEventSubscriber.php:82-92 | the counter the loop stops at: its candidate is free, every earlier candidate is blocked, and it is at most the number of blocked slugs |
| SlugSuffix.UniqueSlug | src/EventSubscriber/SluggableEventSubscriber.php:82-94 | the accepted slug is not blocked, and it is either the base slug or the base followed by `-` and a counter |
| SlugSuffix.UniqueSlugIsFirstFree | src/EventSubscriber/SluggableEventSubscriber.php:82-94 | the accepted slug is free; every earlier candidate is blocked; no other counter has both properties |
| SlugSuffix.FreeBaseKept | src/EventSubscriber/SluggableEventSubscriber.php:85-94 | a base slug that passes both checks is stored unchanged, with no suffix |
| SlugSuffix.FooResolvesToFoo2 | src/EventSubscriber/SluggableEventSubscriber.php:82-94 | with "foo" and "foo-1" in use, base "foo" resolves to "foo-2" |
| Sluggable.SubscribedEventsListed | src/EventSubscriber/SluggableEventSubscriber.php:17-19 | the listener attributes register metadata load, persist and update, each once |
| Sluggable.MapSlugField | src/EventSubscriber/SluggableEventSubscriber.php:33-45 | the metadata changes exactly when the class is sluggable and has no `slug` field; the added field is a nullable string; nothing else changes |
| Sluggable.MapSlugFieldIdempotent | src/EventSubscriber/SluggableEventSubscriber.php:57-64 | loading the metadata twice equals loading it once |
| Sluggable.SluggableEventSubscriber.ShouldSkip | src/EventSubscriber/SluggableEventSubscriber.php:57-64 | the class is skipped exactly when mapping would not change it |
| Sluggable.SluggableEventSubscriber.LoadClassMetadata | src/EventSubscriber/SluggableEventSubscriber.php:33-45 | the class metadata becomes MapSlugField of its old value |
| Sluggable.SluggableEventSubscriber.Blocked | src/EventSubscriber/SluggableEventSubscriber.php:87-90 | the slugs a candidate must avoid include every slug the repository reports as used and the slug of every other scheduled sluggable entity |
| Sluggable.OthersInMembers | src/EventSubscriber/SluggableEventSubscriber.php:122-127 | the foreach filter keeps exactly the sluggable entities that are not the entity itself, and never lengthens the list |
| Sluggable.OthersInConcat | src/EventSubscriber/SluggableEventSubscriber.php:116-127 | the filter over a concatenation is the filter over each part, in turn |
| Sluggable.OtherScheduled | src/EventSubscriber/SluggableEventSubscriber.php:122-127 | keeps exactly the sluggable entities of the list that are not the entity itself (by identity) |
| Sluggable.OtherScheduledConcat | src/EventSubscriber/SluggableEventSubscriber.php:116-127 | filtering a concatenation filters each part in turn |
| Sluggable.ScanOrder | src/EventSubscriber/SluggableEventSubscriber.php:116-120 | the scan covers insertions, then updates, then deletions, so entities pending deletion count as collisions |
| Sluggable.SluggableEventSubscriber.GetOtherScheduledEntities | src/EventSubscriber/SluggableEventSubscriber.php:112-130 | the loop returns exactly OtherScheduled of the three scheduled lists joined in order |
| Sluggable.SlugValues | src/EventSubscriber/SluggableEventSubscriber.php:100-101 | the i-th value is the slug the i-th entity holds |
| Sluggable.Present | src/EventSubscriber/SluggableEventSubscriber.php:100-103 | a slug is present exactly when some entry holds it |
| Sluggable.SluggableEventSubscriber.GetSlugs | src/EventSubscriber/SluggableEventSubscriber.php:100-101 | the loop reads `getSlug()` of each entity in order |
| Sluggable.SluggableEventSubscriber.IsSlugUniqueInUnitOfWork | src/EventSubscriber/SluggableEventSubscriber.php:97-107 | the scan with early return answers true exactly when no other scheduled entity holds the candidate |
| Sluggable.SluggableEventSubscriber.PassesUniquenessChecks | src/EventSubscriber/SluggableEventSubscriber.php:87-90 | the loop condition holds exactly when the candidate is neither taken in the repository nor held in the unit of work |
| Sluggable.SluggableEventSubscriber.SearchUniqueSlug | src/EventSubscriber/SluggableEventSubscriber.php:82-92 | the while loop ends with the first free candidate, UniqueSlug |
| Sluggable.SluggableEventSubscriber.GenerateUniqueSlugFor | src/EventSubscriber/SluggableEventSubscriber.php:80-95 | the stored slug is the first candidate outside the repository's taken set and the other scheduled entities' slugs |
| Sluggable.RegeneratedSlug | src/EventSubscriber/SluggableEventSubscriber.php:66-78 | non-sluggable: slug unchanged; sluggable: always set; no unique slugs: generated slug kept even on collision; unique slugs: result not blocked; a free generated slug is kept as is |
| Sluggable.SluggableEventSubscriber.ProcessLifecycleEventArgs | src/EventSubscriber/SluggableEventSubscriber.php:66-78 | the entity's slug becomes RegeneratedSlug; nothing else changes |
| Sluggable.SluggableEventSubscriber.PrePersist | src/EventSubscriber/SluggableEventSubscriber.php:47-50 | the same as ProcessLifecycleEventArgs |
| Sluggable.SluggableEventSubscriber.PreUpdate | src/EventSubscriber/SluggableEventSubscriber.php:52-55 | the same as ProcessLifecycleEventArgs |
| Sluggable.AcceptedSlugAvoidsScheduled | src/EventSubscriber/SluggableEventSubscriber.php:97-107 | the accepted slug is not taken and differs from the slug of every other scheduled sluggable entity |
| Sluggable.SameBatchGetsDistinctSlugs | src/EventSubscriber/SluggableEventSubscriber.php:80-130 | two entities in one batch, with the same generated slug and the same repository answer, get different slugs |
| Blameable.ChosenUserMapping | src/EventSubscriber/BlameableEventSubscriber.php:152-156 | associations exactly when a user class is configured and exists; otherwise string fields |
| Blameable.UserAssociation | src/EventSubscriber/BlameableEventSubscriber.php:186-197 | the association targets the configured user class, joins on its identifier column, and sets `onDelete` to `SET NULL` |
| Blameable.SubscribedEventsListed | src/EventSubscriber/BlameableEventSubscriber.php:20-23 | the listener attributes register persist, update, remove and metadata load, each once |
| Blameable.StringFieldEnsured | src/EventSubscriber/BlameableEventSubscriber.php:200-211 | only `hasField` is consulted: a missing field is added as a nullable string; existing fields and all associations are kept |
| Blameable.UserAssociationEnsured | src/EventSubscriber/BlameableEventSubscriber.php:178-198 | only `hasAssociation` is consulted: a missing association to the user class is added with `onDelete` `SET NULL`; fields are untouched |
| Blameable.MapUserFields | src/EventSubscriber/BlameableEventSubscriber.php:164-176 | the string path adds exactly the three names to the fields and leaves associations alone; the association path does the reverse |
| Blameable.BlameMetadata | src/EventSubscriber/BlameableEventSubscriber.php:51-64 | an unbuilt or non-blameable class is unchanged; otherwise the mapped names grow by exactly `createdBy`, `updatedBy` and `deletedBy` |
| Blameable.BlameMetadataShape | src/EventSubscriber/BlameableEventSubscriber.php:51-64 | unbuilt or non-blameable classes are unchanged; otherwise exactly the three names are ensured on one map, without replacing entries, and the other map is left alone |
| Blameable.BlameMetadataIdempotent | src/EventSubscriber/BlameableEventSubscriber.php:178-182 | loading the metadata twice equals loading it once |
| Blameable.BlameableEventSubscriber.LoadClassMetadata | src/EventSubscriber/BlameableEventSubscriber.php:51-64 | the metadata becomes BlameMetadata of its old value |
| Blameable.BlameableEventSubscriber.MapEntity | src/EventSubscriber/BlameableEventSubscriber.php:150-157 | the metadata becomes MapUserFields of the chosen mapping |
| Blameable.BlameableEventSubscriber.MapManyToOneUser | src/EventSubscriber/BlameableEventSubscriber.php:164-169 | the three associations are ensured in order |
| Blameable.BlameableEventSubscriber.MapStringUser | src/EventSubscriber/BlameableEventSubscriber.php:171-176 | the three string fields are ensured in order |
| Blameable.BlameableEventSubscriber.MapManyToOneWithTargetEntity | src/EventSubscriber/BlameableEventSubscriber.php:178-198 | the metadata becomes UserAssociationEnsured of its old value |
| Blameable.BlameableEventSubscriber.MapStringNullableField | src/EventSubscriber/BlameableEventSubscriber.php:200-211 | the metadata becomes StringFieldEnsured of its old value |
| Blameable.IsFalsy | src/EventSubscriber/BlameableEventSubscriber.php:82-89 | PHP `!` on a stored user: a user object is never falsy; a falsy value is null or a name of at most one character (`""` or `"0"`) |
| Blameable.PrePersistOutcome | src/EventSubscriber/BlameableEventSubscriber.php:69-95 | no user or not blameable: nothing happens; otherwise a falsy `createdBy` and a falsy `updatedBy` become the user, truthy ones are kept, and `deletedBy` is never touched; a `(createdBy, null, user)` notification is sent exactly when `createdBy` was falsy and a `(updatedBy, null, user)` one exactly when `updatedBy` was, `createdBy`'s first and no others; replaying them gives the new state |
| Blameable.PreUpdateOutcome | src/EventSubscriber/BlameableEventSubscriber.php:100-117 | no user or not blameable: nothing happens; otherwise one notification `(updatedBy, previous value, user)`; `createdBy` and `deletedBy` are untouched; replaying gives the new state |
| Blameable.PreRemoveOutcome | src/EventSubscriber/BlameableEventSubscriber.php:122-139 | no user or not blameable: nothing happens; otherwise one notification `(deletedBy, previous value, user)`; the other fields are untouched; replaying gives the new state |
| Blameable.PreUpdateUndo | src/EventSubscriber/BlameableEventSubscriber.php:112-116 | the reported old value is the true one: undoing the notifications restores the entity |
| Blameable.PreRemoveUndo | src/EventSubscriber/BlameableEventSubscriber.php:134-138 | the reported old value is the true one: undoing the notification restores the entity |
| Blameable.PrePersistUndo | src/EventSubscriber/BlameableEventSubscriber.php:82-94 | undoing prePersist's notifications restores the entity exactly when no overwritten field held `""` or `"0"` (the old value is always reported as null) |
| Blameable.PrePersistFresh | src/EventSubscriber/BlameableEventSubscriber.php:82-94 | on a fresh entity: `createdBy == updatedBy == user`, with the notifications for `createdBy` and then `updatedBy` |
| Blameable.PrePersistFillsOnlyUnset | src/EventSubscriber/BlameableEventSubscriber.php:82-94 | with `updatedBy` already held by a user object, only `createdBy` is written and only its notification is sent |
| Blameable.PrePersistIdempotent | src/EventSubscriber/BlameableEventSubscriber.php:82-94 | a second prePersist with a truthy user does nothing; with a falsy user name it repeats the first one exactly |
| Blameable.Notices | src/EventSubscriber/BlameableEventSubscriber.php:85-93 | one `propertyChanged` notification per change, in order, for this entity |
| Blameable.BlameableEventSubscriber.PrePersist | src/EventSubscriber/BlameableEventSubscriber.php:69-95 | the entity's blame fields become PrePersistOutcome, and the unit of work receives its notifications appended in order |
| Blameable.BlameableEventSubscriber.PreUpdate | src/EventSubscriber/BlameableEventSubscriber.php:100-117 | the entity's blame fields become PreUpdateOutcome, and the unit of work receives its notification |
| Blameable.BlameableEventSubscriber.PreRemove | src/EventSubscriber/BlameableEventSubscriber.php:122-139 | the entity's blame fields become PreRemoveOutcome, and the unit of work receives its notification |
| Loggable.Logger.Log | src/EventSubscriber/LoggableEventSubscriber.php:35 | a `log` call appends exactly one line |
| Loggable.SubscribedEventsListed | src/EventSubscriber/LoggableEventSubscriber.php:17-19 | the listener attributes register post-persist, post-update and pre-remove, each once |
| Loggable.Messages | src/EventSubscriber/LoggableEventSubscriber.php:34-37 | the messages of the lines, in order |
| Loggable.ChangeSetLines | src/EventSubscriber/LoggableEventSubscriber.php:84-90 | at most one INFO line; none exactly when the message is the empty string |
| Loggable.PostPersistLines | src/EventSubscriber/LoggableEventSubscriber.php:27-38 | nothing for a non-loggable entity; otherwise the create message first, then the change-set lines; every line is INFO |
| Loggable.PostUpdateLines | src/EventSubscriber/LoggableEventSubscriber.php:40-48 | at most one line, the change-set message, and nothing for a non-loggable entity |
| Loggable.PreRemoveLines | src/EventSubscriber/LoggableEventSubscriber.php:50-57 | exactly one INFO line, the remove message, for a loggable entity; nothing otherwise |
| Loggable.PostPersistMessages | src/EventSubscriber/LoggableEventSubscriber.php:34-37 | the persist messages are the create message, then the change-set message unless it is empty |
| Loggable.PersistIsCreatePlusUpdate | src/EventSubscriber/LoggableEventSubscriber.php:34-47 | persist logs the create line, then exactly what update would log for the same change set |
| Loggable.LoggableEventSubscriber.PostPersist | src/EventSubscriber/LoggableEventSubscriber.php:27-38 | the logger gains PostPersistLines; only the logger changes |
| Loggable.LoggableEventSubscriber.PostUpdate | src/EventSubscriber/LoggableEventSubscriber.php:40-48 | the logger gains PostUpdateLines; only the logger changes |
| Loggable.LoggableEventSubscriber.PreRemove | src/EventSubscriber/LoggableEventSubscriber.php:50-57 | the logger gains PreRemoveLines; only the logger changes |
| Loggable.LoggableEventSubscriber.LogChangeSet | src/EventSubscriber/LoggableEventSubscriber.php:71-91 | the logger gains ChangeSetLines of the entity's rendering of the change set |

Where the written description of the library and the code differ, the model follows the code:

- Blameable:
  - "unset" means PHP-falsy: null, `""` or `"0"`.
  - The association path checks only existing associations, and the string path checks only existing fields.
  - Metadata load also skips a class that is not yet fully built.
- Loggable: the empty change-set message is suppressed after persist as well as after update, because both go through `logChangeSet`.

## Left out

- `getSubscribedEvents`, which reads the listener attributes by reflection, and `SubscribedEventsWithAttributeTrait`. The static event lists are kept as `SubscribedEvents` constants, described by the `SubscribedEventsListed` lemmas.
- The repository's `isSlugUniqueFor` is a database query. It is replaced by the finite set `taken` of slugs it reports as used by other rows.
- `generateSlug()` and the slug content come from entity traits that are not part of this model. The generated slug is an input.
- Sluggable.SluggableEventSubscriber.GenerateUniqueSlugFor: the PHP code re-reads the scheduled lists and the other entities' slugs for every candidate. The model reads them once, before the search (GetOtherScheduledEntities and GetSlugs), and scans that snapshot for every candidate. Nothing changes them during the search, so the answers are the same.
- Sluggable.SluggableEventSubscriber.IsSlugUniqueInUnitOfWork: takes the snapshot of slugs instead of fetching the entities itself, for the same reason.
- The user provider, the logger and `computeChangeSet`/`getEntityChangeSet` are external. They become the `user` and `changeSet` parameters and the `Logger` class, which only records lines.
- The lookup of the user class's metadata and identifier column is replaced by the `userIdColumn` constant. `class_exists` is replaced by the `userEntityExists` flag.
- Doctrine's own checks inside `mapField` and `mapManyToOne` are not modelled. The string paths check only existing fields, and the association path checks only existing associations. So a name already mapped in the other map (for example a plain `createdBy` field when the association path is chosen) reaches Doctrine's duplicate-mapping check, which would reject it. The model adds the second mapping instead.
- Actor values are reduced to user objects (always truthy) and user names (falsy when `""` or `"0"`). Other PHP scalar values a provider could return are not modelled.
- Exceptions raised by collaborators are not modelled.
