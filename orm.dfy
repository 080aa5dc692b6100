/**
 * The host ORM as the three subscribers see it: entity objects, the class
 * metadata they extend at load time, and the unit of work whose scheduled
 * entities they scan and whose change tracking they notify.
 *
 * Only the state the subscribers read or write is kept; how the ORM fills
 * it in (identity map, change-set computation, schema) is not modelled.
 */
module Orm {
  import opened Wrappers

  /** The marker interfaces an entity class can implement to opt into a behaviour. */
  datatype Capability = Blameable | Loggable | Sluggable

  /** The lifecycle events a subscriber can be registered for. */
  datatype LifecycleEvent =
    | LoadClassMetadataEvent
    | PrePersistEvent
    | PreUpdateEvent
    | PreRemoveEvent
    | PostPersistEvent
    | PostUpdateEvent

  /**
   * What a user provider may hand back as the current user: a user entity
   * or a plain name. Which of them PHP treats as falsy matters to prePersist.
   */
  datatype Actor = UserObject(id: nat) | UserName(name: string)

  /** One field of a change set: the value before and after, in textual form. */
  datatype FieldChange = FieldChange(before: Option<string>, after: Option<string>)

  /** The unit of work's change set of one entity: field name to old/new value. */
  type ChangeSet = map<string, FieldChange>

  /** A column mapping (`mapField`): the column type and whether it is nullable. */
  datatype FieldMapping = FieldMapping(columnType: string, nullable: bool)

  /** The only column mapping the subscribers add: `type: string, nullable: true`. */
  const NullableString := FieldMapping("string", true)

  /** A many-to-one association mapping (`mapManyToOne`) with a single join column. */
  datatype AssociationMapping =
    ManyToOne(targetEntity: string, referencedColumnName: string, onDelete: string)

  /** The mapped fields and associations of one entity class, as a value. */
  datatype Mapping = Mapping(
    fields: map<string, FieldMapping>,
    associations: map<string, AssociationMapping>)

  /** A field change as recorded by `propertyChanged`: field name, old value, new value. */
  datatype Change = Change(field: string, oldValue: Option<Actor>, newValue: Actor)

  /** A `propertyChanged(entity, field, old, new)` notification received by the unit of work. */
  datatype PropertyChange = PropertyChange(entity: Entity, change: Change)

  /**
   * "Ensure mapped": add `key` with `v` unless `key` is mapped already.
   * Existing entries are never replaced.
   */
  function EnsureKey<V>(m: map<string, V>, key: string, v: V): (r: map<string, V>)
    ensures r.Keys == m.Keys + {key}
    ensures forall k :: k in m ==> r[k] == m[k]
    ensures key !in m ==> r[key] == v
  {
    if key in m then m else m[key := v]
  }

  /** Running the ensure step twice leaves what running it once left. */
  lemma EnsureKeyIdempotent<V>(m: map<string, V>, key: string, v: V)
    ensures EnsureKey(EnsureKey(m, key, v), key, v) == EnsureKey(m, key, v)
  {
  }

  /**
   * An entity instance. The capabilities are those of its class; the other
   * fields are the state the three behaviours read or write.
   */
  class Entity {
    const capabilities: set<Capability>

    /** Sluggable: the stored slug and `shouldGenerateUniqueSlugs()`. */
    var slug: Option<string>
    const uniqueSlugs: bool

    /** Blameable: who created, last updated and deleted the entity. */
    var createdBy: Option<Actor>
    var updatedBy: Option<Actor>
    var deletedBy: Option<Actor>

    /** Loggable: the entity's own log message renderings. */
    const createLogMessage: string
    const removeLogMessage: string
    const updateLogMessage: ChangeSet -> string

    constructor (capabilities: set<Capability>, uniqueSlugs: bool,
                 createLogMessage: string, removeLogMessage: string,
                 updateLogMessage: ChangeSet -> string)
      ensures this.capabilities == capabilities && this.uniqueSlugs == uniqueSlugs
      ensures this.createLogMessage == createLogMessage
      ensures this.removeLogMessage == removeLogMessage
      ensures this.updateLogMessage == updateLogMessage
      ensures slug == None && createdBy == None && updatedBy == None && deletedBy == None
    {
      this.capabilities := capabilities;
      this.uniqueSlugs := uniqueSlugs;
      this.createLogMessage := createLogMessage;
      this.removeLogMessage := removeLogMessage;
      this.updateLogMessage := updateLogMessage;
      slug := None;
      createdBy, updatedBy, deletedBy := None, None, None;
    }
  }

  /** The metadata of one entity class, extended in place at load time. */
  class ClassMetadata {
    /** The capability interfaces the class name implements (`is_a`). */
    const capabilities: set<Capability>
    /** False while `reflClass` is still null, i.e. the class is not fully built. */
    const reflClassBuilt: bool

    var fields: map<string, FieldMapping>
    var associations: map<string, AssociationMapping>

    constructor (capabilities: set<Capability>, reflClassBuilt: bool, mapping: Mapping)
      ensures this.capabilities == capabilities && this.reflClassBuilt == reflClassBuilt
      ensures Current() == mapping
    {
      this.capabilities := capabilities;
      this.reflClassBuilt := reflClassBuilt;
      fields := mapping.fields;
      associations := mapping.associations;
    }

    function Current(): Mapping
      reads this
    {
      Mapping(fields, associations)
    }

    /** `mapField`: maps a column for `name`. */
    method MapField(name: string, mapping: FieldMapping)
      modifies this`fields
      ensures fields == old(fields)[name := mapping]
    {
      fields := fields[name := mapping];
    }

    /** `mapManyToOne`: maps a many-to-one association for `name`. */
    method MapManyToOne(name: string, mapping: AssociationMapping)
      modifies this`associations
      ensures associations == old(associations)[name := mapping]
    {
      associations := associations[name := mapping];
    }
  }

  /**
   * The unit of work: the entities scheduled for insertion, update and
   * deletion, and the property-change notifications it has received.
   */
  class UnitOfWork {
    var insertions: seq<Entity>
    var updates: seq<Entity>
    var deletions: seq<Entity>
    var notifications: seq<PropertyChange>

    constructor (insertions: seq<Entity>, updates: seq<Entity>, deletions: seq<Entity>)
      ensures this.insertions == insertions && this.updates == updates
      ensures this.deletions == deletions && notifications == []
    {
      this.insertions := insertions;
      this.updates := updates;
      this.deletions := deletions;
      notifications := [];
    }

    /** Insertions, then updates, then deletions, as the three getters list them. */
    function Scheduled(): (r: seq<Entity>)
      reads this
      ensures |r| == |insertions| + |updates| + |deletions|
      ensures r[..|insertions|] == insertions
      ensures r[|insertions|..|insertions| + |updates|] == updates
      ensures r[|insertions| + |updates|..] == deletions
    {
      insertions + updates + deletions
    }

    /** `propertyChanged(entity, field, old, new)`: record one change of `entity`. */
    method PropertyChanged(entity: Entity, change: Change)
      modifies this`notifications
      ensures notifications == old(notifications) + [PropertyChange(entity, change)]
    {
      notifications := notifications + [PropertyChange(entity, change)];
    }
  }
}
