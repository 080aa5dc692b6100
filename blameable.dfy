/**
 * The blame subscriber: maps `createdBy`, `updatedBy` and `deletedBy` on
 * blameable classes (as many-to-one associations to a configured user
 * class, or as nullable strings), and on persist, update and remove stores
 * the current user in those fields, telling the unit of work about each
 * write.
 */
module Blameable {
  import opened Wrappers
  import opened Orm

  /** The three mapped fields. */
  const CreatedBy := "createdBy"
  const UpdatedBy := "updatedBy"
  const DeletedBy := "deletedBy"

  /** The events the subscriber is registered for. */
  const SubscribedEvents: seq<LifecycleEvent> :=
    [PrePersistEvent, PreUpdateEvent, PreRemoveEvent, LoadClassMetadataEvent]

  /** The subscriber listens to persist, update, remove and metadata load, each once, and to nothing else. */
  lemma SubscribedEventsListed()
    ensures |SubscribedEvents| == 4
    ensures forall e :: e in SubscribedEvents
              <==> e == PrePersistEvent || e == PreUpdateEvent || e == PreRemoveEvent
                   || e == LoadClassMetadataEvent
  {
  }

  /**
   * PHP's `!` on a stored user: null, the empty string and "0" are falsy;
   * a user object and any other name are truthy.
   */
  predicate IsFalsy(v: Option<Actor>)
    ensures v.Some? && v.value.UserObject? ==> !IsFalsy(v)
    ensures IsFalsy(v) ==> v.None? || |v.value.name| <= 1
  {
    v.None? || v == Some(UserName("")) || v == Some(UserName("0"))
  }

  // ---------------------------------------------------------------------
  // Metadata
  // ---------------------------------------------------------------------

  /** How the three fields are stored: a nullable string, or a reference to the user class. */
  datatype UserMapping =
    | StringUser
    | ManyToOneUser(targetEntity: string, referencedColumnName: string)

  /**
   * mapEntity's choice: associations exactly when a user class is configured
   * and that class exists; nullable strings otherwise.
   */
  function ChosenUserMapping(blameableUserEntity: Option<string>, userEntityExists: bool,
                             userIdColumn: string): (r: UserMapping)
    ensures r.ManyToOneUser? <==> blameableUserEntity.Some? && userEntityExists
    ensures r.ManyToOneUser? ==> r == ManyToOneUser(blameableUserEntity.value, userIdColumn)
  {
    if blameableUserEntity.Some? && userEntityExists then
      ManyToOneUser(blameableUserEntity.value, userIdColumn)
    else
      StringUser
  }

  /** The association mapped for each field on the association path. */
  function UserAssociation(targetEntity: string, referencedColumnName: string): (r: AssociationMapping)
    ensures r.targetEntity == targetEntity && r.referencedColumnName == referencedColumnName
    ensures r.onDelete == "SET NULL"
  {
    ManyToOne(targetEntity, referencedColumnName, "SET NULL")
  }

  /** mapStringNullableField: a nullable string column, unless a field of that name exists. */
  function StringFieldEnsured(m: Mapping, fieldName: string): (r: Mapping)
    ensures r.associations == m.associations
    ensures r.fields.Keys == m.fields.Keys + {fieldName}
    ensures forall f :: f in m.fields ==> r.fields[f] == m.fields[f]
    ensures fieldName !in m.fields ==> r.fields[fieldName] == NullableString
  {
    m.(fields := EnsureKey(m.fields, fieldName, NullableString))
  }

  /**
   * mapManyToOneWithTargetEntity: a many-to-one association, unless an
   * association of that name exists. Fields are not consulted.
   */
  function UserAssociationEnsured(m: Mapping, fieldName: string, targetEntity: string,
                                        referencedColumnName: string): (r: Mapping)
    ensures r.fields == m.fields
    ensures r.associations.Keys == m.associations.Keys + {fieldName}
    ensures forall f :: f in m.associations ==> r.associations[f] == m.associations[f]
    ensures fieldName !in m.associations
            ==> r.associations[fieldName] == UserAssociation(targetEntity, referencedColumnName)
  {
    m.(associations := EnsureKey(m.associations, fieldName,
                                 UserAssociation(targetEntity, referencedColumnName)))
  }

  /** mapStringUser / mapManyToOneUser: the three fields in order. */
  function MapUserFields(um: UserMapping, m: Mapping): (r: Mapping)
    ensures um.StringUser? ==>
              r.associations == m.associations
              && r.fields.Keys == m.fields.Keys + {CreatedBy, UpdatedBy, DeletedBy}
    ensures um.ManyToOneUser? ==>
              r.fields == m.fields
              && r.associations.Keys == m.associations.Keys + {CreatedBy, UpdatedBy, DeletedBy}
  {
    match um
    case StringUser =>
      StringFieldEnsured(StringFieldEnsured(StringFieldEnsured(m, CreatedBy), UpdatedBy), DeletedBy)
    case ManyToOneUser(target, column) =>
      UserAssociationEnsured(
        UserAssociationEnsured(
          UserAssociationEnsured(m, CreatedBy, target, column),
          UpdatedBy, target, column),
        DeletedBy, target, column)
  }

  /** loadClassMetadata: only a fully built blameable class is mapped. */
  function BlameMetadata(reflClassBuilt: bool, capabilities: set<Capability>, um: UserMapping,
                         m: Mapping): (r: Mapping)
    ensures !reflClassBuilt || Blameable !in capabilities ==> r == m
    ensures reflClassBuilt && Blameable in capabilities ==>
              r.fields.Keys + r.associations.Keys
              == m.fields.Keys + m.associations.Keys + {CreatedBy, UpdatedBy, DeletedBy}
  {
    if !reflClassBuilt || Blameable !in capabilities then m else MapUserFields(um, m)
  }

  /**
   * What loading does to a class: nothing unless it is built and blameable;
   * otherwise exactly the three names are ensured, on the fields (string
   * path) or on the associations (association path), never replacing an
   * existing entry, and the other map is left alone.
   */
  lemma BlameMetadataShape(reflClassBuilt: bool, capabilities: set<Capability>, um: UserMapping,
                           m: Mapping)
    ensures var r := BlameMetadata(reflClassBuilt, capabilities, um, m);
            (!reflClassBuilt || Blameable !in capabilities ==> r == m)
            && (reflClassBuilt && Blameable in capabilities && um.StringUser? ==>
                  r.associations == m.associations
                  && r.fields.Keys == m.fields.Keys + {CreatedBy, UpdatedBy, DeletedBy}
                  && (forall f :: f in m.fields ==> r.fields[f] == m.fields[f])
                  && (forall f :: f in {CreatedBy, UpdatedBy, DeletedBy} && f !in m.fields
                        ==> r.fields[f] == NullableString))
            && (reflClassBuilt && Blameable in capabilities && um.ManyToOneUser? ==>
                  r.fields == m.fields
                  && r.associations.Keys == m.associations.Keys + {CreatedBy, UpdatedBy, DeletedBy}
                  && (forall f :: f in m.associations ==> r.associations[f] == m.associations[f])
                  && (forall f :: f in {CreatedBy, UpdatedBy, DeletedBy} && f !in m.associations
                        ==> r.associations[f]
                            == UserAssociation(um.targetEntity, um.referencedColumnName)))
  {
  }

  /** Loading the metadata a second time changes nothing more. */
  lemma BlameMetadataIdempotent(reflClassBuilt: bool, capabilities: set<Capability>,
                                um: UserMapping, m: Mapping)
    ensures var once := BlameMetadata(reflClassBuilt, capabilities, um, m);
            BlameMetadata(reflClassBuilt, capabilities, um, once) == once
  {
  }

  // ---------------------------------------------------------------------
  // Attribution
  // ---------------------------------------------------------------------

  /** The three blame fields of one entity, as a value. */
  datatype Attribution = Attribution(createdBy: Option<Actor>, updatedBy: Option<Actor>,
                                     deletedBy: Option<Actor>)

  /** What a hook leaves: the new attribution and the notifications sent, in order. */
  datatype Outcome = Outcome(after: Attribution, changes: seq<Change>)

  /** The blame field named `field` set to `v`; any other name changes nothing. */
  function SetField(a: Attribution, field: string, v: Option<Actor>): (r: Attribution) {
    if field == CreatedBy then a.(createdBy := v)
    else if field == UpdatedBy then a.(updatedBy := v)
    else if field == DeletedBy then a.(deletedBy := v)
    else a
  }

  /** Replays notifications forward: each sets its field to its new value. */
  function Replay(a: Attribution, changes: seq<Change>): (r: Attribution)
    decreases |changes|
  {
    if changes == [] then a
    else Replay(SetField(a, changes[0].field, Some(changes[0].newValue)), changes[1..])
  }

  /** Undoes notifications, last first: each restores its field to its old value. */
  function Undo(a: Attribution, changes: seq<Change>): (r: Attribution)
    decreases |changes|
  {
    if changes == [] then a
    else
      var last := changes[|changes| - 1];
      Undo(SetField(a, last.field, last.oldValue), changes[..|changes| - 1])
  }

  /**
   * prePersist: with a user at hand, a falsy `createdBy` and then a falsy
   * `updatedBy` are set to the user, each write reported with old value
   * null, `createdBy`'s first. The notifications replay to the new
   * attribution.
   */
  function PrePersistOutcome(blameable: bool, user: Option<Actor>, a: Attribution): (r: Outcome)
    ensures !blameable || user.None? ==> r == Outcome(a, [])
    ensures r.after.deletedBy == a.deletedBy
    ensures !IsFalsy(a.createdBy) ==> r.after.createdBy == a.createdBy
    ensures !IsFalsy(a.updatedBy) ==> r.after.updatedBy == a.updatedBy
    ensures blameable && user.Some? && IsFalsy(a.createdBy) ==> r.after.createdBy == user
    ensures blameable && user.Some? && IsFalsy(a.updatedBy) ==> r.after.updatedBy == user
    ensures |r.changes| <= 2
    ensures forall c :: c in r.changes ==> c.oldValue == None && user == Some(c.newValue)
    ensures forall c :: c in r.changes ==> c.field == CreatedBy || c.field == UpdatedBy
    ensures blameable && user.Some? ==>
              (Change(CreatedBy, None, user.value) in r.changes <==> IsFalsy(a.createdBy))
              && (Change(UpdatedBy, None, user.value) in r.changes <==> IsFalsy(a.updatedBy))
    ensures forall i, j :: 0 <= i < j < |r.changes|
              ==> r.changes[i].field == CreatedBy && r.changes[j].field == UpdatedBy
    ensures Replay(a, r.changes) == r.after
  {
    if !blameable || user.None? then Outcome(a, [])
    else
      var u := user.value;
      var created := if IsFalsy(a.createdBy) then [Change(CreatedBy, None, u)] else [];
      var a1 := if IsFalsy(a.createdBy) then a.(createdBy := user) else a;
      var updated := if IsFalsy(a1.updatedBy) then [Change(UpdatedBy, None, u)] else [];
      var a2 := if IsFalsy(a1.updatedBy) then a1.(updatedBy := user) else a1;
      assert Replay(a1, updated) == a2;
      assert Replay(a, created + updated) == a2 by {
        if created != [] {
          assert (created + updated)[1..] == updated;
        } else {
          assert created + updated == updated;
        }
      }
      Outcome(a2, created + updated)
  }

  /** preUpdate: with a user at hand, `updatedBy` is overwritten and its old value reported. */
  function PreUpdateOutcome(blameable: bool, user: Option<Actor>, a: Attribution): (r: Outcome)
    ensures !blameable || user.None? ==> r == Outcome(a, [])
    ensures blameable && user.Some? ==> r.changes == [Change(UpdatedBy, a.updatedBy, user.value)]
    ensures r.after.createdBy == a.createdBy && r.after.deletedBy == a.deletedBy
    ensures Replay(a, r.changes) == r.after
  {
    if !blameable || user.None? then Outcome(a, [])
    else Outcome(a.(updatedBy := user), [Change(UpdatedBy, a.updatedBy, user.value)])
  }

  /** preRemove: with a user at hand, `deletedBy` is overwritten and its old value reported. */
  function PreRemoveOutcome(blameable: bool, user: Option<Actor>, a: Attribution): (r: Outcome)
    ensures !blameable || user.None? ==> r == Outcome(a, [])
    ensures blameable && user.Some? ==> r.changes == [Change(DeletedBy, a.deletedBy, user.value)]
    ensures r.after.createdBy == a.createdBy && r.after.updatedBy == a.updatedBy
    ensures Replay(a, r.changes) == r.after
  {
    if !blameable || user.None? then Outcome(a, [])
    else Outcome(a.(deletedBy := user), [Change(DeletedBy, a.deletedBy, user.value)])
  }

  /** The old values preUpdate reports are the true ones: undoing restores the entity. */
  lemma PreUpdateUndo(blameable: bool, user: Option<Actor>, a: Attribution)
    ensures var r := PreUpdateOutcome(blameable, user, a);
            Undo(r.after, r.changes) == a
  {
  }

  /** The old value preRemove reports is the true one: undoing restores the entity. */
  lemma PreRemoveUndo(blameable: bool, user: Option<Actor>, a: Attribution)
    ensures var r := PreRemoveOutcome(blameable, user, a);
            Undo(r.after, r.changes) == a
  {
  }

  /**
   * prePersist always reports null as the old value, so undoing its
   * notifications restores the entity exactly when every overwritten field
   * really was null, not "" or "0".
   */
  lemma PrePersistUndo(blameable: bool, user: Option<Actor>, a: Attribution)
    ensures var r := PrePersistOutcome(blameable, user, a);
            Undo(r.after, r.changes) == a
            <==> !blameable || user.None?
                 || ((IsFalsy(a.createdBy) ==> a.createdBy.None?)
                     && (IsFalsy(a.updatedBy) ==> a.updatedBy.None?))
  {
    var r := PrePersistOutcome(blameable, user, a);
    if blameable && user.Some? {
      var cc := Change(CreatedBy, None, user.value);
      var cu := Change(UpdatedBy, None, user.value);
      if IsFalsy(a.createdBy) && IsFalsy(a.updatedBy) {
        assert r == Outcome(a.(createdBy := user, updatedBy := user), [cc, cu]);
        var mid := SetField(r.after, UpdatedBy, None);
        assert [cc, cu][..1] == [cc] && [cc][..0] == [];
        assert Undo(r.after, r.changes) == Undo(mid, [cc]);
        assert Undo(mid, [cc]) == SetField(mid, CreatedBy, None);
      } else if IsFalsy(a.createdBy) {
        assert r == Outcome(a.(createdBy := user), [cc]);
        assert [cc][..0] == [];
      } else if IsFalsy(a.updatedBy) {
        assert r == Outcome(a.(updatedBy := user), [cu]);
        assert [cu][..0] == [];
      }
    }
  }

  /**
   * On a fresh entity, prePersist with a user sets createdBy and updatedBy
   * to that user and reports createdBy first, then updatedBy.
   */
  lemma PrePersistFresh(user: Actor)
    ensures PrePersistOutcome(true, Some(user), Attribution(None, None, None))
            == Outcome(Attribution(Some(user), Some(user), None),
                       [Change(CreatedBy, None, user), Change(UpdatedBy, None, user)])
  {
  }

  /**
   * Only the falsy field is written: with `updatedBy` already held by
   * another user, prePersist sets `createdBy` alone and reports it alone.
   */
  lemma PrePersistFillsOnlyUnset(creator: Actor, updater: Actor)
    requires updater.UserObject?
    ensures PrePersistOutcome(true, Some(creator), Attribution(None, Some(updater), None))
            == Outcome(Attribution(Some(creator), Some(updater), None),
                       [Change(CreatedBy, None, creator)])
  {
  }

  /**
   * With a truthy user, a second prePersist finds both fields set and does
   * nothing; a falsy name is written again and reported again, exactly as
   * the first time.
   */
  lemma PrePersistIdempotent(blameable: bool, user: Option<Actor>, a: Attribution)
    ensures var once := PrePersistOutcome(blameable, user, a);
            var twice := PrePersistOutcome(blameable, user, once.after);
            !IsFalsy(user) ==> twice == Outcome(once.after, [])
    ensures var once := PrePersistOutcome(blameable, user, a);
            var twice := PrePersistOutcome(blameable, user, once.after);
            IsFalsy(user) ==> twice == once
  {
  }

  /** The notifications the unit of work receives for `entity`. */
  function Notices(entity: Entity, changes: seq<Change>): (r: seq<PropertyChange>)
    ensures |r| == |changes|
    ensures forall i :: 0 <= i < |changes| ==> r[i] == PropertyChange(entity, changes[i])
  {
    seq(|changes|, i requires 0 <= i < |changes| => PropertyChange(entity, changes[i]))
  }

  /** The blame fields of an entity object. */
  function AttributionOf(entity: Entity): (r: Attribution)
    reads entity
  {
    Attribution(entity.createdBy, entity.updatedBy, entity.deletedBy)
  }

  class BlameableEventSubscriber {
    const unitOfWork: UnitOfWork
    /** The configured user class, if any, whether it exists, and its identifier column. */
    const blameableUserEntity: Option<string>
    const userEntityExists: bool
    const userIdColumn: string

    constructor (unitOfWork: UnitOfWork, blameableUserEntity: Option<string>,
                 userEntityExists: bool, userIdColumn: string)
      ensures this.unitOfWork == unitOfWork && this.blameableUserEntity == blameableUserEntity
      ensures this.userEntityExists == userEntityExists && this.userIdColumn == userIdColumn
    {
      this.unitOfWork := unitOfWork;
      this.blameableUserEntity := blameableUserEntity;
      this.userEntityExists := userEntityExists;
      this.userIdColumn := userIdColumn;
    }

    function UserMappingChoice(): UserMapping {
      ChosenUserMapping(blameableUserEntity, userEntityExists, userIdColumn)
    }

    method LoadClassMetadata(classMetadata: ClassMetadata)
      modifies classMetadata`fields, classMetadata`associations
      ensures classMetadata.Current()
              == BlameMetadata(classMetadata.reflClassBuilt, classMetadata.capabilities,
                               UserMappingChoice(), old(classMetadata.Current()))
    {
      if !classMetadata.reflClassBuilt {
        return;
      }
      if Blameable !in classMetadata.capabilities {
        return;
      }
      MapEntity(classMetadata);
    }

    method MapEntity(classMetadata: ClassMetadata)
      modifies classMetadata`fields, classMetadata`associations
      ensures classMetadata.Current() == MapUserFields(UserMappingChoice(), old(classMetadata.Current()))
    {
      if blameableUserEntity.Some? && userEntityExists {
        MapManyToOneUser(classMetadata);
      } else {
        MapStringUser(classMetadata);
      }
    }

    method MapManyToOneUser(classMetadata: ClassMetadata)
      requires blameableUserEntity.Some?
      modifies classMetadata`associations
      ensures classMetadata.Current()
              == MapUserFields(ManyToOneUser(blameableUserEntity.value, userIdColumn),
                               old(classMetadata.Current()))
    {
      MapManyToOneWithTargetEntity(classMetadata, CreatedBy);
      MapManyToOneWithTargetEntity(classMetadata, UpdatedBy);
      MapManyToOneWithTargetEntity(classMetadata, DeletedBy);
    }

    method MapStringUser(classMetadata: ClassMetadata)
      modifies classMetadata`fields
      ensures classMetadata.Current() == MapUserFields(StringUser, old(classMetadata.Current()))
    {
      MapStringNullableField(classMetadata, CreatedBy);
      MapStringNullableField(classMetadata, UpdatedBy);
      MapStringNullableField(classMetadata, DeletedBy);
    }

    /** Adds the association for `fieldName` unless one of that name is mapped. */
    method MapManyToOneWithTargetEntity(classMetadata: ClassMetadata, fieldName: string)
      requires blameableUserEntity.Some?
      modifies classMetadata`associations
      ensures classMetadata.Current()
              == UserAssociationEnsured(old(classMetadata.Current()), fieldName,
                                              blameableUserEntity.value, userIdColumn)
    {
      if fieldName in classMetadata.associations {
        return;
      }
      classMetadata.MapManyToOne(fieldName,
                                 UserAssociation(blameableUserEntity.value, userIdColumn));
    }

    /** Adds the nullable string column for `fieldName` unless a field of that name is mapped. */
    method MapStringNullableField(classMetadata: ClassMetadata, fieldName: string)
      modifies classMetadata`fields
      ensures classMetadata.Current() == StringFieldEnsured(old(classMetadata.Current()), fieldName)
    {
      if fieldName in classMetadata.fields {
        return;
      }
      classMetadata.MapField(fieldName, NullableString);
    }

    /** `user` is what the user provider hands back for this call. */
    method PrePersist(entity: Entity, user: Option<Actor>)
      modifies entity`createdBy, entity`updatedBy, unitOfWork`notifications
      ensures var r := PrePersistOutcome(Blameable in entity.capabilities, user,
                                         old(AttributionOf(entity)));
              AttributionOf(entity) == r.after
              && unitOfWork.notifications == old(unitOfWork.notifications) + Notices(entity, r.changes)
    {
      if Blameable !in entity.capabilities {
        return;
      }
      if user.None? {
        return;
      }
      if IsFalsy(entity.createdBy) {
        entity.createdBy := user;
        unitOfWork.PropertyChanged(entity, Change(CreatedBy, None, user.value));
      }
      if IsFalsy(entity.updatedBy) {
        entity.updatedBy := user;
        unitOfWork.PropertyChanged(entity, Change(UpdatedBy, None, user.value));
      }
    }

    method PreUpdate(entity: Entity, user: Option<Actor>)
      modifies entity`updatedBy, unitOfWork`notifications
      ensures var r := PreUpdateOutcome(Blameable in entity.capabilities, user,
                                        old(AttributionOf(entity)));
              AttributionOf(entity) == r.after
              && unitOfWork.notifications == old(unitOfWork.notifications) + Notices(entity, r.changes)
    {
      if Blameable !in entity.capabilities {
        return;
      }
      if user.None? {
        return;
      }
      var oldValue := entity.updatedBy;
      entity.updatedBy := user;
      unitOfWork.PropertyChanged(entity, Change(UpdatedBy, oldValue, user.value));
    }

    method PreRemove(entity: Entity, user: Option<Actor>)
      modifies entity`deletedBy, unitOfWork`notifications
      ensures var r := PreRemoveOutcome(Blameable in entity.capabilities, user,
                                        old(AttributionOf(entity)));
              AttributionOf(entity) == r.after
              && unitOfWork.notifications == old(unitOfWork.notifications) + Notices(entity, r.changes)
    {
      if Blameable !in entity.capabilities {
        return;
      }
      if user.None? {
        return;
      }
      var oldDeletedBy := entity.deletedBy;
      entity.deletedBy := user;
      unitOfWork.PropertyChanged(entity, Change(DeletedBy, oldDeletedBy, user.value));
    }
  }
}
