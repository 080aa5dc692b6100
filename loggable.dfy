/**
 * The log subscriber: after persist it logs the entity's create message and
 * then its change-set message, after update the change-set message, and
 * before remove the remove message. A change-set message that is the empty
 * string is not logged.
 */
module Loggable {
  import opened Orm

  /** The PSR-3 log levels. */
  datatype LogLevel = Emergency | Alert | Critical | Error | Warning | Notice | Info | Debug

  /** One call of `log(level, message)`. */
  datatype LogLine = LogLine(level: LogLevel, message: string)

  /** The events the subscriber is registered for. */
  const SubscribedEvents: seq<LifecycleEvent> := [PostPersistEvent, PostUpdateEvent, PreRemoveEvent]

  /** The subscriber listens to post-persist, post-update and pre-remove, each once, and to nothing else. */
  lemma SubscribedEventsListed()
    ensures |SubscribedEvents| == 3
    ensures forall e :: e in SubscribedEvents
              <==> e == PostPersistEvent || e == PostUpdateEvent || e == PreRemoveEvent
  {
  }

  /** The logger: the lines it has received, in order. */
  class Logger {
    var lines: seq<LogLine>

    constructor ()
      ensures lines == []
    {
      lines := [];
    }

    method Log(level: LogLevel, message: string)
      modifies this`lines
      ensures lines == old(lines) + [LogLine(level, message)]
    {
      lines := lines + [LogLine(level, message)];
    }
  }

  /** The messages of a list of log lines, in order. */
  function Messages(lines: seq<LogLine>): (r: seq<string>)
    ensures |r| == |lines|
    ensures forall i :: 0 <= i < |lines| ==> r[i] == lines[i].message
  {
    seq(|lines|, i requires 0 <= i < |lines| => lines[i].message)
  }

  /** Every line is at INFO level. */
  predicate AllInfo(lines: seq<LogLine>) {
    forall i :: 0 <= i < |lines| ==> lines[i].level == Info
  }

  /** logChangeSet: at most one INFO line, present exactly when the message is not empty. */
  function ChangeSetLines(message: string): (r: seq<LogLine>)
    ensures |r| <= 1
    ensures r == [] <==> message == ""
    ensures AllInfo(r)
    ensures Messages(r) == if message == "" then [] else [message]
  {
    if message == "" then [] else [LogLine(Info, message)]
  }

  /**
   * postPersist: nothing for a non-loggable entity; otherwise the create
   * message first, then the change-set message unless it is empty.
   */
  function PostPersistLines(loggable: bool, createMessage: string, updateMessage: string)
    : (r: seq<LogLine>)
    ensures !loggable ==> r == []
    ensures loggable ==> 1 <= |r| <= 2 && r[0] == LogLine(Info, createMessage)
    ensures loggable ==> r[1..] == ChangeSetLines(updateMessage)
    ensures AllInfo(r)
  {
    if !loggable then [] else [LogLine(Info, createMessage)] + ChangeSetLines(updateMessage)
  }

  /** postUpdate: nothing for a non-loggable entity; otherwise the change-set lines. */
  function PostUpdateLines(loggable: bool, updateMessage: string): (r: seq<LogLine>)
    ensures |r| <= 1
    ensures !loggable ==> r == []
    ensures loggable ==> r == ChangeSetLines(updateMessage)
    ensures AllInfo(r)
  {
    if !loggable then [] else ChangeSetLines(updateMessage)
  }

  /** preRemove: exactly the remove message for a loggable entity, nothing otherwise. */
  function PreRemoveLines(loggable: bool, removeMessage: string): (r: seq<LogLine>)
    ensures loggable ==> r == [LogLine(Info, removeMessage)]
    ensures !loggable ==> r == []
  {
    if loggable then [LogLine(Info, removeMessage)] else []
  }

  /**
   * A persisted entity whose change set renders empty leaves only its
   * create message; otherwise the create message comes before the
   * change-set message.
   */
  lemma PostPersistMessages(createMessage: string, updateMessage: string)
    ensures Messages(PostPersistLines(true, createMessage, updateMessage))
            == if updateMessage == "" then [createMessage] else [createMessage, updateMessage]
  {
  }

  /**
   * Persist logs the create line, then exactly what an update with the
   * same change set would log.
   */
  lemma PersistIsCreatePlusUpdate(loggable: bool, createMessage: string, updateMessage: string)
    ensures PostPersistLines(loggable, createMessage, updateMessage)
            == (if loggable then [LogLine(Info, createMessage)] else [])
               + PostUpdateLines(loggable, updateMessage)
  {
  }

  class LoggableEventSubscriber {
    const logger: Logger

    constructor (logger: Logger)
      ensures this.logger == logger
    {
      this.logger := logger;
    }

    /** `changeSet` is the unit of work's change set of `entity` after computeChangeSet. */
    method PostPersist(entity: Entity, changeSet: ChangeSet)
      modifies logger`lines
      ensures logger.lines
              == old(logger.lines)
                 + PostPersistLines(Loggable in entity.capabilities, entity.createLogMessage,
                                    entity.updateLogMessage(changeSet))
    {
      if Loggable !in entity.capabilities {
        return;
      }
      var createLogMessage := entity.createLogMessage;
      logger.Log(Info, createLogMessage);
      LogChangeSet(entity, changeSet);
    }

    method PostUpdate(entity: Entity, changeSet: ChangeSet)
      modifies logger`lines
      ensures logger.lines
              == old(logger.lines)
                 + PostUpdateLines(Loggable in entity.capabilities, entity.updateLogMessage(changeSet))
    {
      if Loggable !in entity.capabilities {
        return;
      }
      LogChangeSet(entity, changeSet);
    }

    method PreRemove(entity: Entity)
      modifies logger`lines
      ensures logger.lines
              == old(logger.lines)
                 + PreRemoveLines(Loggable in entity.capabilities, entity.removeLogMessage)
    {
      if Loggable in entity.capabilities {
        logger.Log(Info, entity.removeLogMessage);
      }
    }

    method LogChangeSet(entity: Entity, changeSet: ChangeSet)
      modifies logger`lines
      ensures logger.lines == old(logger.lines) + ChangeSetLines(entity.updateLogMessage(changeSet))
    {
      var message := entity.updateLogMessage(changeSet);
      if message == "" {
        return;
      }
      logger.Log(Info, message);
    }
  }
}
