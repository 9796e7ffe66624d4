/** The topic catalogue, the subscriptions of the deployed handlers and their names. */
module Catalog {
  type Topic = string

  const TOPIC_PROJECT_CREATED: Topic := "project.created"
  const TOPIC_PROJECT_UPDATED: Topic := "project.updated"
  const TOPIC_PROJECT_STATE_CHANGED: Topic := "project.state_changed"
  const TOPIC_PROJECT_PRIORITY_RECALCULATED: Topic := "project.priority.recalculated"
  const TOPIC_TASK_CREATED: Topic := "task.created"
  const TOPIC_TASK_UPDATED: Topic := "task.updated"
  const TOPIC_TASK_STATE_CHANGED: Topic := "task.state_changed"
  const TOPIC_TASK_ARCHIVE_CHANGED: Topic := "task.archive_changed"
  const TOPIC_BLOCKER_RAISED: Topic := "blocker.raised"
  const TOPIC_BLOCKER_RESOLVED: Topic := "blocker.resolved"
  const TOPIC_NOTE_ADDED: Topic := "note.added"
  const TOPIC_CLOCK_TICKED: Topic := "clock.ticked"
  const TOPIC_MEMBER_CREATED: Topic := "member.created"
  const TOPIC_MEMBER_UPDATED: Topic := "member.updated"
  const TOPIC_MEMBER_ACTIVATION_CHANGED: Topic := "member.activation_changed"

  const MEMBER_TOPICS: set<Topic> :=
    { TOPIC_MEMBER_CREATED, TOPIC_MEMBER_UPDATED, TOPIC_MEMBER_ACTIVATION_CHANGED }

  const ENGINE_TOPICS: set<Topic> :=
    { TOPIC_PROJECT_CREATED, TOPIC_PROJECT_UPDATED, TOPIC_PROJECT_STATE_CHANGED,
      TOPIC_TASK_CREATED, TOPIC_TASK_UPDATED, TOPIC_TASK_STATE_CHANGED, TOPIC_TASK_ARCHIVE_CHANGED,
      TOPIC_BLOCKER_RAISED, TOPIC_BLOCKER_RESOLVED, TOPIC_NOTE_ADDED, TOPIC_CLOCK_TICKED }

  const ALL_TOPICS: set<Topic> :=
    { TOPIC_PROJECT_CREATED, TOPIC_PROJECT_UPDATED, TOPIC_PROJECT_STATE_CHANGED,
      TOPIC_PROJECT_PRIORITY_RECALCULATED,
      TOPIC_TASK_CREATED, TOPIC_TASK_UPDATED, TOPIC_TASK_STATE_CHANGED, TOPIC_TASK_ARCHIVE_CHANGED,
      TOPIC_BLOCKER_RAISED, TOPIC_BLOCKER_RESOLVED, TOPIC_NOTE_ADDED, TOPIC_CLOCK_TICKED,
      TOPIC_MEMBER_CREATED, TOPIC_MEMBER_UPDATED, TOPIC_MEMBER_ACTIVATION_CHANGED }

  const SSE_ALLOWLIST_TOPICS: set<Topic> := ALL_TOPICS - { TOPIC_CLOCK_TICKED }
  const SNAPSHOT_TOPICS: set<Topic> := ALL_TOPICS - { TOPIC_CLOCK_TICKED }

  const PRIORITY_RECALCULATOR: string := "priority-recalculator"
  const SNAPSHOT_BUILDER: string := "snapshot-builder"
  const SSE_FANOUT_HANDLER: string := "sse-fanout"

  const ENTITY_PROJECT: string := "project"
  const ENTITY_TASK: string := "task"
  const ENTITY_BLOCKER: string := "blocker"
  const ENTITY_NOTE: string := "note"
  const ENTITY_CLOCK: string := "clock"
  const ENTITY_MEMBER: string := "member"
  const SYSTEM_ACTOR: string := "system"

  /** The three deployed handlers have three names. */
  lemma HandlerNamesDiffer()
    ensures PRIORITY_RECALCULATOR != SNAPSHOT_BUILDER
    ensures PRIORITY_RECALCULATOR != SSE_FANOUT_HANDLER
    ensures SNAPSHOT_BUILDER != SSE_FANOUT_HANDLER
  {
  }

  /** The topic the engine emits is not one it consumes: the handler graph has no cycle. */
  lemma EmittedTopicIsNotConsumed()
    ensures TOPIC_PROJECT_PRIORITY_RECALCULATED !in ENGINE_TOPICS
  {
  }

  /** No topic about a person is consumed by the engine, and all of them reach the snapshot builder. */
  lemma MemberTopicsReachTheSnapshotBuilder(topic: Topic)
    requires topic in MEMBER_TOPICS
    ensures topic in SNAPSHOT_TOPICS && topic !in ENGINE_TOPICS
  {
  }
}
