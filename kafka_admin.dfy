/** `KafkaAdminService.onModuleInit` of the auth service: create those of the
    configured topics the broker does not have yet. The broker's answers are inputs. */
module KafkaAdmin {
  import opened Js

  const UserCreatedTopic := "user.created"
  const UserDeletedTopic := "user.deleted"
  const UserUpdatedTopic := "user.updated"

  datatype TopicConfig = TopicConfig(topic: string, numPartitions: int, replicationFactor: int)

  /** `topicsToCreate` */
  const TopicsToCreate: seq<TopicConfig> :=
    [TopicConfig(UserCreatedTopic, 1, 1), TopicConfig(UserDeletedTopic, 1, 1)]

  /** The configured topics whose names are not among `existing`, in order. */
  function Pending(configured: seq<TopicConfig>, existing: set<string>): seq<TopicConfig> {
    if configured == [] then []
    else
      var last := configured[|configured| - 1];
      Pending(configured[..|configured| - 1], existing) + (if last.topic in existing then [] else [last])
  }

  /** `a` is `b` with some elements left out, order kept. */
  predicate IsSubsequence<T(==)>(a: seq<T>, b: seq<T>) {
    if a == [] then true
    else if b == [] then false
    else if a[|a| - 1] == b[|b| - 1] then IsSubsequence(a[..|a| - 1], b[..|b| - 1])
    else IsSubsequence(a, b[..|b| - 1])
  }

  /** The loop of `onModuleInit` that fills `topicsPendingCreation`. */
  method PendingTopics(configured: seq<TopicConfig>, existing: set<string>) returns (pending: seq<TopicConfig>)
    ensures pending == Pending(configured, existing)
  {
    pending := [];
    for i := 0 to |configured|
      invariant pending == Pending(configured[..i], existing)
    {
      var topicConfig := configured[i];
      assert configured[..i + 1][..i] == configured[..i];
      if topicConfig.topic !in existing {
        pending := pending + [topicConfig];
      }
    }
    assert configured[..|configured|] == configured;
  }

  /** A topic is pending exactly when it is configured and its name is not taken. */
  lemma {:induction false} PendingMembers(configured: seq<TopicConfig>, existing: set<string>, t: TopicConfig)
    ensures t in Pending(configured, existing) <==> t in configured && t.topic !in existing
  {
    if configured != [] {
      var init := configured[..|configured| - 1];
      PendingMembers(init, existing, t);
      assert configured == init + [configured[|configured| - 1]];
    }
  }

  /** The pending list keeps the configured order and is no longer. */
  lemma {:induction false} PendingKeepsOrder(configured: seq<TopicConfig>, existing: set<string>)
    ensures IsSubsequence(Pending(configured, existing), configured)
    ensures |Pending(configured, existing)| <= |configured|
  {
    if configured != [] {
      var init := configured[..|configured| - 1];
      var last := configured[|configured| - 1];
      PendingKeepsOrder(init, existing);
      var p := Pending(init, existing);
      if last.topic in existing {
        assert Pending(configured, existing) == p;
        assert configured == init + [last];
        SubsequenceOfLonger(p, init, last);
      } else {
        assert Pending(configured, existing) == p + [last];
        assert (p + [last])[..|p|] == p;
      }
    }
  }

  /** Appending to the longer sequence keeps a subsequence one. */
  lemma {:induction false} SubsequenceOfLonger<T>(a: seq<T>, b: seq<T>, x: T)
    requires IsSubsequence(a, b)
    ensures IsSubsequence(a, b + [x])
    decreases |b|, 1
  {
    var b' := b + [x];
    assert b'[..|b'| - 1] == b;
    if a != [] && a[|a| - 1] == x {
      SubsequenceWithoutLast(a, b);
    }
  }

  /** Leaving out the last element of a subsequence keeps it one. */
  lemma {:induction false} SubsequenceWithoutLast<T>(a: seq<T>, b: seq<T>)
    requires a != [] && IsSubsequence(a, b)
    ensures IsSubsequence(a[..|a| - 1], b)
    decreases |b|, 0
  {
    var init := a[..|a| - 1];
    var bi := b[..|b| - 1];
    var y := b[|b| - 1];
    assert b == bi + [y];
    if a[|a| - 1] != y {
      SubsequenceWithoutLast(a, bi);
    }
    SubsequenceOfLonger(init, bi, y);
  }

  /** No topic the broker already has is ever pending. */
  lemma NoExistingTopicPending(configured: seq<TopicConfig>, existing: set<string>)
    ensures forall i :: 0 <= i < |Pending(configured, existing)| ==> Pending(configured, existing)[i].topic !in existing
  {
    forall i | 0 <= i < |Pending(configured, existing)|
      ensures Pending(configured, existing)[i].topic !in existing
    {
      PendingMembers(configured, existing, Pending(configured, existing)[i]);
    }
  }

  /** The service creates `user.created` and `user.deleted`, one partition and
      replication factor one each, and never `user.updated`. */
  lemma ConfiguredTopics()
    ensures |TopicsToCreate| == 2
    ensures TopicsToCreate[0] == TopicConfig("user.created", 1, 1)
    ensures TopicsToCreate[1] == TopicConfig("user.deleted", 1, 1)
    ensures forall t :: t in TopicsToCreate ==> t.topic != UserUpdatedTopic
  {
  }

  /** The broker's answers: whether the admin client connected, the names in
      the topic metadata (absent when fetching failed), and whether creation
      succeeded. */
  datatype BrokerOutcome = BrokerOutcome(connected: bool, metadata: Option<seq<string>>, created: bool)

  datatype CreateTopicsRequest = CreateTopicsRequest(topics: seq<TopicConfig>, waitForLeaders: bool, timeout: int)

  /** How initialisation ended; a failure is only logged. */
  datatype InitReport = TopicsCreated | AllTopicsExisted | FailureLogged

  /** `onModuleInit`: it never throws; it asks for creation only when some
      configured topic is missing, and then for exactly the missing ones. */
  method OnModuleInit(broker: BrokerOutcome) returns (request: Option<CreateTopicsRequest>, report: InitReport)
    ensures !broker.connected || broker.metadata.None? ==> request.None? && report == FailureLogged
    ensures broker.connected && broker.metadata.Some? ==>
      var pending := Pending(TopicsToCreate, set n | n in broker.metadata.value);
      && (pending == [] ==> request.None? && report == AllTopicsExisted)
      && (pending != [] ==>
            request == Some(CreateTopicsRequest(pending, true, 10000))
            && report == (if broker.created then TopicsCreated else FailureLogged))
  {
    if !broker.connected || broker.metadata.None? {
      return None, FailureLogged;
    }
    var existingTopicNames := set n | n in broker.metadata.value;
    var topicsPendingCreation := PendingTopics(TopicsToCreate, existingTopicNames);
    if |topicsPendingCreation| > 0 {
      request := Some(CreateTopicsRequest(topicsPendingCreation, true, 10000));
      report := if broker.created then TopicsCreated else FailureLogged;
    } else {
      request := None;
      report := AllTopicsExisted;
    }
  }
}
