/**
 * `HsdsPublisher`: the registry of one DDS topic and one data writer per HSDS topic name,
 * the provenance stamp written into every outgoing copy, and the count of successful writes.
 *
 * The DDS middleware is not modelled. What the publisher learns from it (whether the
 * publisher entity, a type registration, a topic or a writer could be created, and whether
 * a write succeeded) is given as a `Middleware` value and a `writeOk` flag. A topic or a
 * writer handle is represented by the topic it was created for.
 */
module HsdsPublishing {
  import opened HsdsRecords

  /** The outcomes the middleware reports during setup. */
  datatype Middleware = Middleware(
    publisherOk: bool,          // `create_publisher` returned a non-nil publisher
    registerFails: set<Topic>,  // `register_type` did not return RETCODE_OK
    topicFails: set<Topic>,     // `create_topic` returned nil
    writerFails: set<Topic>)    // `create_datawriter` returned nil

  /** Only the first four type registrations (Organization .. Location) are checked. */
  predicate RegistrationOk(mw: Middleware) {
    OrganizationTopic !in mw.registerFails && ProgramTopic !in mw.registerFails
    && ServiceTopic !in mw.registerFails && LocationTopic !in mw.registerFails
  }

  /** Both the topic and the writer for `t` can be created. */
  predicate Creates(mw: Middleware, t: Topic) {
    t !in mw.topicFails && t !in mw.writerFails
  }

  /** How many topics at the front of `ts` get a topic and a writer before the first failure. */
  function CreatedPrefix(mw: Middleware, ts: seq<Topic>): (k: nat)
    ensures k <= |ts|
    ensures forall i :: 0 <= i < k ==> Creates(mw, ts[i])
    ensures k < |ts| ==> !Creates(mw, ts[k])
  {
    if ts == [] || !Creates(mw, ts[0]) then 0 else 1 + CreatedPrefix(mw, ts[1..])
  }

  /** The number of table entries the setup loop creates before it stops. */
  function SetupCount(mw: Middleware): nat {
    CreatedPrefix(mw, AllTopics)
  }

  /** One round of the setup loop: a topic that can be created extends the count, one that cannot ends it. */
  lemma {:induction false} PrefixStep(mw: Middleware, ts: seq<Topic>, i: nat)
    requires i < |ts| && i <= CreatedPrefix(mw, ts)
    ensures Creates(mw, ts[i]) ==> i + 1 <= CreatedPrefix(mw, ts)
    ensures !Creates(mw, ts[i]) ==> CreatedPrefix(mw, ts) == i
  {
  }

  /** The setup loop finishes exactly when every topic and writer can be created. */
  lemma SetupCountFull(mw: Middleware)
    ensures SetupCount(mw) <= |AllTopics|
    ensures SetupCount(mw) == |AllTopics| <==> forall t: Topic :: Creates(mw, t)
  {
    TopicTableComplete();
    if SetupCount(mw) == |AllTopics| {
      forall t: Topic ensures Creates(mw, t) {
        assert AllTopics[TopicIndex(t)] == t;
      }
    }
  }

  /** `topics_[name] = topic` (or `writers_[name] = writer`) for each topic of `ts` in order. */
  function Install(m: map<string, Topic>, ts: seq<Topic>): map<string, Topic>
    decreases |ts|
  {
    if ts == [] then m
    else Install(m, ts[..|ts| - 1])[TopicName(ts[|ts| - 1]) := ts[|ts| - 1]]
  }

  /** One more loop round installs one more topic. */
  lemma InstallSnoc(m: map<string, Topic>, ts: seq<Topic>, i: nat)
    requires i < |ts|
    ensures Install(m, ts[..i + 1]) == Install(m, ts[..i])[TopicName(ts[i]) := ts[i]]
  {
    assert ts[..i + 1][..i] == ts[..i];
  }

  /** Every entry is keyed by the name of the topic it holds. */
  predicate Consistent(m: map<string, Topic>) {
    forall k :: k in m ==> TopicName(m[k]) == k
  }

  /** Every topic has an entry. */
  predicate Complete(m: map<string, Topic>) {
    forall t: Topic :: TopicName(t) in m
  }

  /** The names of the 24 topics. */
  function TopicNameSet(): set<string> {
    set t | t in AllTopics :: TopicName(t)
  }

  /** The table a complete setup builds into empty maps. */
  function FullTable(): map<string, Topic> {
    Install(map[], AllTopics)
  }

  /** Installing adds exactly the names of the installed topics. */
  lemma {:induction false} InstallDomain(m: map<string, Topic>, ts: seq<Topic>)
    ensures Install(m, ts).Keys == m.Keys + set t | t in ts :: TopicName(t)
    decreases |ts|
  {
    if ts != [] {
      var init, last := ts[..|ts| - 1], ts[|ts| - 1];
      InstallDomain(m, init);
      assert ts == init + [last];
      assert (set t | t in ts :: TopicName(t)) == (set t | t in init :: TopicName(t)) + {TopicName(last)};
    }
  }

  /** Installing keeps every entry keyed by the name of the topic it holds. */
  lemma {:induction false} InstallConsistent(m: map<string, Topic>, ts: seq<Topic>)
    requires Consistent(m)
    ensures Consistent(Install(m, ts))
    decreases |ts|
  {
    if ts != [] {
      InstallConsistent(m, ts[..|ts| - 1]);
    }
  }

  /** After installing, each installed topic is found under its own name. */
  lemma {:induction false} InstallLookup(m: map<string, Topic>, ts: seq<Topic>, t: Topic)
    requires t in ts
    ensures TopicName(t) in Install(m, ts) && Install(m, ts)[TopicName(t)] == t
    decreases |ts|
  {
    var init, last := ts[..|ts| - 1], ts[|ts| - 1];
    if t != last {
      var j :| 0 <= j < |ts| && ts[j] == t;
      assert j < |init| && init[j] == t;
      InstallLookup(m, init, t);
      TopicNameInjective(t, last);
      InstallStep(m, ts, TopicName(t));
    }
  }

  lemma InstallStep(m: map<string, Topic>, ts: seq<Topic>, k: string)
    requires ts != [] && k != TopicName(ts[|ts| - 1]) && k in Install(m, ts[..|ts| - 1])
    ensures k in Install(m, ts) && Install(m, ts)[k] == Install(m, ts[..|ts| - 1])[k]
  {
  }

  /** The complete table has an entry for every topic, under that topic's name. */
  lemma FullTableCorrect()
    ensures FullTable().Keys == TopicNameSet()
    ensures Consistent(FullTable()) && Complete(FullTable())
    ensures forall t: Topic :: FullTable()[TopicName(t)] == t
  {
    InstallDomain(map[], AllTopics);
    InstallConsistent(map[], AllTopics);
    TopicTableComplete();
    forall t: Topic ensures TopicName(t) in FullTable() && FullTable()[TopicName(t)] == t {
      InstallLookup(map[], AllTopics, t);
    }
  }

  /** The complete table holds 24 distinct names. */
  lemma FullTableSize()
    ensures |FullTable()| == |AllTopics| == 24
  {
    FullTableCorrect();
    TopicTableComplete();
    forall i, j | 0 <= i < j < |AllTopics| ensures AllTopics[i] != AllTopics[j] {
      TopicTableDistinct(i, j);
    }
    NamesDistinct(AllTopics);
  }

  /** Distinct topics give as many distinct names. */
  lemma {:induction false} NamesDistinct(ts: seq<Topic>)
    requires forall i, j :: 0 <= i < j < |ts| ==> ts[i] != ts[j]
    ensures |set t | t in ts :: TopicName(t)| == |ts|
  {
    if ts != [] {
      var rest := ts[1..];
      assert forall i, j :: 0 <= i < j < |rest| ==> rest[i] != rest[j] by {
        forall i, j | 0 <= i < j < |rest| ensures rest[i] != rest[j] {
          assert rest[i] == ts[i + 1] && rest[j] == ts[j + 1];
        }
      }
      NamesDistinct(rest);
      NameSetCons(ts);
      FirstNameNew(ts);
    }
  }

  /** The names of a nonempty sequence are the first one's and the rest's. */
  lemma NameSetCons(ts: seq<Topic>)
    requires ts != []
    ensures (set t | t in ts :: TopicName(t)) == (set t | t in ts[1..] :: TopicName(t)) + {TopicName(ts[0])}
  {
    assert forall t :: t in ts <==> t == ts[0] || t in ts[1..];
  }

  /** The first of distinct topics has a name none of the others has. */
  lemma FirstNameNew(ts: seq<Topic>)
    requires ts != [] && forall i, j :: 0 <= i < j < |ts| ==> ts[i] != ts[j]
    ensures TopicName(ts[0]) !in set t | t in ts[1..] :: TopicName(t)
  {
    forall u | u in ts[1..] ensures TopicName(u) != TopicName(ts[0]) {
      var j :| 0 <= j < |ts[1..]| && ts[1..][j] == u;
      assert ts[j + 1] == u;
      TopicNameInjective(u, ts[0]);
    }
  }

  /**
   * A complete setup over whatever a failed attempt left behind builds the same table as a
   * setup into empty maps: the earlier entries are all overwritten.
   */
  lemma InstallOverLeftovers(m: map<string, Topic>)
    requires Consistent(m)
    ensures Install(m, AllTopics) == FullTable()
  {
    ConsistentKeysAreNames(m);
    InstallCovering(m, AllTopics);
  }

  /** Installing topics whose names cover every key of `m` overwrites all of `m`. */
  lemma InstallCovering(m: map<string, Topic>, ts: seq<Topic>)
    requires m.Keys <= set t | t in ts :: TopicName(t)
    ensures Install(m, ts) == Install(map[], ts)
  {
    var a, b := Install(m, ts), Install(map[], ts);
    InstallDomain(m, ts);
    InstallDomain(map[], ts);
    assert a.Keys == b.Keys;
    forall k | k in a ensures a[k] == b[k] {
      var t :| t in ts && TopicName(t) == k;
      InstallLookup(m, ts, t);
      InstallLookup(map[], ts, t);
    }
  }

  /** In a consistent map every key is the name of some topic. */
  lemma ConsistentKeysAreNames(m: map<string, Topic>)
    requires Consistent(m)
    ensures m.Keys <= TopicNameSet()
  {
    forall k | k in m ensures k in TopicNameSet() {
      var t := m[k];
      assert AllTopics[TopicIndex(t)] == t;
    }
  }

  /** The maps `initialize` leaves behind, from maps `m`, when the publisher is created. */
  function SetupTable(m: map<string, Topic>, mw: Middleware): map<string, Topic> {
    if RegistrationOk(mw) then Install(m, AllTopics[..SetupCount(mw)]) else m
  }

  /** `initialize` succeeds exactly when every DDS step it checks succeeds. */
  predicate InitSucceeds(mw: Middleware) {
    mw.publisherOk && RegistrationOk(mw) && SetupCount(mw) == |AllTopics|
  }

  /** A successful initialization holds the complete table, whatever was there before. */
  lemma InitSuccessTable(m: map<string, Topic>, mw: Middleware)
    requires Consistent(m) && InitSucceeds(mw)
    ensures SetupTable(m, mw) == FullTable() && Complete(SetupTable(m, mw))
  {
    assert AllTopics[..SetupCount(mw)] == AllTopics;
    InstallOverLeftovers(m);
    FullTableCorrect();
  }

  /**
   * A failed setup keeps the earlier entries and adds the topics created before the
   * failure, which are fewer than 24.
   */
  lemma InitFailureTable(m: map<string, Topic>, mw: Middleware)
    requires RegistrationOk(mw) && SetupCount(mw) < |AllTopics|
    ensures SetupTable(m, mw).Keys == m.Keys + set t | t in AllTopics[..SetupCount(mw)] :: TopicName(t)
  {
    InstallDomain(m, AllTopics[..SetupCount(mw)]);
  }

  /** Whatever setup does, entries stay keyed by the names of their topics. */
  lemma SetupConsistent(m: map<string, Topic>, mw: Middleware)
    requires Consistent(m)
    ensures Consistent(SetupTable(m, mw))
  {
    InstallConsistent(m, AllTopics[..SetupCount(mw)]);
  }

  class Publisher {
    /** `initialized_` */
    var initialized: bool
    /** `published_count_` */
    var publishedCount: nat
    /** `dmp_id_` */
    var dmpId: string
    /** `topics_`, keyed by topic name */
    var topics: map<string, Topic>
    /** `writers_`, keyed by topic name */
    var writers: map<string, Topic>
    /** The copies that reached a data writer, in order. */
    ghost var sent: seq<Record>

    /**
     * The maps hold matching entries keyed by topic name, an initialized publisher holds the
     * complete table, and only Organization records, stamped by the publisher, were ever sent.
     */
    ghost predicate Valid()
      reads this
    {
      Consistent(topics) && writers == topics
      && (initialized ==> Complete(topics))
      && (forall i :: 0 <= i < |sent| ==> TopicOf(sent[i]) == OrganizationTopic)
    }

    /** A new publisher is not initialized and has published nothing. */
    constructor()
      ensures Valid()
      ensures !initialized && publishedCount == 0
      ensures topics == map[] && writers == map[] && sent == []
    {
      initialized := false;
      publishedCount := 0;
      dmpId := [];
      topics := map[];
      writers := map[];
      sent := [];
    }

    /**
     * `initialize`: a second call on an initialized publisher changes nothing. Otherwise the
     * DMP id is taken from the configuration, then the publisher entity and the table are
     * created; the publisher is initialized only when all of that succeeds.
     */
    method Initialize(configDmpId: string, mw: Middleware) returns (ok: bool)
      requires Valid()
      modifies this
      ensures Valid()
      ensures old(initialized) ==> ok && unchanged(this)
      ensures !old(initialized) ==>
        ok == InitSucceeds(mw) && initialized == ok && dmpId == configDmpId
        && topics == (if mw.publisherOk then SetupTable(old(topics), mw) else old(topics))
        && publishedCount == old(publishedCount) && sent == old(sent)
    {
      if initialized {
        return true;
      }
      dmpId := configDmpId;
      if !mw.publisherOk {
        return false;
      }
      ok := SetupTopicsAndWriters(mw);
      SetupConsistent(old(topics), mw);
      if !ok {
        return false;
      }
      InitSuccessTable(old(topics), mw);
      initialized := true;
    }

    /**
     * `setupTopicsAndWriters`: the four checked registrations, then a topic and a writer for
     * each table entry in order, stopping at the first failure with earlier entries kept.
     */
    method SetupTopicsAndWriters(mw: Middleware) returns (ok: bool)
      requires writers == topics
      modifies this
      ensures ok <==> RegistrationOk(mw) && SetupCount(mw) == |AllTopics|
      ensures topics == SetupTable(old(topics), mw) && writers == topics
      ensures initialized == old(initialized) && publishedCount == old(publishedCount)
      ensures dmpId == old(dmpId) && sent == old(sent)
    {
      if OrganizationTopic in mw.registerFails { return false; }
      if ProgramTopic in mw.registerFails { return false; }
      if ServiceTopic in mw.registerFails { return false; }
      if LocationTopic in mw.registerFails { return false; }
      ok := CreateTopicsAndWriters(mw, AllTopics);
    }

    /** The loop of `setupTopicsAndWriters` over a topic table, once the types are registered. */
    method CreateTopicsAndWriters(mw: Middleware, table: seq<Topic>) returns (ok: bool)
      requires writers == topics
      modifies this
      ensures ok <==> CreatedPrefix(mw, table) == |table|
      ensures topics == Install(old(topics), table[..CreatedPrefix(mw, table)]) && writers == topics
      ensures initialized == old(initialized) && publishedCount == old(publishedCount)
      ensures dmpId == old(dmpId) && sent == old(sent)
    {
      ghost var start := topics;
      for i := 0 to |table|
        invariant topics == Install(start, table[..i]) && writers == topics
        invariant i <= CreatedPrefix(mw, table)
        invariant initialized == old(initialized) && publishedCount == old(publishedCount) && dmpId == old(dmpId) && sent == old(sent)
      {
        var t := table[i];
        PrefixStep(mw, table, i);
        if t in mw.topicFails {
          return false;
        }
        if t in mw.writerFails {
          return false;
        }
        InstallSnoc(start, table, i);
        topics := topics[TopicName(t) := t];
        writers := writers[TopicName(t) := t];
      }
      return true;
    }

    /**
     * `shutdown`: nothing happens unless initialized; then both maps are emptied and the
     * publisher returns to its uninitialized state with a zero count.
     */
    method Shutdown()
      requires Valid()
      modifies this
      ensures Valid()
      ensures !old(initialized) ==> unchanged(this)
      ensures old(initialized) ==>
        !initialized && publishedCount == 0 && topics == map[] && writers == map[]
        && dmpId == old(dmpId) && sent == old(sent)
    {
      if !initialized {
        return;
      }
      writers := map[];
      topics := map[];
      initialized := false;
      publishedCount := 0;
    }

    /**
     * `publishData`: no writer for the name gives false. The write itself is attempted only
     * on the Organization topic (narrowing succeeds only on its writer); any other topic
     * keeps the error return code. A success is counted.
     */
    method PublishData(topicName: string, data: Record, writeOk: bool) returns (ok: bool)
      requires Valid() && TopicName(TopicOf(data)) == topicName
      modifies this
      ensures Valid()
      ensures ok <==> topicName in writers && topicName == TopicName(OrganizationTopic) && writeOk
      ensures publishedCount == old(publishedCount) + (if ok then 1 else 0)
      ensures sent == old(sent) + (if ok then [data] else [])
      ensures initialized == old(initialized) && dmpId == old(dmpId)
      ensures topics == old(topics) && writers == old(writers)
    {
      if topicName !in writers {
        return false;
      }
      TopicNameInjective(TopicOf(data), OrganizationTopic);
      var written := false;
      if topicName == TopicName(OrganizationTopic) {
        var narrowed := writers[topicName] == OrganizationTopic;
        if narrowed {
          written := writeOk;
        }
      }
      if !written {
        return false;
      }
      publishedCount := publishedCount + 1;
      sent := sent + [data];
      return true;
    }

    /**
     * The 24 `publishX` methods: the record is copied, the copy is stamped with this
     * publisher's DMP id, and the copy is passed to `publishData` on the record's topic.
     * Only an Organization record can be written.
     */
    method Publish(r: Record, writeOk: bool) returns (ok: bool)
      requires Valid()
      modifies this
      ensures Valid()
      ensures ok <==> TopicOf(r) == OrganizationTopic && TopicName(OrganizationTopic) in writers && writeOk
      ensures publishedCount == old(publishedCount) + (if ok then 1 else 0)
      ensures sent == old(sent) + (if ok then [Inject(r, dmpId)] else [])
      ensures initialized == old(initialized) && dmpId == old(dmpId)
      ensures topics == old(topics) && writers == old(writers)
    {
      var local := Inject(r, dmpId);
      var name := TopicName(TopicOf(r));
      TopicNameInjective(TopicOf(r), OrganizationTopic);
      ok := PublishData(name, local, writeOk);
    }
  }
}
