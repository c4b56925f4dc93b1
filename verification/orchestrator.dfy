/**
 * The orchestrator's pipeline: keyword-based task detection over the
 * lower-cased case text, the workflow mapping tasks to agents, the per-agent outcome
 * recording, the aggregation of agent outputs into counts, a mean
 * confidence, prefixed actions and a one-line summary, and the whole run
 * from case text to result dict with its attorney brief.
 */
module Orchestrator {
  import opened Outcomes
  import opened Text
  import opened Json
  import opened Seqs
  import opened Patterns
  import Brief
  import ContextEnricher

  // ---------------------------------------------------------------------
  // Task detection
  // ---------------------------------------------------------------------

  /** The five task categories, in the order the detector declares them. */
  datatype Category = RecordsAnalysis | ClientCommunication | LegalResearch | Scheduling | EvidenceOrganization
  {
    function Name(): string {
      match this
      case RecordsAnalysis => "records_analysis"
      case ClientCommunication => "client_communication"
      case LegalResearch => "legal_research"
      case Scheduling => "scheduling"
      case EvidenceOrganization => "evidence_organization"
    }

    /** Position in the declaration order. */
    function Index(): nat {
      match this
      case RecordsAnalysis => 0
      case ClientCommunication => 1
      case LegalResearch => 2
      case Scheduling => 3
      case EvidenceOrganization => 4
    }
  }

  const Categories: seq<Category> :=
    [RecordsAnalysis, ClientCommunication, LegalResearch, Scheduling, EvidenceOrganization]

  datatype Priority = Low | Medium | High
  {
    function Name(): string {
      match this
      case Low => "low"
      case Medium => "medium"
      case High => "high"
    }

    /** `priority_order` */
    function Rank(): nat {
      match this
      case Low => 1
      case Medium => 2
      case High => 3
    }
  }

  function CategoryPriority(c: Category): Priority {
    match c
    case RecordsAnalysis => High
    case ClientCommunication => High
    case LegalResearch => Medium
    case Scheduling => Medium
    case EvidenceOrganization => Low
  }

  /** The keyword patterns of each category, in declaration order. */
  function Keywords(c: Category): (r: seq<Pattern>)
    ensures |r| > 0
  {
    match c
    case RecordsAnalysis => [
      Near("missing", "record"), Near("incomplete", "record"), Near("duplicate", "record"),
      Near("need", "record"), Near("awaiting", "record"), Near("not", "received"),
      Near("outstanding", "record"), Near("pending", "record")]
    case ClientCommunication => [
      Near("client", "anxious"), Near("client", "worried"), Near("client", "called"),
      Near("client", "concerned"), Near("reassure", "client"), Near("update", "client"),
      Pattern("client", [Segment(AnyOnLine, "follow"), Segment(AtMostOne, "up")]),
      Near("client", "needs")]
    case LegalResearch => [
      Near("legal", "issue"), Word("precedent"), Near("case", "law"), Word("statute"),
      Near("legal", "research"), Near("legal", "question"), Word("jurisdiction"),
      Word("verdict"), Word("ruling"), Near("legal", "basis")]
    case Scheduling => [
      Near("schedule", "call"), Near("schedule", "meeting"), Near("contact", "witness"),
      Near("call", "needed"), Pattern("follow", [Segment(AtMostOne, "up"), Segment(AnyOnLine, "call")]),
      Word("appointment"), Word("deposition"), Near("interview", "witness"), Near("phone", "number")]
    case EvidenceOrganization => [
      Word("evidence"), Word("exhibit"), Near("document", "inventory"), Word("photo"),
      Near("medical", "bill"), Near("police", "report"), Near("witness", "statement"),
      Near("classify", "document"), Near("organize", "evidence")]
  }

  datatype DetectedTask = DetectedTask(category: Category, priority: Priority, matchCount: nat, confidence: real)

  /** `min(a, b)` on reals. */
  function Min(a: real, b: real): real {
    if a <= b then a else b
  }

  /** A task recorded for a category whose patterns hit `m` times. */
  function HitTask(c: Category, m: nat): DetectedTask {
    DetectedTask(c, CategoryPriority(c), m, Min(m as real / |Keywords(c)| as real, 1.0))
  }

  /** The two tasks substituted when nothing is detected. */
  const FallbackTasks: seq<DetectedTask> := [
    DetectedTask(RecordsAnalysis, Medium, 0, 0.5),
    DetectedTask(EvidenceOrganization, Low, 0, 0.5)]

  /** The indices of the patterns that are found in `t`. */
  function MatchingIndices(t: string, pats: seq<Pattern>): set<nat> {
    set i: nat | i < |pats| && Search(t, pats[i])
  }

  /** How many of `pats` are found in `t`, each counted once. */
  function CountMatches(t: string, pats: seq<Pattern>): (r: nat)
    ensures r == |MatchingIndices(t, pats)|
    ensures r <= |pats|
  {
    if pats == [] then
      assert MatchingIndices(t, pats) == {};
      0
    else
      var n := |pats| - 1;
      MatchingStep(t, pats);
      CountMatches(t, pats[..n]) + (if Search(t, pats[n]) then 1 else 0)
  }

  /** The last pattern adds its own index when it is found, and no other. */
  lemma MatchingStep(t: string, pats: seq<Pattern>)
    requires pats != []
    ensures var n := |pats| - 1;
      |MatchingIndices(t, pats)| == |MatchingIndices(t, pats[..n])| + (if Search(t, pats[n]) then 1 else 0)
  {
    var n := |pats| - 1;
    assert MatchingIndices(t, pats) ==
      MatchingIndices(t, pats[..n]) + (if Search(t, pats[n]) then {n} else {}) by {
      assert forall i :: 0 <= i < n ==> pats[..n][i] == pats[i];
    }
    assert n !in MatchingIndices(t, pats[..n]);
  }

  /** One task per category of `cats` with at least one hit, in the order of `cats`. */
  function Hits(t: string, cats: seq<Category>): seq<DetectedTask> {
    if cats == [] then []
    else
      var c := cats[|cats| - 1];
      var m := CountMatches(t, Keywords(c));
      Hits(t, cats[..|cats| - 1]) + (if m > 0 then [HitTask(c, m)] else [])
  }

  lemma HitsStep(t: string, cats: seq<Category>, i: nat)
    requires i < |cats|
    ensures Hits(t, cats[..i + 1]) == Hits(t, cats[..i]) +
      (if CountMatches(t, Keywords(cats[i])) > 0 then [HitTask(cats[i], CountMatches(t, Keywords(cats[i])))] else [])
  {
    assert cats[..i + 1][..i] == cats[..i];
  }

  /** The sort key `(priority_order[priority], match_count)`. */
  function TaskKey(task: DetectedTask): Key {
    Key(task.priority.Rank() as real, task.matchCount)
  }

  function CategoryIndex(task: DetectedTask): int {
    task.category.Index()
  }

  /** The hit tasks of the lower-cased text `t`, sorted. */
  function Ranked(t: string): seq<DetectedTask> {
    SortDesc(Hits(t, Categories), TaskKey)
  }

  /** What `_detect_tasks` returns for `text`. */
  function Detect(text: string): (r: seq<DetectedTask>)
    ensures |r| >= 1
  {
    var sorted := Ranked(Lower(text));
    if sorted == [] then FallbackTasks else sorted
  }

  /** `_detect_tasks`: counts the hits of each category, sorts, falls back. */
  method DetectTasks(text: string) returns (tasks: seq<DetectedTask>)
    ensures tasks == Detect(text)
  {
    var lower := Lower(text);
    tasks := [];
    for ci := 0 to |Categories|
      invariant tasks == Hits(lower, Categories[..ci])
    {
      var c := Categories[ci];
      var matches := CountPatterns(lower, Keywords(c));
      if matches > 0 {
        tasks := tasks + [HitTask(c, matches)];
      }
      HitsStep(lower, Categories, ci);
    }
    TakeAll(Categories);
    tasks := SortDesc(tasks, TaskKey);
    if tasks == [] {
      tasks := FallbackTasks;
    }
  }

  /** The inner loop of `_detect_tasks`: how many of `patterns` are found in `t`. */
  method CountPatterns(t: string, patterns: seq<Pattern>) returns (matches: nat)
    ensures matches == CountMatches(t, patterns)
  {
    matches := 0;
    for k := 0 to |patterns|
      invariant matches == CountMatches(t, patterns[..k])
    {
      if Search(t, patterns[k]) {
        matches := matches + 1;
      }
      assert patterns[..k + 1][..k] == patterns[..k];
    }
    TakeAll(patterns);
  }

  /** Every element of `Hits` is the hit task of one of `cats`, with its true count. */
  lemma {:induction false} HitsFaithful(t: string, cats: seq<Category>)
    ensures forall task :: task in Hits(t, cats) ==>
      task.category in cats && CountMatches(t, Keywords(task.category)) > 0 &&
      task == HitTask(task.category, CountMatches(t, Keywords(task.category)))
    ensures forall c :: c in cats && CountMatches(t, Keywords(c)) > 0 ==>
      HitTask(c, CountMatches(t, Keywords(c))) in Hits(t, cats)
  {
    if cats != [] {
      var n := |cats| - 1;
      HitsFaithful(t, cats[..n]);
      assert cats == cats[..n] + [cats[n]];
    }
  }

  /** Every task in `Hits` carries one of `cats`. */
  lemma {:induction false} HitsFrom(t: string, cats: seq<Category>)
    ensures forall i :: 0 <= i < |Hits(t, cats)| ==> Hits(t, cats)[i].category in cats
  {
    if cats != [] {
      var n := |cats| - 1;
      var prev := Hits(t, cats[..n]);
      var m := CountMatches(t, Keywords(cats[n]));
      HitsFrom(t, cats[..n]);
      var extra: seq<DetectedTask> := if m > 0 then [HitTask(cats[n], m)] else [];
      assert Hits(t, cats) == prev + extra;
      forall i | 0 <= i < |prev + extra|
        ensures (prev + extra)[i].category in cats
      {
        if i < |prev| {
          assert (prev + extra)[i] == prev[i];
          assert prev[i].category in cats[..n];
        } else {
          assert (prev + extra)[i].category == cats[n];
        }
      }
    }
  }

  /** `Hits` lists categories in the order of `cats`. */
  lemma {:induction false} HitsOrdered(t: string, cats: seq<Category>)
    requires forall i, j :: 0 <= i < j < |cats| ==> cats[i].Index() < cats[j].Index()
    ensures forall i, j :: 0 <= i < j < |Hits(t, cats)| ==>
      CategoryIndex(Hits(t, cats)[i]) < CategoryIndex(Hits(t, cats)[j])
  {
    if cats != [] {
      var n := |cats| - 1;
      var prev := Hits(t, cats[..n]);
      var m := CountMatches(t, Keywords(cats[n]));
      var extra: seq<DetectedTask> := if m > 0 then [HitTask(cats[n], m)] else [];
      assert Hits(t, cats) == prev + extra;
      assert forall i, j :: 0 <= i < j < |prev| ==> CategoryIndex(prev[i]) < CategoryIndex(prev[j]) by {
        HitsOrdered(t, cats[..n]);
      }
      assert forall i :: 0 <= i < |prev| ==> CategoryIndex(prev[i]) < cats[n].Index() by {
        HitsFrom(t, cats[..n]);
        forall i | 0 <= i < |prev|
          ensures CategoryIndex(prev[i]) < cats[n].Index()
        {
          var k :| 0 <= k < n && cats[..n][k] == prev[i].category;
          assert cats[k] == prev[i].category;
        }
      }
      IndexedAppend(prev, extra, cats[n].Index());
    }
  }

  /** Tasks in increasing category order, then at most one task of a later category. */
  lemma IndexedAppend(prev: seq<DetectedTask>, extra: seq<DetectedTask>, bound: int)
    requires forall i, j :: 0 <= i < j < |prev| ==> CategoryIndex(prev[i]) < CategoryIndex(prev[j])
    requires forall i :: 0 <= i < |prev| ==> CategoryIndex(prev[i]) < bound
    requires |extra| <= 1 && forall j :: 0 <= j < |extra| ==> CategoryIndex(extra[j]) == bound
    ensures forall i, j :: 0 <= i < j < |prev + extra| ==>
      CategoryIndex((prev + extra)[i]) < CategoryIndex((prev + extra)[j])
  {
    forall i, j | 0 <= i < j < |prev + extra|
      ensures CategoryIndex((prev + extra)[i]) < CategoryIndex((prev + extra)[j])
    {
      assert (prev + extra)[i] == prev[i];
      if j >= |prev| {
        assert (prev + extra)[j] == extra[0];
      } else {
        assert (prev + extra)[j] == prev[j];
      }
    }
  }

  lemma EveryCategory(c: Category)
    ensures c in Categories
  {
    assert Categories[c.Index()] == c;
  }

  /** Some pattern of `c` is found in `t`. */
  predicate HasHit(t: string, c: Category) {
    CountMatches(t, Keywords(c)) > 0
  }

  /** The sorted hit tasks are exactly the hit tasks of the categories with a hit. */
  lemma RankedMembers(t: string)
    ensures forall task :: task in Ranked(t) ==>
      HasHit(t, task.category) && task == HitTask(task.category, CountMatches(t, Keywords(task.category)))
    ensures forall c :: HasHit(t, c) ==> HitTask(c, CountMatches(t, Keywords(c))) in Ranked(t)
  {
    var hits := Hits(t, Categories);
    HitsFaithful(t, Categories);
    forall task | task in Ranked(t)
      ensures task in hits
    {
      assert task in multiset(Ranked(t));
    }
    forall c | HasHit(t, c)
      ensures HitTask(c, CountMatches(t, Keywords(c))) in Ranked(t)
    {
      EveryCategory(c);
      assert HitTask(c, CountMatches(t, Keywords(c))) in multiset(hits);
    }
  }

  /**
   * The two-task default is returned exactly when no pattern of any category
   * is found in the lower-cased text.
   */
  lemma DetectFallback(text: string)
    ensures Detect(text) == FallbackTasks <==> forall c :: !HasHit(Lower(text), c)
  {
    var t := Lower(text);
    var ranked := Ranked(t);
    RankedMembers(t);
    if ranked != [] {
      assert ranked[0] in ranked;
      assert ranked[0].matchCount > 0;
      assert ranked != FallbackTasks;
    }
  }

  /**
   * Outside the fallback, the detected tasks are exactly the hit tasks of the
   * categories with at least one hit, each listed once: its match count lies
   * between 1 and the number of its patterns and its confidence is that
   * count divided by the number of patterns, in (0, 1].
   */
  lemma DetectTasksCounted(text: string)
    requires exists c :: HasHit(Lower(text), c)
    ensures forall task :: task in Detect(text) ==>
      task.matchCount == CountMatches(Lower(text), Keywords(task.category)) &&
      1 <= task.matchCount <= |Keywords(task.category)| &&
      task.priority == CategoryPriority(task.category) &&
      task.confidence == task.matchCount as real / |Keywords(task.category)| as real &&
      0.0 < task.confidence <= 1.0
    ensures forall c :: HasHit(Lower(text), c) <==> exists task :: task in Detect(text) && task.category == c
    ensures forall i, j :: 0 <= i < j < |Detect(text)| ==> Detect(text)[i].category != Detect(text)[j].category
  {
    var t := Lower(text);
    var d := Ranked(t);
    RankedMembers(t);
    var c0 :| HasHit(t, c0);
    assert HitTask(c0, CountMatches(t, Keywords(c0))) in d;
    assert Detect(text) == d;
    forall task | task in d
      ensures 1 <= task.matchCount <= |Keywords(task.category)|
      ensures task.confidence == task.matchCount as real / |Keywords(task.category)| as real
      ensures 0.0 < task.confidence <= 1.0
    {
      ConfidenceRatio(task.matchCount, |Keywords(task.category)|);
    }
    forall c | HasHit(t, c)
      ensures exists task :: task in d && task.category == c
    {
      assert HitTask(c, CountMatches(t, Keywords(c))) in d;
    }
    RankedDistinct(t);
  }

  lemma ConfidenceRatio(m: nat, n: nat)
    requires 1 <= m <= n
    ensures Min(m as real / n as real, 1.0) == m as real / n as real
    ensures 0.0 < m as real / n as real <= 1.0
  {
  }

  /** The categories are listed in increasing declaration order. */
  lemma CategoriesOrdered()
    ensures forall i, j :: 0 <= i < j < |Categories| ==> Categories[i].Index() < Categories[j].Index()
  {
  }

  /** The sorted hit tasks are ordered by key, ties broken by declaration order. */
  lemma RankedOrdered(t: string)
    ensures RankedDesc(Ranked(t), TaskKey, CategoryIndex)
  {
    var hits := Hits(t, Categories);
    assert forall i, j :: 0 <= i < j < |hits| ==> CategoryIndex(hits[i]) < CategoryIndex(hits[j]) by {
      CategoriesOrdered();
      HitsOrdered(t, Categories);
    }
    SortRanked(hits, TaskKey, CategoryIndex);
  }

  /** No category is listed twice among the sorted hit tasks. */
  lemma RankedDistinct(t: string)
    ensures forall i, j :: 0 <= i < j < |Ranked(t)| ==> Ranked(t)[i].category != Ranked(t)[j].category
  {
    var d := Ranked(t);
    RankedOrdered(t);
    RankedMembers(t);
    forall i, j | 0 <= i < j < |d|
      ensures d[i].category != d[j].category
    {
      assert d[i] in d && d[j] in d;
    }
  }

  /**
   * The result is sorted by priority rank, then match count, both
   * descending; ties keep category declaration order. The fallback satisfies
   * the same ordering.
   */
  lemma DetectOrdered(text: string)
    ensures RankedDesc(Detect(text), TaskKey, CategoryIndex)
  {
    if Ranked(Lower(text)) != [] {
      RankedOrdered(Lower(text));
    } else {
      FallbackOrdered();
    }
  }

  /** Records analysis at medium priority comes before evidence organisation at low. */
  lemma FallbackOrdered()
    ensures RankedDesc(FallbackTasks, TaskKey, CategoryIndex)
  {
    assert |FallbackTasks| == 2;
    assert TaskKey(FallbackTasks[0]) == Key(2.0, 0) && TaskKey(FallbackTasks[1]) == Key(1.0, 0);
  }

  // ---------------------------------------------------------------------
  // Workflow
  // ---------------------------------------------------------------------

  datatype Agent = RecordsWrangler | CommunicationGuru | LegalResearcher | VoiceBotScheduler | EvidenceSorter
  {
    function Name(): string {
      match this
      case RecordsWrangler => "records_wrangler"
      case CommunicationGuru => "communication_guru"
      case LegalResearcher => "legal_researcher"
      case VoiceBotScheduler => "voice_bot_scheduler"
      case EvidenceSorter => "evidence_sorter"
    }
  }

  /** `task_to_agent` */
  function AgentFor(c: Category): Agent {
    match c
    case RecordsAnalysis => RecordsWrangler
    case ClientCommunication => CommunicationGuru
    case LegalResearch => LegalResearcher
    case Scheduling => VoiceBotScheduler
    case EvidenceOrganization => EvidenceSorter
  }

  datatype WorkflowEntry = WorkflowEntry(agent: Agent, task: DetectedTask, priority: Priority)

  function EntryFor(task: DetectedTask): WorkflowEntry {
    WorkflowEntry(AgentFor(task.category), task, task.priority)
  }

  function EntryAgent(e: WorkflowEntry): Agent {
    e.agent
  }

  /** One entry per task, in task order, before duplicates are removed. */
  function Entries(tasks: seq<DetectedTask>): (r: seq<WorkflowEntry>)
    ensures |r| == |tasks|
    ensures forall i :: 0 <= i < |tasks| ==> r[i] == EntryFor(tasks[i])
  {
    seq(|tasks|, i requires 0 <= i < |tasks| => EntryFor(tasks[i]))
  }

  /** The workflow `_create_workflow` builds for `tasks`. */
  function Workflow(tasks: seq<DetectedTask>): (r: seq<WorkflowEntry>)
    ensures r == [] <==> tasks == []
  {
    var r := DedupBy(Entries(tasks), EntryAgent);
    assert tasks != [] ==> EntryAgent(Entries(tasks)[0]) in KeysOf(Entries(tasks), EntryAgent);
    r
  }

  /**
   * `_create_workflow`: maps each task to its agent, then keeps the first
   * entry for each agent through a `seen` set.
   */
  method CreateWorkflow(tasks: seq<DetectedTask>) returns (unique: seq<WorkflowEntry>)
    ensures unique == Workflow(tasks)
  {
    var workflow: seq<WorkflowEntry> := [];
    for i := 0 to |tasks|
      invariant workflow == Entries(tasks[..i])
    {
      workflow := workflow + [EntryFor(tasks[i])];
    }
    assert tasks[..|tasks|] == tasks;
    var seen: set<Agent> := {};
    unique := [];
    for i := 0 to |workflow|
      invariant unique == DedupBy(workflow[..i], EntryAgent)
      invariant seen == KeysOf(unique, EntryAgent)
    {
      var item := workflow[i];
      assert workflow[..i + 1] == workflow[..i] + [item];
      assert workflow[..i + 1][..i] == workflow[..i];
      if item.agent !in seen {
        seen := seen + {item.agent};
        KeysOfAppend(unique, item, EntryAgent);
        unique := unique + [item];
      }
    }
    assert workflow[..|workflow|] == workflow;
  }

  /** The workflow's agents are exactly the agents of its tasks. */
  lemma WorkflowAgents(tasks: seq<DetectedTask>)
    ensures KeysOf(Workflow(tasks), EntryAgent) == set t | t in tasks :: AgentFor(t.category)
  {
    var es := Entries(tasks);
    forall a | a in KeysOf(es, EntryAgent)
      ensures a in set t | t in tasks :: AgentFor(t.category)
    {
      var k :| 0 <= k < |es| && EntryAgent(es[k]) == a;
      assert tasks[k] in tasks;
    }
    forall t | t in tasks
      ensures AgentFor(t.category) in KeysOf(es, EntryAgent)
    {
      var k :| 0 <= k < |tasks| && tasks[k] == t;
      assert EntryAgent(es[k]) == AgentFor(t.category);
    }
  }

  /** No agent appears twice in a workflow. */
  lemma WorkflowDistinct(tasks: seq<DetectedTask>)
    ensures forall i, j :: 0 <= i < j < |Workflow(tasks)| ==> Workflow(tasks)[i].agent != Workflow(tasks)[j].agent
  {
    DedupDistinct(Entries(tasks), EntryAgent);
  }

  /** `tasks[k]` is what `e` holds, and no earlier task maps to the agent of `e`. */
  predicate FirstTaskFor(tasks: seq<DetectedTask>, k: int, e: WorkflowEntry) {
    0 <= k < |tasks| && tasks[k] == e.task &&
    forall k' :: 0 <= k' < k ==> AgentFor(tasks[k'].category) != e.agent
  }

  /**
   * Each workflow entry is built from the first task that maps to its
   * agent and carries that task's priority; entries keep the order of those
   * first tasks.
   */
  lemma WorkflowFirstTasks(tasks: seq<DetectedTask>)
    ensures forall e :: e in Workflow(tasks) ==>
      e.priority == e.task.priority && e.agent == AgentFor(e.task.category) &&
      (exists k :: FirstTaskFor(tasks, k, e))
    ensures forall i, j :: 0 <= i < j < |Workflow(tasks)| ==>
      FirstIndex(Entries(tasks), EntryAgent, Workflow(tasks)[i].agent) <
      FirstIndex(Entries(tasks), EntryAgent, Workflow(tasks)[j].agent)
  {
    var es := Entries(tasks);
    var wf := Workflow(tasks);
    DedupFirstInOrder(es, EntryAgent);
    forall e | e in wf
      ensures e.priority == e.task.priority && e.agent == AgentFor(e.task.category)
      ensures exists k :: FirstTaskFor(tasks, k, e)
    {
      var m :| 0 <= m < |wf| && wf[m] == e;
      var k := FirstIndex(es, EntryAgent, EntryAgent(wf[m]));
      assert es[k] == e;
      forall k' | 0 <= k' < k
        ensures AgentFor(tasks[k'].category) != e.agent
      {
        assert EntryAgent(es[k']) != e.agent;
      }
      assert FirstTaskFor(tasks, k, e);
    }
  }

  // ---------------------------------------------------------------------
  // Agent execution
  // ---------------------------------------------------------------------

  /** How an agent's run ended: its returned dict, an exception, or the 60-second timeout. */
  datatype AgentResult = Success(payload: Obj) | Failed(message: string) | TimedOut

  /** The `task_context` dict handed to an agent. */
  datatype TaskContext = TaskContext(taskType: string, priority: string, context: string)

  function ContextFor(e: WorkflowEntry): TaskContext {
    TaskContext(e.task.category.Name(), e.task.priority.Name(),
      "Detected from case analysis with " + NatToString(e.task.matchCount) + " indicators")
  }

  /** An `agent_outputs` entry. */
  datatype Output = Output(agent: Agent, data: Obj)

  /** `_execute_single_agent`: the dict recorded for one agent's outcome. */
  function Stamp(a: Agent, result: AgentResult): (o: Obj)
    ensures Get(o, "agent_name", JNull) == JStr(a.Name())
    ensures Get(o, "status", JNull) == JStr("success") <==> result.Success?
    ensures !result.Success? ==> Get(o, "status", JNull) == JStr("agent_unavailable") && Get(o, "error", JNull).JStr?
    ensures result.Success? ==> forall k :: k in result.payload && k != "agent_name" && k != "status" ==>
      k in o && o[k] == result.payload[k]
  {
    match result
    case Success(payload) => payload["agent_name" := JStr(a.Name())]["status" := JStr("success")]
    case TimedOut => map[
      "status" := JStr("agent_unavailable"),
      "error" := JStr("Agent execution timed out"),
      "agent_name" := JStr(a.Name())]
    case Failed(message) => map[
      "status" := JStr("agent_unavailable"),
      "error" := JStr(message),
      "agent_name" := JStr(a.Name())]
  }

  function AgentsOf(outs: seq<Output>): set<Agent> {
    set i | 0 <= i < |outs| :: outs[i].agent
  }

  lemma AgentsOfCons(x: Output, rest: seq<Output>)
    ensures AgentsOf([x] + rest) == {x.agent} + AgentsOf(rest)
  {
    var s := [x] + rest;
    assert s[0] == x;
    assert forall i :: 0 <= i < |rest| ==> s[i + 1] == rest[i];
    forall a | a in AgentsOf(s)
      ensures a in {x.agent} + AgentsOf(rest)
    {
      var i :| 0 <= i < |s| && s[i].agent == a;
      if i > 0 {
        assert rest[i - 1].agent == a;
      }
    }
  }

  /** `agent_outputs[a] = o` on an insertion-ordered dict. */
  function Put(outs: seq<Output>, a: Agent, o: Obj): (r: seq<Output>)
    ensures AgentsOf(r) == AgentsOf(outs) + {a}
    ensures a !in AgentsOf(outs) ==> r == outs + [Output(a, o)]
  {
    if outs == [] then
      assert AgentsOf([Output(a, o)]) == {a} by { AgentsOfCons(Output(a, o), []); }
      [Output(a, o)]
    else
      assert outs == [outs[0]] + outs[1..];
      AgentsOfCons(outs[0], outs[1..]);
      if outs[0].agent == a then
        AgentsOfCons(Output(a, o), outs[1..]);
        [Output(a, o)] + outs[1..]
      else
        var rest := Put(outs[1..], a, o);
        AgentsOfCons(outs[0], rest);
        [outs[0]] + rest
  }

  /** The outputs recorded after running the first entries of a workflow, in order. */
  function Recorded(text: string, wf: seq<WorkflowEntry>, run: (Agent, string, TaskContext) -> AgentResult): (r: seq<Output>)
    ensures AgentsOf(r) == set i | 0 <= i < |wf| :: wf[i].agent
  {
    if wf == [] then []
    else
      var e := wf[|wf| - 1];
      Put(Recorded(text, wf[..|wf| - 1], run), e.agent, Stamp(e.agent, run(e.agent, text, ContextFor(e))))
  }

  /**
   * `_execute_agents`: runs every workflow agent on the case text with its
   * task context and records the stamped outcome under the agent's name.
   */
  method ExecuteAgents(text: string, wf: seq<WorkflowEntry>, run: (Agent, string, TaskContext) -> AgentResult)
    returns (outs: seq<Output>)
    ensures outs == Recorded(text, wf, run)
  {
    outs := [];
    for i := 0 to |wf|
      invariant outs == Recorded(text, wf[..i], run)
    {
      var e := wf[i];
      var result := run(e.agent, text, ContextFor(e));
      assert wf[..i + 1][..i] == wf[..i];
      outs := Put(outs, e.agent, Stamp(e.agent, result));
    }
    assert wf[..|wf|] == wf;
  }

  /**
   * With distinct agents (as every workflow has), each workflow entry gets
   * exactly one output, at its own position: `"success"` exactly for the
   * runs that returned, `"agent_unavailable"` with an error otherwise.
   */
  lemma {:induction false} RecordedPerAgent(text: string, wf: seq<WorkflowEntry>, run: (Agent, string, TaskContext) -> AgentResult)
    requires forall i, j :: 0 <= i < j < |wf| ==> wf[i].agent != wf[j].agent
    ensures |Recorded(text, wf, run)| == |wf|
    ensures forall i :: 0 <= i < |wf| ==>
      Recorded(text, wf, run)[i] == Output(wf[i].agent, Stamp(wf[i].agent, run(wf[i].agent, text, ContextFor(wf[i]))))
  {
    if wf != [] {
      var n := |wf| - 1;
      var prev := Recorded(text, wf[..n], run);
      RecordedPerAgent(text, wf[..n], run);
      assert wf[n].agent !in AgentsOf(prev);
      forall i | 0 <= i < n
        ensures prev[i].agent != wf[n].agent
      {
      }
    }
  }

  /** The outputs of a workflow say `"success"` exactly for the agents whose run returned. */
  lemma WorkflowRecorded(text: string, tasks: seq<DetectedTask>, run: (Agent, string, TaskContext) -> AgentResult)
    ensures |Recorded(text, Workflow(tasks), run)| == |Workflow(tasks)|
    ensures forall i :: 0 <= i < |Workflow(tasks)| ==>
      var e := Workflow(tasks)[i];
      Recorded(text, Workflow(tasks), run)[i].agent == e.agent &&
      (Get(Recorded(text, Workflow(tasks), run)[i].data, "status", JNull) == JStr("success") <==>
        run(e.agent, text, ContextFor(e)).Success?)
  {
    WorkflowDistinct(tasks);
    RecordedPerAgent(text, Workflow(tasks), run);
  }

  // ---------------------------------------------------------------------
  // Aggregation
  // ---------------------------------------------------------------------

  /** An output not marked `"agent_unavailable"`. */
  predicate Available(o: Obj) {
    Get(o, "status", JNull) != JStr("agent_unavailable")
  }

  /** How many outputs are available. */
  function CountAvailable(outs: seq<Output>): (r: nat)
    ensures r <= |outs|
  {
    if outs == [] then 0
    else CountAvailable(outs[..|outs| - 1]) + (if Available(outs[|outs| - 1].data) then 1 else 0)
  }

  /** A recommended action attributed to the agent whose output produced it. */
  datatype Action = Action(agent: Agent, text: string)
  {
    /** `f"[{agent_name}] {text}"` */
    function Line(): (r: string)
      ensures StartsWith(r, "[" + agent.Name() + "] ")
    {
      assert ("[" + agent.Name() + "] ") + text == "[" + agent.Name() + "] " + text;
      "[" + agent.Name() + "] " + text
    }
  }

  /** The `recommended_action` entry of one output, if any. */
  function ActionEntry(a: Agent, o: Obj): (r: Result<seq<Action>>)
    ensures r.Err? <==> "recommended_action" in o && Truthy(o["recommended_action"]) && !o["recommended_action"].JStr?
    ensures r.Ok? ==> |r.value| <= 1
    ensures r.Ok? ==> (r.value != [] <==> "recommended_action" in o && o["recommended_action"].JStr? && Strip(o["recommended_action"].s) != "")
    ensures r.Ok? && r.value != [] ==>
      ("recommended_action" in o && o["recommended_action"].JStr? && r.value == [Action(a, o["recommended_action"].s)])
  {
    if "recommended_action" !in o then Ok([])
    else
      var action := o["recommended_action"];
      if !Truthy(action) then Ok([])
      else if !action.JStr? then Err(NoAttribute(action, "strip"))
      else if Strip(action.s) == "" then Ok([])
      else Ok([Action(a, action.s)])
  }

  /** The agent-specific extra entry of one output, if any. */
  function ExtraEntry(a: Agent, o: Obj): (r: Result<seq<Action>>)
    ensures r.Err? <==>
      (a == RecordsWrangler && "missing_records" in o && Truthy(o["missing_records"]) && Len(o["missing_records"]).Err?)
    ensures r.Ok? ==> |r.value| <= 1 && forall k :: 0 <= k < |r.value| ==> r.value[k].agent == a
    ensures r.Ok? ==> (r.value != [] <==>
      (a == CommunicationGuru && "message_draft" in o) ||
      (a == RecordsWrangler && "missing_records" in o && Truthy(o["missing_records"])) ||
      (a == VoiceBotScheduler && "call_script" in o))
  {
    match a
    case CommunicationGuru =>
      Ok(if "message_draft" in o then [Action(a, "Send drafted message to client")] else [])
    case RecordsWrangler =>
      if "missing_records" in o && Truthy(o["missing_records"]) then
        match Len(o["missing_records"])
        case Ok(n) => Ok([Action(a, "Obtain " + NatToString(n) + " missing record(s)")])
        case Err(f) => Err(f)
      else Ok([])
    case VoiceBotScheduler =>
      Ok(if "call_script" in o then [Action(a, "Schedule call with " + Render(Get(o, "contact_name", JStr("contact"))))] else [])
    case _ => Ok([])
  }

  /** What one available output adds to `recommended_actions`. */
  function OutputActions(a: Agent, o: Obj): (r: Result<seq<Action>>)
    ensures r.Ok? ==> |r.value| <= 2 && forall k :: 0 <= k < |r.value| ==> r.value[k].agent == a
  {
    match ActionEntry(a, o)
    case Err(f) => Err(f)
    case Ok(first) =>
      match ExtraEntry(a, o)
      case Err(f) => Err(f)
      case Ok(extra) => Ok(first + extra)
  }

  /** The `confidence_score` an output contributes, if any. */
  function ScoreEntry(o: Obj): seq<Json> {
    if Available(o) && "confidence_score" in o then [o["confidence_score"]] else []
  }

  /** The `confidence_score` values of the available outputs that carry one, in order. */
  function Scores(outs: seq<Output>): seq<Json> {
    if outs == [] then [] else Scores(outs[..|outs| - 1]) + ScoreEntry(outs[|outs| - 1].data)
  }

  datatype Collected = Collected(actions: seq<Action>, scores: seq<Json>)

  /** The loop of `_aggregate_results` over the outputs, up to the first exception. */
  function Collect(outs: seq<Output>): (r: Result<Collected>)
    ensures r.Ok? ==> |r.value.scores| <= CountAvailable(outs)
    ensures r.Err? ==> exists i :: 0 <= i < |outs| && Available(outs[i].data)
  {
    if outs == [] then Ok(Collected([], []))
    else
      var o := outs[|outs| - 1];
      match Collect(outs[..|outs| - 1])
      case Err(f) => Err(f)
      case Ok(acc) =>
        if !Available(o.data) then Ok(acc)
        else
          match OutputActions(o.agent, o.data)
          case Err(f) => Err(f)
          case Ok(acts) => Ok(Collected(acc.actions + acts, acc.scores + ScoreEntry(o.data)))
  }

  /**
   * `sum(values)`: numbers and booleans add up; anything else is a
   * TypeError naming the running total's type, `int` while only booleans
   * (or nothing) have been added.
   */
  function Sum(values: seq<Json>): (r: Result<real>)
    ensures r.Ok? <==> forall i :: 0 <= i < |values| ==> values[i].JNum? || values[i].JBool?
  {
    if values == [] then Ok(0.0)
    else
      var init := values[..|values| - 1];
      assert forall i :: 0 <= i < |init| ==> init[i] == values[i];
      match Sum(init)
      case Err(f) => Err(f)
      case Ok(total) =>
        match values[|values| - 1]
        case JNum(n) => Ok(total + n)
        case JBool(b) => Ok(total + if b then 1.0 else 0.0)
        case v =>
          var left := if forall i :: 0 <= i < |init| ==> init[i].JBool? then "int" else "float";
          Err(TypeError("unsupported operand type(s) for +: '" + left + "' and '" + TypeName(v) + "'"))
  }

  /** The mean of the scores, 0.0 for none. */
  function Mean(total: real, count: nat): real {
    if count == 0 then 0.0 else total / count as real
  }

  /** The case number and case type the summary reads from the case text. */
  datatype SummaryCaptures = SummaryCaptures(caseNumber: Option<string>, caseType: Option<string>)

  /** `agent_outputs.get(a)` */
  function Find(outs: seq<Output>, a: Agent): (r: Option<Obj>)
    ensures r.Some? ==> Output(a, r.value) in outs
    ensures r.None? ==> forall i :: 0 <= i < |outs| ==> outs[i].agent != a
  {
    if outs == [] then None
    else if outs[0].agent == a then Some(outs[0].data)
    else Find(outs[1..], a)
  }

  /** The count the summary reports for the list `key` of agent `a`, when its output is available. */
  function ListCount(outs: seq<Output>, a: Agent, key: string): Result<nat> {
    match Find(outs, a)
    case None => Ok(0)
    case Some(o) => if Available(o) then Len(Get(o, key, JArr([]))) else Ok(0)
  }

  function OrUnknown(v: Option<string>): string {
    if v.Some? then v.value else "Unknown"
  }

  /** The four parts every summary starts with. */
  function SummaryHead(caps: SummaryCaptures, tasks: seq<DetectedTask>, outs: seq<Output>): seq<string> {
    ["Case #" + OrUnknown(caps.caseNumber),
     "Type: " + OrUnknown(if caps.caseType.Some? then Some(Strip(caps.caseType.value)) else None),
     "Detected " + NatToString(|tasks|) + " actionable task(s)",
     "Analyzed by " + NatToString(CountAvailable(outs)) + " AI agent(s)"]
  }

  /** What `_generate_summary` returns. */
  function Summary(caps: SummaryCaptures, tasks: seq<DetectedTask>, outs: seq<Output>): (r: Result<string>)
    ensures r.Err? ==> r.fault.TypeError?
  {
    match ListCount(outs, RecordsWrangler, "missing_records")
    case Err(f) => Err(f)
    case Ok(missing) =>
      match ListCount(outs, EvidenceSorter, "evidence_summary")
      case Err(f) => Err(f)
      case Ok(evidence) =>
        Ok(Join(SummaryHead(caps, tasks, outs) +
          (if missing > 0 then [NatToString(missing) + " missing record(s) identified"] else []) +
          (if evidence > 0 then [NatToString(evidence) + " piece(s) of evidence classified"] else []), " | "))
  }

  /** `_generate_summary`: appends the parts one by one and joins them with `" | "`. */
  method GenerateSummary(caps: SummaryCaptures, tasks: seq<DetectedTask>, outs: seq<Output>)
    returns (r: Result<string>)
    ensures r == Summary(caps, tasks, outs)
  {
    var parts := SummaryHead(caps, tasks, outs);
    var records := Find(outs, RecordsWrangler);
    if records.Some? && Available(records.value) {
      var missingCount := Len(Get(records.value, "missing_records", JArr([])));
      if missingCount.Err? {
        return Err(missingCount.fault);
      }
      if missingCount.value > 0 {
        parts := parts + [NatToString(missingCount.value) + " missing record(s) identified"];
      }
    }
    ghost var afterRecords := parts;
    var evidence := Find(outs, EvidenceSorter);
    if evidence.Some? && Available(evidence.value) {
      var evidenceCount := Len(Get(evidence.value, "evidence_summary", JArr([])));
      if evidenceCount.Err? {
        return Err(evidenceCount.fault);
      }
      if evidenceCount.value > 0 {
        parts := parts + [NatToString(evidenceCount.value) + " piece(s) of evidence classified"];
      }
    }
    var missing := ListCount(outs, RecordsWrangler, "missing_records").value;
    var found := ListCount(outs, EvidenceSorter, "evidence_summary").value;
    assert afterRecords == SummaryHead(caps, tasks, outs) +
      (if missing > 0 then [NatToString(missing) + " missing record(s) identified"] else []);
    assert parts == afterRecords +
      (if found > 0 then [NatToString(found) + " piece(s) of evidence classified"] else []);
    r := Ok(Join(parts, " | "));
  }

  /** The aggregated result of a run. */
  datatype Aggregate = Aggregate(
    summary: string,
    detectedTasks: seq<DetectedTask>,
    agentOutputs: seq<Output>,
    recommendedActions: seq<Action>,
    overallConfidence: real,
    agentsExecuted: nat,
    agentsSuccessful: nat)

  /** What `_aggregate_results` returns, or the exception it raises. */
  function Aggregated(caps: SummaryCaptures, tasks: seq<DetectedTask>, outs: seq<Output>): (r: Result<Aggregate>)
    ensures Summary(caps, tasks, outs).Err? ==> r == Err(Summary(caps, tasks, outs).fault)
    ensures r.Ok? ==> r.value.detectedTasks == tasks && r.value.agentOutputs == outs
    ensures r.Ok? ==> r.value.agentsExecuted == |outs| && r.value.agentsSuccessful <= r.value.agentsExecuted
  {
    match Summary(caps, tasks, outs)
    case Err(f) => Err(f)
    case Ok(summary) =>
      match Collect(outs)
      case Err(f) => Err(f)
      case Ok(c) =>
        match Sum(c.scores)
        case Err(f) => Err(f)
        case Ok(total) =>
          Ok(Aggregate(summary, tasks, outs, c.actions, Mean(total, |c.scores|), |outs|, CountAvailable(outs)))
  }

  /**
   * `_aggregate_results`: builds the summary, then walks the outputs
   * collecting actions and confidence scores, then averages the scores.
   */
  method AggregateResults(caps: SummaryCaptures, tasks: seq<DetectedTask>, outs: seq<Output>)
    returns (r: Result<Aggregate>)
    ensures r == Aggregated(caps, tasks, outs)
  {
    var summary := GenerateSummary(caps, tasks, outs);
    if summary.Err? {
      return Err(summary.fault);
    }
    var actions: seq<Action> := [];
    var scores: seq<Json> := [];
    for i := 0 to |outs|
      invariant Collect(outs[..i]) == Ok(Collected(actions, scores))
    {
      var o := outs[i];
      assert outs[..i + 1][..i] == outs[..i];
      assert outs[..i + 1][i] == o;
      ghost var before := Collected(actions, scores);
      if Available(o.data) {
        if "confidence_score" in o.data {
          scores := scores + [o.data["confidence_score"]];
        }
        var acts := OutputActions(o.agent, o.data);
        if acts.Err? {
          CollectErrPersists(outs, i + 1);
          return Err(acts.fault);
        }
        actions := actions + acts.value;
        assert Collected(actions, scores) == Collected(before.actions + acts.value, before.scores + ScoreEntry(o.data));
      }
    }
    assert outs[..|outs|] == outs;
    var total := Sum(scores);
    if total.Err? {
      return Err(total.fault);
    }
    r := Ok(Aggregate(summary.value, tasks, outs, actions, Mean(total.value, |scores|), |outs|, CountAvailable(outs)));
  }

  /** Once the loop has raised, the rest of the outputs are not looked at. */
  lemma {:induction false} CollectErrPersists(outs: seq<Output>, j: nat)
    requires j <= |outs| && Collect(outs[..j]).Err?
    ensures Collect(outs) == Collect(outs[..j])
    decreases |outs| - j
  {
    if j == |outs| {
      assert outs[..j] == outs;
    } else {
      assert outs[..j + 1][..j] == outs[..j];
      CollectErrPersists(outs, j + 1);
    }
  }

  /** The collected scores are the scores of the available outputs, in order. */
  lemma {:induction false} CollectScores(outs: seq<Output>)
    requires Collect(outs).Ok?
    ensures Collect(outs).value.scores == Scores(outs)
  {
    if outs != [] {
      CollectScores(outs[..|outs| - 1]);
    }
  }

  /** One step of the loop: the last output adds its actions when it is available. */
  lemma CollectStep(outs: seq<Output>)
    requires outs != [] && Collect(outs).Ok?
    ensures var o := outs[|outs| - 1];
      Collect(outs[..|outs| - 1]).Ok? &&
      (Available(o.data) ==> (OutputActions(o.agent, o.data).Ok? &&
        Collect(outs).value.actions == Collect(outs[..|outs| - 1]).value.actions + OutputActions(o.agent, o.data).value)) &&
      (!Available(o.data) ==> Collect(outs).value.actions == Collect(outs[..|outs| - 1]).value.actions)
  {
  }

  /** Some available output among `outs` comes from agent `a`. */
  ghost predicate FromAvailable(outs: seq<Output>, a: Agent) {
    exists i :: 0 <= i < |outs| && Available(outs[i].data) && outs[i].agent == a
  }

  /** Every collected action comes from an agent whose output is available. */
  lemma {:induction false} CollectAvailable(outs: seq<Output>)
    requires Collect(outs).Ok?
    ensures forall k :: 0 <= k < |Collect(outs).value.actions| ==>
      FromAvailable(outs, Collect(outs).value.actions[k].agent)
  {
    if outs != [] {
      var n := |outs| - 1;
      CollectStep(outs);
      var acc := Collect(outs[..n]).value.actions;
      var extra := if Available(outs[n].data) then OutputActions(outs[n].agent, outs[n].data).value else [];
      assert Collect(outs).value.actions == acc + extra;
      assert forall k :: 0 <= k < |acc| ==> FromAvailable(outs[..n], acc[k].agent) by {
        CollectAvailable(outs[..n]);
      }
      AvailableAppend(outs, acc, extra);
    }
  }

  /** Actions of earlier available outputs, then those of the last output when it is available. */
  lemma AvailableAppend(outs: seq<Output>, acc: seq<Action>, extra: seq<Action>)
    requires outs != []
    requires forall k :: 0 <= k < |acc| ==> FromAvailable(outs[..|outs| - 1], acc[k].agent)
    requires extra != [] ==> Available(outs[|outs| - 1].data)
    requires forall k :: 0 <= k < |extra| ==> extra[k].agent == outs[|outs| - 1].agent
    ensures forall k :: 0 <= k < |acc + extra| ==> FromAvailable(outs, (acc + extra)[k].agent)
  {
    var n := |outs| - 1;
    var acts := acc + extra;
    forall k | 0 <= k < |acts|
      ensures FromAvailable(outs, acts[k].agent)
    {
      if k < |acc| {
        assert acts[k] == acc[k];
        var i :| 0 <= i < n && Available(outs[..n][i].data) && outs[..n][i].agent == acc[k].agent;
        assert outs[i] == outs[..n][i];
      } else {
        assert acts[k] == extra[k - |acc|];
      }
    }
  }

  /** The position of the first output of agent `a`, or `|outs|` when there is none. */
  function AgentIndex(outs: seq<Output>, a: Agent): (r: nat)
    ensures r <= |outs|
    ensures r < |outs| ==> outs[r].agent == a
    ensures forall j :: 0 <= j < r ==> outs[j].agent != a
  {
    if outs == [] then 0
    else if outs[0].agent == a then 0
    else 1 + AgentIndex(outs[1..], a)
  }

  lemma AgentIndexPrefix(outs: seq<Output>, n: nat, a: Agent)
    requires n <= |outs|
    ensures AgentIndex(outs[..n], a) < n ==> AgentIndex(outs, a) == AgentIndex(outs[..n], a)
    ensures AgentIndex(outs[..n], a) == n ==> AgentIndex(outs, a) >= n
  {
    assert forall j :: 0 <= j < n ==> outs[..n][j] == outs[j];
  }

  /**
   * Actions appear in the order of the outputs that produced them (outputs
   * are keyed by agent, so no agent has two).
   */
  lemma {:induction false} CollectOrdered(outs: seq<Output>)
    requires Collect(outs).Ok?
    requires forall i, j :: 0 <= i < j < |outs| ==> outs[i].agent != outs[j].agent
    ensures forall k1, k2 :: 0 <= k1 < k2 < |Collect(outs).value.actions| ==>
      AgentIndex(outs, Collect(outs).value.actions[k1].agent) <=
      AgentIndex(outs, Collect(outs).value.actions[k2].agent)
  {
    if outs != [] {
      var n := |outs| - 1;
      var prev := outs[..n];
      CollectStep(outs);
      var acc := Collect(prev).value.actions;
      var extra := if Available(outs[n].data) then OutputActions(outs[n].agent, outs[n].data).value else [];
      assert Collect(outs).value.actions == acc + extra;
      assert forall k :: 0 <= k < |acc| ==> AgentIndex(outs, acc[k].agent) == AgentIndex(prev, acc[k].agent) < n by {
        CollectAvailable(prev);
        forall k | 0 <= k < |acc|
          ensures AgentIndex(outs, acc[k].agent) == AgentIndex(prev, acc[k].agent) < n
        {
          AvailableIndex(outs, n, acc[k].agent);
        }
      }
      assert forall k1, k2 :: 0 <= k1 < k2 < |acc| ==>
          AgentIndex(prev, acc[k1].agent) <= AgentIndex(prev, acc[k2].agent) by {
        DistinctPrefix(outs, n);
        CollectOrdered(prev);
      }
      assert forall k :: 0 <= k < |extra| ==> AgentIndex(outs, extra[k].agent) == n by {
        if Available(outs[n].data) {
          LastIndex(outs);
        }
      }
      OrderedAppend(outs, prev, acc, extra, n);
    }
  }

  /** Actions of earlier outputs followed by those of output `n` stay in output order. */
  lemma OrderedAppend(outs: seq<Output>, prev: seq<Output>, acc: seq<Action>, extra: seq<Action>, n: nat)
    requires forall k1, k2 :: 0 <= k1 < k2 < |acc| ==> AgentIndex(prev, acc[k1].agent) <= AgentIndex(prev, acc[k2].agent)
    requires forall k :: 0 <= k < |acc| ==> AgentIndex(outs, acc[k].agent) == AgentIndex(prev, acc[k].agent) < n
    requires forall k :: 0 <= k < |extra| ==> AgentIndex(outs, extra[k].agent) == n
    ensures forall k1, k2 :: 0 <= k1 < k2 < |acc + extra| ==>
      AgentIndex(outs, (acc + extra)[k1].agent) <= AgentIndex(outs, (acc + extra)[k2].agent)
  {
    var acts := acc + extra;
    forall k1, k2 | 0 <= k1 < k2 < |acts|
      ensures AgentIndex(outs, acts[k1].agent) <= AgentIndex(outs, acts[k2].agent)
    {
      if k2 < |acc| {
        assert acts[k1] == acc[k1] && acts[k2] == acc[k2];
      } else if k1 < |acc| {
        assert acts[k1] == acc[k1] && acts[k2] == extra[k2 - |acc|];
      } else {
        assert acts[k1] == extra[k1 - |acc|] && acts[k2] == extra[k2 - |acc|];
      }
    }
  }

  lemma DistinctPrefix(outs: seq<Output>, n: nat)
    requires n <= |outs|
    requires forall i, j :: 0 <= i < j < |outs| ==> outs[i].agent != outs[j].agent
    ensures forall i, j :: 0 <= i < j < n ==> outs[..n][i].agent != outs[..n][j].agent
  {
  }

  /** An agent with an available output among the first `n` is first found there. */
  lemma AvailableIndex(outs: seq<Output>, n: nat, a: Agent)
    requires n <= |outs| && FromAvailable(outs[..n], a)
    ensures AgentIndex(outs, a) == AgentIndex(outs[..n], a) < n
  {
    var i :| 0 <= i < n && Available(outs[..n][i].data) && outs[..n][i].agent == a;
    AgentIndexPrefix(outs, n, a);
  }

  /** With no agent listed twice, the last output's agent is first found at the end. */
  lemma LastIndex(outs: seq<Output>)
    requires outs != []
    requires forall i, j :: 0 <= i < j < |outs| ==> outs[i].agent != outs[j].agent
    ensures AgentIndex(outs, outs[|outs| - 1].agent) == |outs| - 1
  {
  }

  /** A sum of scores that all lie in [0, 1] lies between 0 and their number. */
  lemma {:induction false} SumBounds(values: seq<Json>)
    requires forall k :: 0 <= k < |values| ==> values[k].JNum? && 0.0 <= values[k].n <= 1.0
    ensures Sum(values).Ok?
    ensures 0.0 <= Sum(values).value <= |values| as real
  {
    if values != [] {
      SumBounds(values[..|values| - 1]);
    }
  }

  /**
   * `overall_confidence` is the mean of the `confidence_score` values of the
   * available outputs that carry one (0.0 when none does); when those are
   * all numbers in [0, 1], so is the mean. At most every output is counted
   * as successful.
   */
  lemma AggregateConfidence(caps: SummaryCaptures, tasks: seq<DetectedTask>, outs: seq<Output>)
    requires Aggregated(caps, tasks, outs).Ok?
    ensures var a := Aggregated(caps, tasks, outs).value;
      Sum(Scores(outs)).Ok? &&
      a.overallConfidence == Mean(Sum(Scores(outs)).value, |Scores(outs)|) &&
      (Scores(outs) == [] ==> a.overallConfidence == 0.0) &&
      a.agentsSuccessful <= a.agentsExecuted == |outs|
    ensures (forall k :: 0 <= k < |Scores(outs)| ==> Scores(outs)[k].JNum? && 0.0 <= Scores(outs)[k].n <= 1.0) ==>
      0.0 <= Aggregated(caps, tasks, outs).value.overallConfidence <= 1.0
  {
    CollectScores(outs);
    var sc := Scores(outs);
    if forall k :: 0 <= k < |sc| ==> sc[k].JNum? && 0.0 <= sc[k].n <= 1.0 {
      SumBounds(sc);
      if |sc| > 0 {
        MeanBounds(Sum(sc).value, |sc|);
      }
    }
  }

  lemma MeanBounds(total: real, count: nat)
    requires count > 0 && 0.0 <= total <= count as real
    ensures 0.0 <= Mean(total, count) <= 1.0
  {
    assert total / count as real <= count as real / count as real;
  }

  /** Outputs marked `"agent_unavailable"` contribute neither actions nor scores. */
  lemma UnavailableIgnored(outs: seq<Output>, a: Agent, o: Obj)
    requires !Available(o)
    ensures Collect(outs + [Output(a, o)]) == Collect(outs)
    ensures Scores(outs + [Output(a, o)]) == Scores(outs)
  {
    assert (outs + [Output(a, o)])[..|outs|] == outs;
  }

  /**
   * The summary raises exactly when an available records or evidence output
   * holds, under the list key the summary counts, a value that has no length.
   */
  lemma SummaryRaises(caps: SummaryCaptures, tasks: seq<DetectedTask>, outs: seq<Output>)
    ensures Summary(caps, tasks, outs).Err? <==>
      ListCount(outs, RecordsWrangler, "missing_records").Err? || ListCount(outs, EvidenceSorter, "evidence_summary").Err?
  {
  }

  /**
   * The summary starts with its four fixed parts (case number, case type,
   * number of detected tasks, number of available agents), joined by `" | "`.
   */
  lemma SummaryStarts(caps: SummaryCaptures, tasks: seq<DetectedTask>, outs: seq<Output>)
    requires Summary(caps, tasks, outs).Ok?
    ensures StartsWith(Summary(caps, tasks, outs).value, Join(SummaryHead(caps, tasks, outs), " | "))
  {
    var head := SummaryHead(caps, tasks, outs);
    var missing := ListCount(outs, RecordsWrangler, "missing_records").value;
    var evidence := ListCount(outs, EvidenceSorter, "evidence_summary").value;
    var m := if missing > 0 then [NatToString(missing) + " missing record(s) identified"] else [];
    var e := if evidence > 0 then [NatToString(evidence) + " piece(s) of evidence classified"] else [];
    assert head + m + e == head + (m + e);
    JoinPrefix(head, m + e, " | ");
  }

  /** Joining more parts extends the join of the first ones. */
  lemma {:induction false} JoinPrefix(head: seq<string>, extra: seq<string>, sep: string)
    requires head != []
    ensures StartsWith(Join(head + extra, sep), Join(head, sep))
  {
    if |head| == 1 {
      if extra != [] {
        assert Join(head + extra, sep) == head[0] + sep + Join(extra, sep) by {
          assert (head + extra)[1..] == extra;
        }
      }
    } else {
      JoinPrefix(head[1..], extra, sep);
      assert (head + extra)[1..] == head[1..] + extra;
    }
  }

  // ---------------------------------------------------------------------
  // The whole run
  // ---------------------------------------------------------------------

  /** The two searches `_generate_summary` makes on the case text (both case-insensitive). */
  const CaseNumberPattern: string := @"(?i)case\s*#?\s*(\d{4}-[A-Z]{2}-\d+)"
  const CaseTypePattern: string := @"(?i)case\s*type:\s*([^\n]+)"

  function Captures(text: string, search: ContextEnricher.Search): SummaryCaptures {
    SummaryCaptures(search(CaseNumberPattern, text), search(CaseTypePattern, text))
  }

  /** A `detected_tasks` entry. */
  function TaskJson(t: DetectedTask): Json {
    JObj(map[
      "type" := JStr(t.category.Name()), "priority" := JStr(t.priority.Name()),
      "match_count" := JNum(t.matchCount as real), "confidence" := JNum(t.confidence)])
  }

  /** The `agent_outputs` dict: each agent's name mapped to its recorded output. */
  function OutputsJson(outs: seq<Output>): (r: Obj)
    ensures forall k :: k in r ==> r[k].JObj?
    ensures forall i :: 0 <= i < |outs| ==> outs[i].agent.Name() in r
  {
    if outs == [] then map[]
    else
      var last := outs[|outs| - 1];
      OutputsJson(outs[..|outs| - 1])[last.agent.Name() := JObj(last.data)]
  }

  /** The `recommended_actions` list: each action tagged with its agent's name. */
  function ActionsJson(actions: seq<Action>): (r: Json)
    ensures r.JArr? && |r.items| == |actions|
    ensures forall i :: 0 <= i < |actions| ==> r.items[i] == JStr(actions[i].Line())
  {
    JArr(seq(|actions|, i requires 0 <= i < |actions| => JStr(actions[i].Line())))
  }

  /** The dict `_aggregate_results` returns, with `context_metadata` added. */
  function ResultJson(a: Aggregate, context: Obj): (r: Obj)
    ensures "context_metadata" in r && r["context_metadata"] == JObj(context)
    ensures "agent_outputs" in r && r["agent_outputs"] == JObj(OutputsJson(a.agentOutputs))
    ensures "recommended_actions" in r && r["recommended_actions"] == ActionsJson(a.recommendedActions)
    ensures "summary" in r && "overall_confidence" in r && "agents_executed" in r && "agents_successful" in r
    ensures "detected_tasks" in r && "status" !in r && "attorney_brief" !in r
  {
    map[
      "summary" := JStr(a.summary),
      "detected_tasks" := JArr(seq(|a.detectedTasks|, i requires 0 <= i < |a.detectedTasks| => TaskJson(a.detectedTasks[i]))),
      "agent_outputs" := JObj(OutputsJson(a.agentOutputs)),
      "recommended_actions" := ActionsJson(a.recommendedActions),
      "overall_confidence" := JNum(a.overallConfidence),
      "agents_executed" := JNum(a.agentsExecuted as real),
      "agents_successful" := JNum(a.agentsSuccessful as real),
      "context_metadata" := JObj(context)]
  }

  /** The dict returned when a step raised: the fault's message as the only action, and status "failed". */
  function FailedResult(f: Fault): (r: Obj)
    ensures "status" in r && r["status"] == JStr("failed")
    ensures "error" in r && r["error"] == JStr(f.Message())
    ensures "recommended_actions" in r && r["recommended_actions"] == JArr([JStr("Error: " + f.Message())])
    ensures "overall_confidence" in r && r["overall_confidence"] == JNum(0.0)
    ensures "agent_outputs" in r && r["agent_outputs"] == JObj(map[])
    ensures "attorney_brief" !in r && "context_metadata" !in r
  {
    map[
      "summary" := JStr("Error processing case file"),
      "detected_tasks" := JArr([]),
      "agent_outputs" := JObj(map[]),
      "recommended_actions" := JArr([JStr("Error: " + f.Message())]),
      "overall_confidence" := JNum(0.0),
      "error" := JStr(f.Message()),
      "status" := JStr("failed")]
  }

  /** What `process_case_text` returns for a case text, given the agents' behaviour as `run`. */
  function Processed(text: string, search: ContextEnricher.Search, findAll: ContextEnricher.FindAll,
                     normalise: ContextEnricher.Normalise, run: (Agent, string, TaskContext) -> AgentResult,
                     formatDate: string -> Option<string>): (r: Obj)
    ensures "status" in r <==> "attorney_brief" !in r
    ensures "status" in r <==>
      Aggregated(Captures(text, search), Detect(text), Recorded(text, Workflow(Detect(text)), run)).Err?
    ensures "context_metadata" in r ==>
      r["context_metadata"] == JObj(ContextEnricher.CaseContext(text, search, findAll, normalise))
  {
    var context := ContextEnricher.CaseContext(text, search, findAll, normalise);
    var tasks := Detect(text);
    Concluded(Aggregated(Captures(text, search), tasks, Recorded(text, Workflow(tasks), run)), context, formatDate)
  }

  /** The dict `process_case_text` returns once aggregation has succeeded or raised. */
  function Concluded(aggregate: Result<Aggregate>, context: Obj, formatDate: string -> Option<string>): Obj {
    match aggregate
    case Err(f) => FailedResult(f)
    case Ok(a) => WithBrief(ResultJson(a, context), formatDate)
  }

  /** `result["attorney_brief"] = generate_attorney_brief(result)` */
  function WithBrief(result: Obj, formatDate: string -> Option<string>): (r: Obj)
    ensures r.Keys == result.Keys + {"attorney_brief"}
    ensures r["attorney_brief"] == JStr(Brief.AttorneyBrief(result, formatDate))
    ensures forall k :: k in result && k != "attorney_brief" ==> r[k] == result[k]
  {
    result["attorney_brief" := JStr(Brief.AttorneyBrief(result, formatDate))]
  }

  /**
   * `process_case_text`: context extraction, task detection, workflow,
   * agent execution and aggregation, then the brief; any exception in
   * these steps gives the failure dict.
   */
  method ProcessCaseText(text: string, search: ContextEnricher.Search, findAll: ContextEnricher.FindAll,
                         normalise: ContextEnricher.Normalise, run: (Agent, string, TaskContext) -> AgentResult,
                         formatDate: string -> Option<string>)
    returns (result: Obj)
    ensures result == Processed(text, search, findAll, normalise, run, formatDate)
  {
    var context := ContextEnricher.ExtractCaseContext(text, search, findAll, normalise);
    var tasks := DetectTasks(text);
    var workflow := CreateWorkflow(tasks);
    var outputs := ExecuteAgents(text, workflow, run);
    var aggregate := AggregateResults(Captures(text, search), tasks, outputs);
    result := Conclude(aggregate, context, formatDate);
  }

  /** The failure dict, or the result dict with the attorney brief added. */
  method Conclude(aggregate: Result<Aggregate>, context: Obj, formatDate: string -> Option<string>)
    returns (result: Obj)
    ensures result == Concluded(aggregate, context, formatDate)
  {
    if aggregate.Err? {
      return FailedResult(aggregate.fault);
    }
    result := ResultJson(aggregate.value, context);
    var brief := Brief.GenerateAttorneyBrief(result, formatDate);
    result := result["attorney_brief" := JStr(brief)];
  }

  /** Every agent name is a run of word characters, so the brief's tag pattern matches it. */
  lemma AgentNameIsWord(a: Agent)
    ensures a.Name() != [] && forall i :: 0 <= i < |a.Name()| ==> Brief.IsWordChar(a.Name()[i])
  {
  }

  /**
   * The brief removes exactly the `[agent]` tag and the space that
   * aggregation put in front of an action's text.
   */
  lemma ActionTagRemoved(act: Action)
    ensures Brief.CleanText(act.Line()) == Brief.Finish(LStrip(act.text))
  {
    AgentNameIsWord(act.agent);
    assert act.Line() == "[" + act.agent.Name() + "]" + (" " + act.text);
    Brief.CleanTagged(act.agent.Name(), " " + act.text);
    assert LStrip(" " + act.text) == LStrip(act.text) by {
      assert (" " + act.text)[1..] == act.text;
    }
  }

  /** A context built by the enricher has the shape the brief's overview expects. */
  lemma CaseContextShape(text: string, search: ContextEnricher.Search, findAll: ContextEnricher.FindAll,
                         normalise: ContextEnricher.Normalise)
    ensures Brief.EnrichedShape(ContextEnricher.CaseContext(text, search, findAll, normalise))
  {
    var c := ContextEnricher.CaseContext(text, search, findAll, normalise);
    HoldsShape(c, ContextEnricher.ClientName(text, search), ContextEnricher.CaseNumber(text, search),
      ContextEnricher.CaseType(text), ContextEnricher.InsuranceCompany(text, search),
      ContextEnricher.IncidentDate(text, search, normalise), ContextEnricher.MedicalProviders(text, findAll));
  }

  lemma HoldsShape(c: Obj, client: ContextEnricher.Field, number: ContextEnricher.Field,
                   caseType: ContextEnricher.Field, insurer: ContextEnricher.Field, date: ContextEnricher.Field,
                   providers: seq<ContextEnricher.Provider>)
    requires ContextEnricher.Holds(c, client, number, caseType, insurer, date, providers)
    ensures Brief.EnrichedShape(c)
  {
    forall k | k in c && k != "medical_providers"
      ensures c[k].JObj?
    {
      assert k in ContextEnricher.ContextKeys;
    }
  }

  /**
   * Once aggregation has succeeded on an enriched context, the result
   * carries that context and a brief that is the error sentence exactly
   * when summarising some agent's output raised, and that otherwise opens
   * with the case overview and closes with the action summary.
   */
  lemma ConcludedOutcome(a: Aggregate, context: Obj, formatDate: string -> Option<string>)
    requires Brief.EnrichedShape(context)
    ensures var r := Concluded(Ok(a), context, formatDate);
      var overview := Brief.Overview(JObj(context), formatDate);
      var findings := Brief.Findings(JObj(OutputsJson(a.agentOutputs)));
      var actions := Brief.ActionSummary(ActionsJson(a.recommendedActions));
      overview.Ok? && actions.Ok? &&
      "context_metadata" in r && r["context_metadata"] == JObj(context) && r["attorney_brief"].JStr? &&
      (r["attorney_brief"].s == Brief.BriefError <==> findings.Err?) &&
      (findings.Ok? ==> StartsWith(r["attorney_brief"].s, overview.value) &&
                        EndsWith(r["attorney_brief"].s, actions.value))
  {
    Brief.OverviewOfEnriched(context, formatDate);
    var result := ResultJson(a, context);
    assert Get(result, "context_metadata", JObj(map[])) == JObj(context);
    assert Get(result, "agent_outputs", JObj(map[])) == JObj(OutputsJson(a.agentOutputs));
    assert Get(result, "recommended_actions", JArr([])) == ActionsJson(a.recommendedActions);
  }
}
