/**
 * Structural validation of a parsed YAML topic tree, its conversion into
 * `Topic` values, and the content statistics computed over a topic forest.
 */
module YamlParser {
  import opened Wrappers
  import opened PyStr

  /** A parsed YAML document (mapping keys are strings). */
  datatype Yaml =
    | YStr(s: string)
    | YInt(i: int)
    | YFloat(r: real)
    | YBool(b: bool)
    | YNull
    | YList(items: seq<Yaml>)
    | YMap(entries: map<string, Yaml>)

  /** One study topic; subtopics nest to any depth. */
  datatype Topic = Topic(
    name: string,
    content: string,
    subtopics: seq<Topic>,
    examples: seq<string>,
    keyConcepts: seq<string>,
    difficulty: string)

  /** The loaded document: its metadata mapping and the top-level topics. */
  datatype MLContent = MLContent(metadata: map<string, Yaml>, topics: seq<Topic>)

  const Levels: seq<string> := ["beginner", "intermediate", "advanced"]

  /** The field invariants a constructed `Topic` carries, throughout the tree. */
  predicate WellFormed(t: Topic)
    decreases t
  {
    && t.name != [] && Stripped(t.name)
    && |t.content| >= 10 && Stripped(t.content)
    && (t.difficulty == "" || t.difficulty in Levels)
    && forall i :: 0 <= i < |t.subtopics| ==> WellFormed(t.subtopics[i])
  }

  predicate WellFormedForest(ts: seq<Topic>) {
    forall i :: 0 <= i < |ts| ==> WellFormed(ts[i])
  }

  /**
   * The `Topic` constructor with its field validators: name and content are
   * stored stripped, the stripped content needs at least 10 characters, and a
   * non-empty difficulty must be one of the three levels.
   */
  function MakeTopic(name: string, content: string, subtopics: seq<Topic>,
                     examples: seq<string>, keyConcepts: seq<string>, difficulty: string): (r: Result<Topic>)
    ensures r.Success? <==>
      Strip(name) != [] && |Strip(content)| >= 10 && (difficulty == "" || difficulty in Levels)
    ensures r.Success? ==>
      r.value == Topic(Strip(name), Strip(content), subtopics, examples, keyConcepts, difficulty)
    ensures r.Success? && WellFormedForest(subtopics) ==> WellFormed(r.value)
  {
    if Strip(name) == [] then Failure("Topic name cannot be empty")
    else if |Strip(content)| < 10 then Failure("Topic content must be at least 10 characters")
    else if difficulty != "" && difficulty !in Levels then
      Failure("Difficulty must be 'beginner', 'intermediate', or 'advanced'")
    else
      Success(Topic(Strip(name), Strip(content), subtopics, examples, keyConcepts, difficulty))
  }

  predicate NonBlankStr(m: map<string, Yaml>, field: string) {
    field in m && m[field].YStr? && Strip(m[field].s) != []
  }

  /** `_validate_topic_structure`: the shape every topic node must have. */
  predicate ValidTopicStructure(y: Yaml)
    decreases y
  {
    && y.YMap?
    && NonBlankStr(y.entries, "name")
    && NonBlankStr(y.entries, "content")
    && ("subtopics" in y.entries ==> y.entries["subtopics"].YList?)
    && ("examples" in y.entries ==> y.entries["examples"].YList?)
    && ("key_concepts" in y.entries ==> y.entries["key_concepts"].YList?)
    && ("difficulty" in y.entries ==> y.entries["difficulty"].YStr?)
    && ("subtopics" in y.entries ==>
          forall i :: 0 <= i < |y.entries["subtopics"].items| ==>
            ValidTopicStructure(y.entries["subtopics"].items[i]))
  }

  /** `validate_structure`: metadata with a subject and a non-empty list of valid topics. */
  predicate ValidateStructure(data: Yaml) {
    && data.YMap?
    && "metadata" in data.entries
    && "topics" in data.entries
    && data.entries["metadata"].YMap?
    && "subject" in data.entries["metadata"].entries
    && data.entries["topics"].YList?
    && |data.entries["topics"].items| > 0
    && forall i :: 0 <= i < |data.entries["topics"].items| ==>
         ValidTopicStructure(data.entries["topics"].items[i])
  }

  /** The string items of a YAML list, or None when some item is not a string. */
  function Strings(items: seq<Yaml>): (r: Option<seq<string>>)
    ensures r.Some? <==> forall i :: 0 <= i < |items| ==> items[i].YStr?
    ensures r.Some? ==> |r.value| == |items| && forall i :: 0 <= i < |items| ==> r.value[i] == items[i].s
  {
    if items == [] then Some([])
    else if !items[0].YStr? then None
    else
      match Strings(items[1..])
      case None => None
      case Some(rest) => Some([items[0].s] + rest)
  }

  /** A string-list field with the `[]` default; None when an item is not a string. */
  function StringListField(m: map<string, Yaml>, field: string): (r: Option<seq<string>>)
    requires field in m ==> m[field].YList?
    ensures field !in m ==> r == Some([])
  {
    if field in m then Strings(m[field].items) else Some([])
  }

  /**
   * `_convert_to_topic`: examples and key concepts default to `[]`, the
   * difficulty to "intermediate", and subtopics are converted in order.
   * A node the `Topic` validators reject makes the whole conversion fail.
   */
  function ConvertTopic(y: Yaml): (r: Result<Topic>)
    requires ValidTopicStructure(y)
    ensures r.Success? ==> WellFormed(r.value)
    ensures r.Success? ==> r.value.name == Strip(y.entries["name"].s)
    ensures r.Success? && "examples" !in y.entries ==> r.value.examples == []
    ensures r.Success? && "key_concepts" !in y.entries ==> r.value.keyConcepts == []
    ensures r.Success? && "difficulty" !in y.entries ==> r.value.difficulty == "intermediate"
    ensures r.Success? ==>
      |r.value.subtopics| == (if "subtopics" in y.entries then |y.entries["subtopics"].items| else 0)
    decreases y, 1
  {
    var m := y.entries;
    var difficulty := if "difficulty" in m then m["difficulty"].s else "intermediate";
    var subs := if "subtopics" in m then ConvertList(m["subtopics"]) else Success([]);
    var examples := StringListField(m, "examples");
    var keyConcepts := StringListField(m, "key_concepts");
    if examples.None? || keyConcepts.None? || subs.Failure? then Failure("Failed to parse content structure")
    else MakeTopic(m["name"].s, m["content"].s, subs.value, examples.value, keyConcepts.value, difficulty)
  }

  /**
   * `_convert_to_topic` applied to each node of a list, in order: the list
   * converts exactly when every node does, and topic i is then the
   * conversion of node i. The first rejected node aborts the loop, so the
   * error is the conversion's single message whichever node it was.
   */
  function ConvertList(l: Yaml): (r: Result<seq<Topic>>)
    requires l.YList?
    requires forall i :: 0 <= i < |l.items| ==> ValidTopicStructure(l.items[i])
    ensures r.Success? <==> forall i :: 0 <= i < |l.items| ==> ConvertTopic(l.items[i]).Success?
    ensures r.Success? ==>
      |r.value| == |l.items| && forall i :: 0 <= i < |l.items| ==> ConvertTopic(l.items[i]) == Success(r.value[i])
    ensures r.Success? ==> WellFormedForest(r.value)
    decreases l, 0
  {
    var rs := seq(|l.items|, i requires 0 <= i < |l.items| => ConvertTopic(l.items[i]));
    assert forall i :: 0 <= i < |l.items| ==> rs[i] == ConvertTopic(l.items[i]);
    var r := Collect(rs);
    assert r.Success? ==> WellFormedForest(r.value) by {
      if r.Success? {
        forall i | 0 <= i < |r.value|
          ensures WellFormed(r.value[i])
        {
          assert ConvertTopic(l.items[i]) == Success(r.value[i]);
        }
      }
    }
    r
  }

  /** The values of `rs` in order when every one succeeded; the conversion's error otherwise. */
  function Collect<T>(rs: seq<Result<T>>): (r: Result<seq<T>>)
    ensures r.Success? <==> forall i :: 0 <= i < |rs| ==> rs[i].Success?
    ensures r.Success? ==> |r.value| == |rs| && forall i :: 0 <= i < |rs| ==> rs[i] == Success(r.value[i])
    ensures r.Failure? ==> r.error == "Failed to parse content structure"
  {
    if rs == [] then Success([])
    else if rs[0].Failure? then Failure("Failed to parse content structure")
    else
      var rest := Collect(rs[1..]);
      if rest.Failure? then
        assert exists i :: 1 <= i < |rs| && rs[i].Failure? by {
          var j :| 0 <= j < |rs[1..]| && rs[1..][j].Failure?;
          assert rs[j + 1] == rs[1..][j];
        }
        rest
      else
        var vs := [rs[0].value] + rest.value;
        assert forall i :: 0 <= i < |rs| ==> rs[i] == Success(vs[i]) by {
          forall i | 0 <= i < |rs|
            ensures rs[i] == Success(vs[i])
          {
            if i > 0 {
              assert rs[i] == rs[1..][i - 1] && vs[i] == rest.value[i - 1];
            }
          }
        }
        Success(vs)
  }

  /**
   * A node converts exactly when its string lists hold only strings, its
   * subtopics convert, its stripped content has ten characters and its
   * difficulty is a known level; the topic then carries the node's fields,
   * the defaults where a field is absent, and the converted subtopics.
   */
  lemma ConvertTopicFields(y: Yaml)
    requires ValidTopicStructure(y)
    ensures ConvertTopic(y).Success? <==>
      && StringListField(y.entries, "examples").Some?
      && StringListField(y.entries, "key_concepts").Some?
      && ("subtopics" in y.entries ==> ConvertList(y.entries["subtopics"]).Success?)
      && |Strip(y.entries["content"].s)| >= 10
      && ("difficulty" in y.entries ==> y.entries["difficulty"].s == "" || y.entries["difficulty"].s in Levels)
    ensures ConvertTopic(y).Success? ==>
      var t := ConvertTopic(y).value;
      && t.content == Strip(y.entries["content"].s)
      && t.examples == StringListField(y.entries, "examples").value
      && t.keyConcepts == StringListField(y.entries, "key_concepts").value
      && t.difficulty == (if "difficulty" in y.entries then y.entries["difficulty"].s else "intermediate")
      && t.subtopics == (if "subtopics" in y.entries then ConvertList(y.entries["subtopics"]).value else [])
  {
  }

  /**
   * `load_content` after the YAML text has been parsed: the root mapping must
   * hold `ml_system_design`, whose structure is validated before conversion.
   */
  function LoadContent(root: Yaml): (r: Result<MLContent>)
    ensures !root.YMap? ==> r == Failure("YAML root must be a dictionary")
    ensures root.YMap? && "ml_system_design" !in root.entries ==>
      r == Failure("YAML must contain 'ml_system_design' root key")
    ensures root.YMap? && "ml_system_design" in root.entries && !ValidateStructure(root.entries["ml_system_design"]) ==>
      r == Failure("Invalid content structure")
    ensures root.YMap? && "ml_system_design" in root.entries && ValidateStructure(root.entries["ml_system_design"]) ==>
      (r.Success? <==> ConvertList(root.entries["ml_system_design"].entries["topics"]).Success?)
    ensures r.Success? ==>
      && ValidateStructure(root.entries["ml_system_design"])
      && |r.value.topics| == |root.entries["ml_system_design"].entries["topics"].items| > 0
      && WellFormedForest(r.value.topics)
      && "subject" in r.value.metadata
  {
    if !root.YMap? then Failure("YAML root must be a dictionary")
    else if "ml_system_design" !in root.entries then
      Failure("YAML must contain 'ml_system_design' root key")
    else
      var data := root.entries["ml_system_design"];
      if !ValidateStructure(data) then Failure("Invalid content structure")
      else
        match ConvertList(data.entries["topics"])
        case Success(topics) => Success(MLContent(data.entries["metadata"].entries, topics))
        case Failure(_) => Failure("Failed to parse content structure")
  }

  /** A top-level topic whose name is blank is refused before any conversion. */
  lemma BlankNameRefused(root: Yaml, k: nat)
    requires root.YMap? && "ml_system_design" in root.entries
    requires var data := root.entries["ml_system_design"];
      && data.YMap? && "topics" in data.entries && data.entries["topics"].YList?
      && k < |data.entries["topics"].items|
      && var node := data.entries["topics"].items[k];
         node.YMap? && "name" in node.entries && node.entries["name"].YStr? && Strip(node.entries["name"].s) == []
    ensures LoadContent(root) == Failure("Invalid content structure")
  {
    var topics := root.entries["ml_system_design"].entries["topics"].items;
    assert !NonBlankStr(topics[k].entries, "name");
    assert !ValidTopicStructure(topics[k]);
  }

  /** Validation reaches every depth: a subtopic with a field of the wrong type makes its ancestor invalid. */
  lemma NestedFieldChecked(y: Yaml, i: nat, field: string)
    requires y.YMap? && "subtopics" in y.entries && y.entries["subtopics"].YList?
    requires i < |y.entries["subtopics"].items|
    requires field in ["subtopics", "examples", "key_concepts"]
    requires var sub := y.entries["subtopics"].items[i];
      sub.YMap? && field in sub.entries && !sub.entries[field].YList?
    ensures !ValidTopicStructure(y)
  {
    assert !ValidTopicStructure(y.entries["subtopics"].items[i]);
  }

  // ---------------------------------------------------------------------
  // Content statistics

  /** Number of topic nodes in a forest, counting every level. */
  function TotalTopics(ts: seq<Topic>): nat
    decreases ts
  {
    if ts == [] then 0 else 1 + TotalTopics(ts[0].subtopics) + TotalTopics(ts[1..])
  }

  /** Sum of the content lengths of every node of a forest. */
  function ContentChars(ts: seq<Topic>): nat
    decreases ts
  {
    if ts == [] then 0 else |ts[0].content| + ContentChars(ts[0].subtopics) + ContentChars(ts[1..])
  }

  /** Examples of the top-level topics only. */
  function TopExamples(ts: seq<Topic>): nat {
    if ts == [] then 0 else |ts[0].examples| + TopExamples(ts[1..])
  }

  /** Key concepts of the top-level topics only. */
  function TopKeyConcepts(ts: seq<Topic>): nat {
    if ts == [] then 0 else |ts[0].keyConcepts| + TopKeyConcepts(ts[1..])
  }

  /** A difficulty as the distribution counts it: an empty one is "intermediate". */
  function Level(t: Topic): string {
    if t.difficulty == "" then "intermediate" else t.difficulty
  }

  /** Number of nodes of a forest whose level is `level`. */
  function CountLevel(ts: seq<Topic>, level: string): nat
    decreases ts
  {
    if ts == [] then 0
    else (if Level(ts[0]) == level then 1 else 0) + CountLevel(ts[0].subtopics, level) + CountLevel(ts[1..], level)
  }

  /** Every node carries a level the distribution has a bucket for. */
  predicate LevelsKnown(ts: seq<Topic>)
    decreases ts
  {
    ts != [] ==> Level(ts[0]) in Levels && LevelsKnown(ts[0].subtopics) && LevelsKnown(ts[1..])
  }

  lemma {:induction false} WellFormedLevelsKnown(ts: seq<Topic>)
    requires WellFormedForest(ts)
    ensures LevelsKnown(ts)
    decreases ts
  {
    if ts != [] {
      assert WellFormed(ts[0]);
      WellFormedLevelsKnown(ts[0].subtopics);
      assert forall i :: 0 <= i < |ts[1..]| ==> ts[1..][i] == ts[i + 1];
      WellFormedLevelsKnown(ts[1..]);
    }
  }

  /** When every level is known, the three buckets together count every node. */
  lemma {:induction false} DistributionCoversAll(ts: seq<Topic>)
    requires LevelsKnown(ts)
    ensures CountLevel(ts, "beginner") + CountLevel(ts, "intermediate") + CountLevel(ts, "advanced")
            == TotalTopics(ts)
    decreases ts
  {
    if ts != [] {
      DistributionCoversAll(ts[0].subtopics);
      DistributionCoversAll(ts[1..]);
    }
  }

  datatype ContentStats = ContentStats(
    totalTopics: nat,
    mainTopics: nat,
    totalExamples: nat,
    totalKeyConcepts: nat,
    totalContentChars: nat,
    readingMinutes: nat,
    subject: Yaml,
    distribution: map<string, nat>)

  /** `count_topics_recursive`: the list length plus each topic's subtree count. */
  method CountTopicsRecursive(ts: seq<Topic>) returns (count: nat)
    ensures count == TotalTopics(ts)
    decreases ts
  {
    count := |ts|;
    var i := 0;
    while i < |ts|
      invariant 0 <= i <= |ts|
      invariant count + TotalTopics(ts[i..]) == TotalTopics(ts) + |ts| - i
    {
      assert ts[i..][1..] == ts[i + 1..];
      var sub := CountTopicsRecursive(ts[i].subtopics);
      count := count + sub;
      i := i + 1;
    }
  }

  /** `calculate_content_length`: content length summed over every node. */
  method CalculateContentLength(ts: seq<Topic>) returns (length: nat)
    ensures length == ContentChars(ts)
    decreases ts
  {
    length := 0;
    var i := 0;
    while i < |ts|
      invariant 0 <= i <= |ts|
      invariant length + ContentChars(ts[i..]) == ContentChars(ts)
    {
      assert ts[i..][1..] == ts[i + 1..];
      var sub := CalculateContentLength(ts[i].subtopics);
      length := length + |ts[i].content| + sub;
      i := i + 1;
    }
  }

  /** The nested `count_difficulty` walk, adding each node's level to `dist`. */
  method CountDifficulty(ts: seq<Topic>, dist: map<string, nat>) returns (dist': map<string, nat>)
    requires LevelsKnown(ts)
    requires forall l :: l in Levels ==> l in dist
    ensures forall l :: l in Levels ==> l in dist' && dist'[l] == dist[l] + CountLevel(ts, l)
    ensures dist'.Keys == dist.Keys
    decreases ts
  {
    dist' := dist;
    var i := 0;
    while i < |ts|
      invariant 0 <= i <= |ts|
      invariant LevelsKnown(ts[i..])
      invariant dist'.Keys == dist.Keys
      invariant forall l :: l in Levels ==> dist'[l] + CountLevel(ts[i..], l) == dist[l] + CountLevel(ts, l)
    {
      assert ts[i..][1..] == ts[i + 1..];
      var level := Level(ts[i]);
      dist' := dist'[level := dist'[level] + 1];
      dist' := CountDifficulty(ts[i].subtopics, dist');
      i := i + 1;
    }
  }

  /** `_get_difficulty_distribution`: every node counted under its level. */
  method DifficultyDistribution(ts: seq<Topic>) returns (dist: map<string, nat>)
    requires LevelsKnown(ts)
    ensures dist.Keys == {"beginner", "intermediate", "advanced"}
    ensures forall l :: l in Levels ==> dist[l] == CountLevel(ts, l)
    ensures dist["beginner"] + dist["intermediate"] + dist["advanced"] == TotalTopics(ts)
  {
    dist := CountDifficulty(ts, map["beginner" := 0, "intermediate" := 0, "advanced" := 0]);
    DistributionCoversAll(ts);
  }

  /** `get_content_stats`. */
  method GetContentStats(content: MLContent) returns (stats: ContentStats)
    requires LevelsKnown(content.topics)
    ensures stats.totalTopics == TotalTopics(content.topics) >= stats.mainTopics == |content.topics|
    ensures stats.totalExamples == TopExamples(content.topics)
    ensures stats.totalKeyConcepts == TopKeyConcepts(content.topics)
    ensures stats.totalContentChars == ContentChars(content.topics)
    ensures stats.readingMinutes * 1000 <= stats.totalContentChars < (stats.readingMinutes + 1) * 1000
    ensures stats.subject == if "subject" in content.metadata then content.metadata["subject"] else YStr("Unknown")
    ensures stats.distribution.Keys == {"beginner", "intermediate", "advanced"}
    ensures stats.distribution["beginner"] + stats.distribution["intermediate"] + stats.distribution["advanced"]
            == stats.totalTopics
  {
    var total := CountTopicsRecursive(content.topics);
    TotalAtLeastLength(content.topics);
    var chars := CalculateContentLength(content.topics);
    var dist := DifficultyDistribution(content.topics);
    stats := ContentStats(
      total, |content.topics|, TopExamples(content.topics), TopKeyConcepts(content.topics),
      chars, chars / 1000,
      if "subject" in content.metadata then content.metadata["subject"] else YStr("Unknown"),
      dist);
  }

  lemma {:induction false} TotalAtLeastLength(ts: seq<Topic>)
    ensures TotalTopics(ts) >= |ts|
    decreases ts
  {
    if ts != [] {
      TotalAtLeastLength(ts[1..]);
    }
  }
}
