/**
 * The offline stand-in for the classifier (frontend/src/mock/mockData.js):
 * a keyword and exclamation-mark rule labels each review, the id falls back
 * to a padded index, and the confidence is drawn from a range per label.
 * `Math.random()` is the per-review draw and `new Date().toISOString()` the
 * parameter `now`. The network fixture is checked for dangling edges.
 */
module MockData {
  import opened Wrappers
  import opened Text
  import CsvUpload
  import NetworkGraph

  /** What the mock classifier returns for one review. */
  datatype Classified = Classified(id: string, text: string, classLabel: string, confidence: real, timestamp: string)

  const FraudKeywords: seq<string> :=
    ["amazing", "best", "buy now", "limited", "click here", "free", "wow", "incredible", "must buy", "!!!"]

  /** Some keyword, lower-cased, occurs in the lower-cased text. */
  predicate HasFraudKeyword(text: string) {
    exists k :: 0 <= k < |FraudKeywords| && Contains(ToLower(text), ToLower(FraudKeywords[k]))
  }

  /** The rule: a keyword, or more than two `'!'`. */
  predicate IsFraud(text: string) {
    HasFraudKeyword(text) || CountChar(text, '!') > 2
  }

  /** `min(0.99, base + r * spread)` with the range of the label. */
  function Confidence(isFraud: bool, draw: real): real {
    var c := if isFraud then 0.85 + draw * 0.12 else 0.80 + draw * 0.15;
    if c <= 0.99 then c else 0.99
  }

  /** The result for the review at position `index`. */
  function ClassifyOne(review: CsvUpload.Review, index: nat, draw: real, now: string): (r: Classified)
    ensures r.classLabel == "Fraud" <==> IsFraud(review.text)
    ensures r.classLabel == "Benign" <==> !IsFraud(review.text)
    ensures r.text == review.text
    ensures review.id != "" ==> r.id == review.id
    ensures review.id == "" ==> r.id == DefaultId(index + 1)
    ensures review.timestamp != "" ==> r.timestamp == review.timestamp
    ensures review.timestamp == "" ==> r.timestamp == now
  {
    var isFraud := IsFraud(review.text);
    Classified(
      if review.id != "" then review.id else DefaultId(index + 1),
      review.text,
      if isFraud then "Fraud" else "Benign",
      Confidence(isFraud, draw),
      if review.timestamp != "" then review.timestamp else now)
  }

  /** `mockClassifyReviews`: one result per review, in order; `draws[i]` is review `i`'s draw. */
  function MockClassify(reviews: seq<CsvUpload.Review>, draws: seq<real>, now: string): (results: seq<Classified>)
    requires |draws| == |reviews|
    ensures |results| == |reviews|
    ensures forall i :: 0 <= i < |reviews| ==> results[i] == ClassifyOne(reviews[i], i, draws[i], now)
  {
    seq(|reviews|, i requires 0 <= i < |reviews| => ClassifyOne(reviews[i], i, draws[i], now))
  }

  /**
   * With a draw in [0, 1) the confidence lies in [0.85, 0.97) for fraud and
   * in [0.80, 0.95) otherwise, so the cap at 0.99 is never reached.
   */
  lemma ConfidenceRange(isFraud: bool, draw: real)
    requires 0.0 <= draw < 1.0
    ensures isFraud ==> 0.85 <= Confidence(isFraud, draw) < 0.97
    ensures !isFraud ==> 0.80 <= Confidence(isFraud, draw) < 0.95
    ensures Confidence(isFraud, draw) <= 0.99
  {
  }

  /** Whatever the draw, the confidence never exceeds 0.99. */
  lemma ConfidenceCapped(isFraud: bool, draw: real)
    ensures Confidence(isFraud, draw) <= 0.99
  {
  }

  /** Two results that fell back to an index id come from the same position. */
  lemma FallbackIdsDistinct(reviews: seq<CsvUpload.Review>, draws: seq<real>, now: string, i: nat, j: nat)
    requires |draws| == |reviews| && i < |reviews| && j < |reviews|
    requires reviews[i].id == "" && reviews[j].id == ""
    requires MockClassify(reviews, draws, now)[i].id == MockClassify(reviews, draws, now)[j].id
    ensures i == j
  {
    DefaultIdInjective(i + 1, j + 1);
  }

  /** Lower-casing leaves `'!'` alone and makes no new `'!'`. */
  lemma LowerBang(c: char)
    ensures LowerChar(c) == '!' <==> c == '!'
  {
  }

  /**
   * The `'!!!'` keyword adds nothing to the rule: text holding it already has
   * more than two `'!'`.
   */
  lemma BangKeywordRedundant(text: string)
    requires Contains(ToLower(text), "!!!")
    ensures CountChar(text, '!') > 2
  {
    ContainsIff(ToLower(text), "!!!");
    var i :| OccursAt(ToLower(text), "!!!", i);
    assert ToLower(text)[i] == '!' && ToLower(text)[i + 1] == '!' && ToLower(text)[i + 2] == '!';
    LowerBang(text[i]);
    LowerBang(text[i + 1]);
    LowerBang(text[i + 2]);
    assert text[i..i + 3] == "!!!";
    assert OccursAt(text, "!!!", i);
    ContainsIff(text, "!!!");
    CountCharTriple(text, '!');
  }

  /** The rule is the other nine keywords, or more than two `'!'`. */
  lemma FraudRuleWithoutBangKeyword(text: string)
    ensures IsFraud(text) <==>
      (exists k :: 0 <= k < 9 && Contains(ToLower(text), ToLower(FraudKeywords[k]))) || CountChar(text, '!') > 2
  {
    assert ToLower(FraudKeywords[9]) == "!!!";
    if Contains(ToLower(text), "!!!") {
      BangKeywordRedundant(text);
    }
  }

  // ---------------------------------------------------------------------------
  // mockNetworkData
  // ---------------------------------------------------------------------------

  function ReviewNode(id: string, classLabel: string, confidence: real): NetworkGraph.GraphNode {
    NetworkGraph.GraphNode(id, Some(classLabel), Some(confidence), if classLabel == "Fraud" then "fraud" else "benign")
  }

  function UserNode(id: string): NetworkGraph.GraphNode {
    NetworkGraph.GraphNode(id, Some("User"), None, "user")
  }

  /** The fixture graph: eight reviews, six users, posting and similarity edges. */
  const MockNetworkData: NetworkGraph.GraphData := NetworkGraph.GraphData(
    [ ReviewNode("R001", "Benign", 0.95), ReviewNode("R002", "Fraud", 0.89),
      ReviewNode("R003", "Benign", 0.92), ReviewNode("R004", "Fraud", 0.97),
      ReviewNode("R005", "Benign", 0.88), ReviewNode("R006", "Fraud", 0.91),
      ReviewNode("R007", "Benign", 0.85), ReviewNode("R008", "Fraud", 0.93),
      UserNode("U123"), UserNode("U456"), UserNode("U789"),
      UserNode("U234"), UserNode("U567"), UserNode("U890") ],
    [ NetworkGraph.Edge("U123", "R001", "posted"), NetworkGraph.Edge("U456", "R002", "posted"),
      NetworkGraph.Edge("U789", "R003", "posted"), NetworkGraph.Edge("U456", "R004", "posted"),
      NetworkGraph.Edge("U234", "R005", "posted"), NetworkGraph.Edge("U567", "R006", "posted"),
      NetworkGraph.Edge("U890", "R007", "posted"), NetworkGraph.Edge("U456", "R008", "posted"),
      NetworkGraph.Edge("R002", "R004", "similar"), NetworkGraph.Edge("R004", "R008", "similar"),
      NetworkGraph.Edge("R002", "R006", "similar"), NetworkGraph.Edge("R001", "R003", "similar"),
      NetworkGraph.Edge("R003", "R005", "similar") ])

  /** Some node of the list has the id `id`. */
  predicate HasNode(nodes: seq<NetworkGraph.GraphNode>, id: string) {
    exists j :: 0 <= j < |nodes| && nodes[j].id == id
  }

  /** Every edge's source and target name a node of the same graph. */
  predicate EdgesResolve(g: NetworkGraph.GraphData) {
    forall k :: 0 <= k < |g.edges| ==> HasNode(g.nodes, g.edges[k].source) && HasNode(g.nodes, g.edges[k].target)
  }

  /** The fixture has no dangling edge. */
  lemma MockNetworkResolves()
    ensures EdgesResolve(MockNetworkData)
  {
    var nodes := MockNetworkData.nodes;
    var edges := MockNetworkData.edges;
    // Where each edge's source and target sit in the node list.
    var sources: seq<nat> := [8, 9, 10, 9, 11, 12, 13, 9, 1, 3, 1, 0, 2];
    var targets: seq<nat> := [0, 1, 2, 3, 4, 5, 6, 7, 3, 7, 5, 2, 4];
    forall k | 0 <= k < |edges|
      ensures HasNode(nodes, edges[k].source) && HasNode(nodes, edges[k].target)
    {
      assert nodes[sources[k]].id == edges[k].source && nodes[targets[k]].id == edges[k].target;
    }
  }

  /**
   * Once laid out, a graph whose edges all resolve has every edge drawn; the
   * layout keeps the node ids, so the simulation finds every endpoint.
   */
  lemma ResolvedEdgesAllDrawn(g: NetworkGraph.GraphData, width: real, height: real, dirs: seq<(real, real)>, jitters: seq<(real, real)>)
    requires EdgesResolve(g) && |dirs| == |g.nodes| && |jitters| == |g.nodes|
    ensures var laid := NetworkGraph.InitialNodes(g.nodes, width, height, dirs, jitters);
      NetworkGraph.DrawnEdges(laid, g.edges) == g.edges
  {
    var laid := NetworkGraph.InitialNodes(g.nodes, width, height, dirs, jitters);
    forall k | 0 <= k < |g.edges|
      ensures !NetworkGraph.Dangling(laid, g.edges[k])
    {
      var s :| 0 <= s < |g.nodes| && g.nodes[s].id == g.edges[k].source;
      var t :| 0 <= t < |g.nodes| && g.nodes[t].id == g.edges[k].target;
      assert laid[s].node.id == g.edges[k].source;
      assert laid[t].node.id == g.edges[k].target;
    }
    NetworkGraph.NoDanglingAllDrawn(laid, g.edges);
  }
}
