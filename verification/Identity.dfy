/** Names under which observed events are deduplicated. */
module Identity {
  import opened Tables

  /** The fields of a source item that identify it; absent and empty fields read the same. */
  datatype Item = Item(id: string, number: string, updatedAt: string, createdAt: string, attempt: string,
                       status: string, conclusion: string)

  datatype Kind = Issues | Comments | WorkflowRuns

  /** The five independent sources. */
  datatype Source = OrgIssues | OrgComments | ProductIssues | ProductComments | ProductRuns

  function SourceId(source: Source): Name {
    match source
    case OrgIssues => "org-issues"
    case OrgComments => "org-comments"
    case ProductIssues => "product-issues"
    case ProductComments => "product-comments"
    case ProductRuns => "product-workflow-runs"
  }

  function KindOf(source: Source): Kind {
    match source
    case OrgIssues => Issues
    case ProductIssues => Issues
    case OrgComments => Comments
    case ProductComments => Comments
    case ProductRuns => WorkflowRuns
  }

  function Updated(item: Item): string {
    if item.updatedAt != "" then item.updatedAt else item.createdAt
  }

  function External(kind: Kind, item: Item): string {
    if kind.Issues? then item.number else item.id
  }

  function Attempt(item: Item): string {
    if item.attempt == "" then "1" else item.attempt
  }

  /** The version key: the parts that distinguish one state of an item from another. */
  function Version(kind: Kind, item: Item): string {
    match kind
    case WorkflowRuns =>
      item.id + ":" + (Attempt(item) + ":" + (item.status + ":" + (item.conclusion + ":" + Updated(item))))
    case _ => External(kind, item) + ":" + Updated(item)
  }

  /** `uuid5` of `source:external:version` stands for this name. */
  function EventName(source: Name, external: string, version: string): EventId {
    source + ":" + (external + ":" + version)
  }

  function EventOf(source: Source, item: Item): EventId {
    EventName(SourceId(source), External(KindOf(source), item), Version(KindOf(source), item))
  }

  predicate Plain(s: string) {
    ':' !in s
  }

  /** What GitHub's identifiers and enumerations guarantee; timestamps may hold colons. */
  predicate PlainItem(source: Source, item: Item) {
    match source
    case OrgIssues | ProductIssues => Plain(item.number)
    case OrgComments | ProductComments => Plain(item.id)
    case ProductRuns => Plain(item.id) && Plain(item.attempt) && Plain(item.status) && Plain(item.conclusion)
  }

  /** Two joins on ":" agree only part by part when the first parts hold no colon. */
  lemma JoinInjective(a: string, b: string, c: string, d: string)
    requires Plain(a) && Plain(c) && a + ":" + b == c + ":" + d
    ensures a == c && b == d
  {
    var s, t := a + ":" + b, c + ":" + d;
    assert s[|a|] == ':' && t[|c|] == ':';
    assert forall i :: 0 <= i < |a| ==> s[i] == a[i] && a[i] in a;
    assert forall i :: 0 <= i < |c| ==> t[i] == c[i] && c[i] in c;
    assert |a| == |c|;
    assert a == s[..|a|] && c == t[..|c|];
    assert b == s[|a| + 1..] && d == t[|c| + 1..];
  }

  /** Last changed at the same time; an item never updated was last changed when it was created. */
  predicate SameTime(x: Item, y: Item) {
    (if x.updatedAt == "" then x.createdAt else x.updatedAt) == if y.updatedAt == "" then y.createdAt else y.updatedAt
  }

  /** The same attempt; none reads as the first. */
  predicate SameAttempt(x: Item, y: Item) {
    || x.attempt == y.attempt
    || {x.attempt, y.attempt} == {"", "1"}
  }

  /** Everything that tells two states of an item of the source apart. */
  predicate SameState(source: Source, x: Item, y: Item) {
    match source
    case OrgIssues | ProductIssues => x.number == y.number && SameTime(x, y)
    case OrgComments | ProductComments => x.id == y.id && SameTime(x, y)
    case ProductRuns =>
      x.id == y.id && SameAttempt(x, y) && x.status == y.status && x.conclusion == y.conclusion && SameTime(x, y)
  }

  lemma SourceIdsPlain(source: Source, other: Source)
    ensures Plain(SourceId(source)) && (SourceId(source) == SourceId(other) <==> source == other)
  {
  }

  /** Event identity is exact: one id per source, external id and version. */
  lemma EventIdentityExact(source: Source, x: Item, other: Source, y: Item)
    requires PlainItem(source, x) && PlainItem(other, y)
    ensures EventOf(source, x) == EventOf(other, y) <==> source == other && SameState(source, x, y)
  {
    SourceIdsPlain(source, other);
    SourceIdsPlain(other, source);
    AttemptsAre(x, y);
    if EventOf(source, x) == EventOf(other, y) {
      var kind, with := KindOf(source), KindOf(other);
      JoinInjective(SourceId(source), External(kind, x) + ":" + Version(kind, x),
                    SourceId(other), External(with, y) + ":" + Version(with, y));
      JoinInjective(External(kind, x), Version(kind, x), External(with, y), Version(with, y));
      VersionInjective(source, x, y);
    }
  }

  lemma AttemptsAre(x: Item, y: Item)
    ensures Attempt(x) == Attempt(y) <==> SameAttempt(x, y)
    ensures Plain(x.attempt) ==> Plain(Attempt(x))
    ensures Plain(y.attempt) ==> Plain(Attempt(y))
  {
    if SameAttempt(x, y) && x.attempt != y.attempt {
      assert x.attempt in {"", "1"} && y.attempt in {"", "1"};
    }
  }

  lemma VersionInjective(source: Source, x: Item, y: Item)
    requires PlainItem(source, x) && PlainItem(source, y) && Version(KindOf(source), x) == Version(KindOf(source), y)
    ensures SameState(source, x, y)
  {
    AttemptsAre(x, y);
    if source.ProductRuns? {
      var xTail, yTail := x.conclusion + ":" + Updated(x), y.conclusion + ":" + Updated(y);
      JoinInjective(x.id, Attempt(x) + ":" + (x.status + ":" + xTail), y.id, Attempt(y) + ":" + (y.status + ":" + yTail));
      JoinInjective(Attempt(x), x.status + ":" + xTail, Attempt(y), y.status + ":" + yTail);
      JoinInjective(x.status, xTail, y.status, yTail);
      JoinInjective(x.conclusion, Updated(x), y.conclusion, Updated(y));
    } else {
      JoinInjective(External(KindOf(source), x), Updated(x), External(KindOf(source), y), Updated(y));
    }
  }

  /** Without that guarantee two different runs share one id. */
  lemma ColonInStatusCollides()
    ensures exists x, y :: EventOf(ProductRuns, x) == EventOf(ProductRuns, y) && !SameState(ProductRuns, x, y)
  {
    var x := Item("7", "", "t", "", "1", "a:b", "c");
    var y := Item("7", "", "t", "", "1", "a", "b:c");
    assert x.status + ":" + (x.conclusion + ":" + Updated(x)) == "a:b:c:t" == y.status + ":" + (y.conclusion + ":" + Updated(y));
    assert EventOf(ProductRuns, x) == EventOf(ProductRuns, y) && x.status != y.status;
  }
}
