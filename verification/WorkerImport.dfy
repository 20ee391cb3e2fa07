/** One bounded worker run of `workers.py`: a scratch copy of declared inputs, a provider
    process over it, and the import of what it changed into the parent's workspace. */
module WorkerImport {
  import opened Outcomes
  import opened Tables
  import opened Stores
  import opened Sums
  import Sessions

  /** A regular file: its SHA-256 stands for its bytes. */
  datatype File = File(digest: Text, size: nat)
  type Tree = map<Text, File>

  function At(tree: Tree, path: Text): Option<File> {
    if path in tree then Some(tree[path]) else None
  }

  /** The declared inputs that exist: what the scratch directory holds before the launch. */
  function Copied(tree: Tree, paths: set<Text>): Tree {
    map p | p in tree && p in paths :: tree[p]
  }

  function Changed(before: Tree, after: Tree): set<Text> {
    set p | p in before.Keys + after.Keys && At(before, p) != At(after, p)
  }

  /** `tree` with the given paths as they are in `after`. */
  function Overlaid(tree: Tree, after: Tree, paths: set<Text>): Tree {
    map p | p in tree.Keys + after.Keys && (if p in paths then p in after else p in tree) ::
      if p in paths then after[p] else tree[p]
  }

  function SizeAt(tree: Tree, path: Text): nat {
    if path in tree then tree[path].size else 0
  }

  function Sizes(after: Tree, changed: set<Text>): map<Text, int> {
    map p | p in changed :: SizeAt(after, p)
  }

  ghost function PatchSize(after: Tree, changed: set<Text>): int {
    Sum(Sizes(after, changed))
  }

  function Elements(paths: seq<Text>): set<Text> {
    set p | p in paths
  }

  ghost predicate Lists(paths: seq<Text>, all: set<Text>) {
    Elements(paths) == all && forall i, j :: 0 <= i < j < |paths| ==> paths[i] < paths[j]
  }

  ghost predicate IsLeast(first: Text, paths: set<Text>) {
    first in paths && forall p :: p in paths ==> first <= p
  }

  lemma {:induction false} LeastOf(paths: set<Text>) returns (first: Text)
    requires paths != {}
    ensures IsLeast(first, paths)
    decreases paths
  {
    first :| first in paths;
    if paths != {first} {
      var other := LeastOf(paths - {first});
      assert forall p :: p in paths ==> p == first || p in paths - {first};
      first := if first < other then first else other;
    }
  }

  lemma LeastExists(paths: set<Text>)
    requires paths != {}
    ensures exists first :: IsLeast(first, paths)
  {
    var first := LeastOf(paths);
  }

  lemma PrependLists(first: Text, rest: seq<Text>, paths: set<Text>)
    requires IsLeast(first, paths) && Lists(rest, paths - {first})
    ensures Lists([first] + rest, paths)
  {
    var list := [first] + rest;
    forall p ensures p in Elements(list) <==> p in paths {
      assert p in list <==> p == first || p in rest;
      assert p in rest <==> p in Elements(rest);
    }
    forall i | 0 < i < |list| ensures first < list[i] {
      assert list[i] == rest[i - 1] && rest[i - 1] in Elements(rest);
    }
  }

  /** The paths in ascending order. */
  ghost function Sorted(paths: set<Text>): (list: seq<Text>)
    ensures Lists(list, paths)
    decreases paths
  {
    if paths == {} then []
    else
      LeastExists(paths);
      var first :| IsLeast(first, paths);
      PrependLists(first, Sorted(paths - {first}), paths);
      [first] + Sorted(paths - {first})
  }

  lemma NoneListed(list: seq<Text>, paths: set<Text>)
    requires Lists(list, paths)
    ensures list == [] <==> paths == {}
  {
    if list != [] {
      assert list[0] in Elements(list);
    }
  }

  lemma {:induction false} SortedOnce(a: seq<Text>, b: seq<Text>, paths: set<Text>)
    requires Lists(a, paths) && Lists(b, paths)
    ensures a == b
    decreases |a|
  {
    NoneListed(a, paths);
    NoneListed(b, paths);
    if a != [] {
      assert a[0] in Elements(a) && a[0] in b;
      assert b[0] in Elements(b) && b[0] in a;
      assert a[0] == b[0];
      TailLists(a, paths);
      TailLists(b, paths);
      SortedOnce(a[1..], b[1..], paths - {a[0]});
      assert a == [a[0]] + a[1..] && b == [b[0]] + b[1..];
    }
  }

  lemma TailLists(list: seq<Text>, paths: set<Text>)
    requires Lists(list, paths) && list != []
    ensures Lists(list[1..], paths - {list[0]})
  {
    assert list == [list[0]] + list[1..];
    forall p ensures p in Elements(list[1..]) <==> p in paths - {list[0]} {
      assert p in list <==> p in Elements(list);
    }
  }

  datatype Kind = Implementer | Reader(name: Text)
  datatype Caps = Caps(cumulative: int, concurrent: int, global: int)
  datatype Limits = Limits(patch: nat, output: nat)

  /** One entry of a path list: not a text, a text that leaves the workspace or is not in normal
      form, or a relative path. */
  datatype Raw = NotText | Unsafe | Safe(path: Text)

  /** What the parent asks for; `task` counts the bytes of the worker's text, 0 when it is blank. */
  datatype Arguments = Arguments(kind: Kind, task: nat, read: seq<Raw>, write: seq<Raw>)
  datatype WorkOrder = WorkOrder(kind: Kind, task: nat, read: set<Text>, write: set<Text>)

  const MAX_PATHS := 200

  /** What happens once the attempt is reserved: there is no scratch directory; an input cannot
      be copied; or the worker is launched and ends. Then: what the parent's workspace holds at
      each path when that path is checked, what the worker left in the scratch directory, the
      length of its answer, what the workspace holds at each path when its turn to be written
      comes, and after how many writes the import is cut short, if it is. */
  datatype Episode =
    | NoScratch
    | NoCopy
    | NoAnswer(edited: Tree)
    | Answer(edited: Tree, after: Tree, output: nat, late: Tree, cut: Option<nat>)

  datatype Reason = BadRequest | NotLaunched | ProviderFailed | OutputTooLong | OutOfScope | PatchTooLarge | Stale
  datatype Result =
    | Imported(changed: seq<Text>)
    | Refused(reason: Reason)
    | Interrupted
    | Stranded
    | NotReserved(error: Failure)

  // ---------- the checks ----------

  /** What `_paths` accepts. */
  ghost predicate Declares(values: seq<Raw>) {
    && |values| <= MAX_PATHS && (forall v :: v in values ==> v.Safe?)
    && forall i, j :: 0 <= i < j < |values| ==> values[i] != values[j]
  }

  function PathsOf(values: seq<Raw>): set<Text> {
    set v | v in values && v.Safe? :: v.path
  }

  function Asked(a: Arguments): WorkOrder {
    WorkOrder(a.kind, a.task, PathsOf(a.read), PathsOf(a.write))
  }

  ghost predicate Acceptable(a: Arguments, allowed: set<Kind>, sealedKinds: set<Kind>) {
    Declares(a.read) && Declares(a.write) && Admissible(Asked(a), allowed, sealedKinds)
  }

  predicate Admissible(order: WorkOrder, allowed: set<Kind>, sealedKinds: set<Kind>) {
    && order.kind in allowed
    && 0 < order.task <= 32768
    && order.kind in sealedKinds
    && (order.kind.Implementer? <==> order.write != {})
    && order.write <= order.read
  }

  /** Why the output is refused; `None` lets the import begin. */
  ghost function Verdict(before: Tree, after: Tree, parent: Tree, write: set<Text>, output: nat, limits: Limits): Option<Reason> {
    var changed := Changed(before, after);
    if output > limits.output then Some(OutputTooLong)
    else if !(changed <= write) then Some(OutOfScope)
    else if PatchSize(after, changed) > limits.patch then Some(PatchTooLarge)
    else if exists p :: p in changed && At(parent, p) != At(before, p) then Some(Stale)
    else None
  }

  method Least(paths: set<Text>) returns (first: Text)
    requires paths != {}
    ensures first in paths && forall p :: p in paths ==> first <= p
  {
    first :| first in paths;
    var todo := paths - {first};
    while todo != {}
      invariant first in paths && todo <= paths
      invariant forall p :: p in paths && p !in todo ==> first <= p
      decreases |todo|
    {
      var p :| p in todo;
      if p < first {
        first := p;
      }
      todo := todo - {p};
    }
  }

  method Differences(before: Tree, after: Tree) returns (changed: seq<Text>)
    ensures Lists(changed, Changed(before, after))
  {
    var todo := set p | p in before.Keys + after.Keys && At(before, p) != At(after, p);
    changed := [];
    while todo != {}
      invariant forall p :: p in changed || p in todo <==> p in Changed(before, after)
      invariant forall i, p :: 0 <= i < |changed| && p in todo ==> changed[i] < p
      invariant forall i, j :: 0 <= i < j < |changed| ==> changed[i] < changed[j]
      decreases |todo|
    {
      var p := Least(todo);
      changed := changed + [p];
      todo := todo - {p};
    }
  }

  lemma PatchGrows(after: Tree, paths: set<Text>, p: Text)
    requires p !in paths
    ensures PatchSize(after, paths + {p}) == PatchSize(after, paths) + SizeAt(after, p)
  {
    SumPut(Sizes(after, paths), p, SizeAt(after, p));
    assert Sizes(after, paths + {p}) == Sizes(after, paths)[p := SizeAt(after, p)];
  }

  method MeasurePatch(after: Tree, changed: seq<Text>) returns (total: nat)
    requires Lists(changed, Elements(changed))
    ensures total == PatchSize(after, Elements(changed))
  {
    total := 0;
    for i := 0 to |changed|
      invariant total == PatchSize(after, Elements(changed[..i]))
    {
      assert changed[i] !in changed[..i];
      assert Elements(changed[..i + 1]) == Elements(changed[..i]) + {changed[i]};
      PatchGrows(after, Elements(changed[..i]), changed[i]);
      total := total + SizeAt(after, changed[i]);
    }
    assert changed[..|changed|] == changed;
  }

  method IsStale(parent: Workspace, before: Tree, changed: seq<Text>) returns (stale: bool)
    ensures stale <==> exists p :: p in Elements(changed) && At(parent.files, p) != At(before, p)
  {
    for i := 0 to |changed|
      invariant forall p :: p in changed[..i] ==> At(parent.files, p) == At(before, p)
    {
      if At(parent.files, changed[i]) != At(before, changed[i]) {
        return true;
      }
    }
    return false;
  }

  // ---------- the parent's workspace ----------

  class Workspace {
    var files: Tree

    constructor (tree: Tree)
      ensures files == tree
    {
      files := tree;
    }

    /** `_unlink_scoped` and `_replace_regular_file` over the first `steps` changed paths. */
    method Import(after: Tree, changed: seq<Text>, steps: nat)
      requires steps <= |changed|
      modifies this
      ensures files == Overlaid(old(files), after, Elements(changed[..steps]))
    {
      for i := 0 to steps
        invariant files == Overlaid(old(files), after, Elements(changed[..i]))
      {
        assert changed[..i + 1] == changed[..i] + [changed[i]];
        if changed[i] in after {
          files := files[changed[i] := after[changed[i]]];
        } else {
          files := files - {changed[i]};
        }
      }
    }
  }

  // ---------- the run ----------

  /** What the run leaves in the attempt table. */
  function Attempted(db: Database, reserved: Tx<Id>, attempt: Id, state: WorkerState): Database {
    After(After(db, reserved), Sessions.SetWorker(After(db, reserved), attempt, state))
  }

  /** The parent's workspace, path by path, as the conflict check meets it. */
  function Met(start: Tree, episode: Episode): Tree {
    if episode.NoScratch? || episode.NoCopy? then start else episode.edited
  }

  /** The workspace as the parent alone would have it when the run ends. */
  function Own(start: Tree, episode: Episode, r: Result): Tree {
    if episode.Answer? && !r.Refused? then episode.late else Met(start, episode)
  }

  method Paths(values: seq<Raw>) returns (paths: Option<set<Text>>)
    ensures paths == if Declares(values) then Some(PathsOf(values)) else None
  {
    if |values| > MAX_PATHS {
      return None;
    }
    var result: set<Text> := {};
    for i := 0 to |values|
      invariant Declares(values[..i]) && result == PathsOf(values[..i])
    {
      assert values[..i + 1] == values[..i] + [values[i]];
      if !values[i].Safe? {
        assert values[i] in values;
        return None;
      }
      if values[i].path in result {
        var v :| v in values[..i] && v == values[i];
        return None;
      }
      result := result + {values[i].path};
    }
    assert values[..|values|] == values;
    return Some(result);
  }

  /** The checks before the reservation; all of them raise the same way. */
  method Admit(a: Arguments, allowed: set<Kind>, sealedKinds: set<Kind>) returns (order: Option<WorkOrder>)
    ensures order == if Acceptable(a, allowed, sealedKinds) then Some(Asked(a)) else None
  {
    if a.kind !in allowed || a.task == 0 || a.task > 32768 || a.kind !in sealedKinds {
      return None;
    }
    var read := Paths(a.read);
    var write := Paths(a.write);
    if read.None? || write.None? {
      return None;
    }
    if !a.kind.Implementer? && write.value != {} {
      return None;
    }
    if a.kind.Implementer? && write.value == {} {
      return None;
    }
    if !(write.value <= read.value) {
      return None;
    }
    return Some(WorkOrder(a.kind, a.task, read.value, write.value));
  }

  /** `WorkerSupervisor.run`, with everything outside the controller in `episode`. */
  method Run(store: Store, parent: Workspace, sid: Id, attempt: Id, now: Time, a: Arguments, allowed: set<Kind>,
             sealedKinds: set<Kind>, caps: Caps, limits: Limits, episode: Episode) returns (r: Result)
    requires store.Valid()
    modifies store, parent
    ensures store.Valid()
    ensures !Acceptable(a, allowed, sealedKinds) ==>
      r == Refused(BadRequest) && store.db == old(store.db) && parent.files == old(parent.files)
    ensures Acceptable(a, allowed, sealedKinds) ==>
      var tx := Sessions.ReserveWorker(old(store.db), attempt, sid, now, caps.cumulative, caps.concurrent, caps.global);
      if tx.Rollback? then r == NotReserved(tx.error) && store.db == old(store.db) && parent.files == old(parent.files)
      else if episode.NoScratch? then
        r == Stranded && store.db == tx.db && tx.db.workers[attempt].state.Accepted? && parent.files == old(parent.files)
      else
        && store.db == Attempted(old(store.db), tx, attempt, if r.Imported? then WorkerState.Succeeded else WorkerState.Failed)
        && Concludes(old(parent.files), parent.files, Asked(a), limits, episode, r)
  {
    var order := Admit(a, allowed, sealedKinds);
    if order.None? {
      return Refused(BadRequest);
    }
    var reserved := store.ReserveWorker(attempt, sid, now, caps.cumulative, caps.concurrent, caps.global);
    if reserved.Raised? {
      return NotReserved(reserved.error);
    }
    if episode.NoScratch? {
      return Stranded;
    }
    r := Conclude(store, parent, attempt, order.value, limits, episode);
  }

  lemma LastUpdateStands(db: Database, attempt: Id, first: WorkerState, last: WorkerState)
    ensures var once := After(db, Sessions.SetWorker(db, attempt, first));
      After(once, Sessions.SetWorker(once, attempt, last)) == After(db, Sessions.SetWorker(db, attempt, last))
  {
  }

  /** The guarded part and its last update. */
  method Conclude(store: Store, parent: Workspace, attempt: Id, order: WorkOrder, limits: Limits, episode: Episode) returns (r: Result)
    requires store.Valid() && !episode.NoScratch?
    modifies store, parent
    ensures store.Valid()
    ensures var final := if r.Imported? then WorkerState.Succeeded else WorkerState.Failed;
      store.db == After(old(store.db), Sessions.SetWorker(old(store.db), attempt, final))
    ensures Concludes(old(parent.files), parent.files, order, limits, episode, r)
  {
    r := Attempt(store, parent, attempt, order, limits, episode);
    var final := if r.Imported? then WorkerState.Succeeded else WorkerState.Failed;
    LastUpdateStands(old(store.db), attempt, WorkerState.Running, final);
    var closed := store.SetWorker(attempt, final);
  }

  /** The guarded part, from the scratch copy to the import. */
  method Attempt(store: Store, parent: Workspace, attempt: Id, order: WorkOrder, limits: Limits, episode: Episode) returns (r: Result)
    requires store.Valid() && !episode.NoScratch?
    modifies store, parent
    ensures store.Valid()
    ensures store.db == old(store.db) || store.db == After(old(store.db), Sessions.SetWorker(old(store.db), attempt, WorkerState.Running))
    ensures Concludes(old(parent.files), parent.files, order, limits, episode, r)
  {
    if episode.NoCopy? {
      return Refused(NotLaunched);
    }
    var before := Copied(parent.files, order.read);
    var running := store.SetWorker(attempt, WorkerState.Running);
    parent.files := episode.edited;
    if episode.NoAnswer? {
      return Refused(ProviderFailed);
    }
    r := Collect(parent, before, order, limits, episode);
  }

  /** The checks of what the worker left, and the import. */
  method Collect(parent: Workspace, before: Tree, order: WorkOrder, limits: Limits, episode: Episode) returns (r: Result)
    requires episode.Answer? && parent.files == episode.edited
    modifies parent
    ensures Collects(before, parent.files, order, limits, episode, r)
  {
    if episode.output > limits.output {
      return Refused(OutputTooLong);
    }
    var changed := Differences(before, episode.after);
    if !(Elements(changed) <= order.write) {
      return Refused(OutOfScope);
    }
    var total := MeasurePatch(episode.after, changed);
    if total > limits.patch {
      return Refused(PatchTooLarge);
    }
    var stale := IsStale(parent, before, changed);
    if stale {
      return Refused(Stale);
    }
    SortedOnce(changed, Sorted(Changed(before, episode.after)), Changed(before, episode.after));
    parent.files := episode.late;
    if changed != [] && episode.cut.Some? && episode.cut.value <= |changed| {
      parent.Import(episode.after, changed, episode.cut.value);
      return Interrupted;
    }
    parent.Import(episode.after, changed, |changed|);
    assert changed[..|changed|] == changed;
    return Imported(changed);
  }

  /** How the run ends and what it makes of the parent's tree. */
  ghost predicate Concludes(start: Tree, end: Tree, order: WorkOrder, limits: Limits, episode: Episode, r: Result) {
    var before := Copied(start, order.read);
    match episode
    case NoScratch => r == Stranded && end == start
    case NoCopy => r == Refused(NotLaunched) && end == start
    case NoAnswer(edited) => r == Refused(ProviderFailed) && end == edited
    case Answer(_, _, _, _, _) => Collects(before, end, order, limits, episode, r)
  }

  ghost predicate Collects(before: Tree, end: Tree, order: WorkOrder, limits: Limits, episode: Episode, r: Result)
    requires episode.Answer?
  {
    var verdict := Verdict(before, episode.after, episode.edited, order.write, episode.output, limits);
    if verdict.Some? then r == Refused(verdict.value) && end == episode.edited
    else
      && r == (if CutShort(before, episode) then Interrupted else Imported(Sorted(Changed(before, episode.after))))
      && end == Overlaid(episode.late, episode.after, Written(before, episode))
  }

  ghost predicate CutShort(before: Tree, episode: Episode)
    requires episode.Answer?
  {
    var changed := Sorted(Changed(before, episode.after));
    changed != [] && episode.cut.Some? && episode.cut.value <= |changed|
  }

  /** The paths the import writes: all changed ones, or the first of them. */
  ghost function Written(before: Tree, episode: Episode): set<Text>
    requires episode.Answer?
  {
    var changed := Sorted(Changed(before, episode.after));
    Elements(if CutShort(before, episode) then changed[..episode.cut.value] else changed)
  }

  // ---------- what is refused ----------

  /** A call is admitted if and only if its kind is allowed and installed, its text holds 1 to 32768
      bytes, both lists hold at most 200 different safe paths, every path to write is one to read, and
      an implementer writes something and nobody else anything. */
  lemma {:induction false} AcceptableIff(a: Arguments, allowed: set<Kind>, sealedKinds: set<Kind>)
    ensures Acceptable(a, allowed, sealedKinds) <==>
      && a.kind in allowed && a.kind in sealedKinds && 1 <= a.task <= 32768
      && |a.read| <= 200 && |a.write| <= 200
      && (forall v :: v in a.read || v in a.write ==> v.Safe?)
      && (forall i, j :: 0 <= i < j < |a.read| ==> a.read[i] != a.read[j])
      && (forall i, j :: 0 <= i < j < |a.write| ==> a.write[i] != a.write[j])
      && (forall v :: v in a.write ==> v in a.read)
      && (a.kind == Implementer <==> a.write != [])
  {
    if Declares(a.read) && Declares(a.write) {
      assert PathsOf(a.write) != {} <==> a.write != [] by {
        if a.write != [] {
          assert a.write[0].path in PathsOf(a.write);
        }
      }
      forall v | v in a.write && PathsOf(a.write) <= PathsOf(a.read) ensures v in a.read {
        assert v.path in PathsOf(a.read);
        var u :| u in a.read && u.Safe? && u.path == v.path;
        assert u == v;
      }
      assert (forall v :: v in a.write ==> v in a.read) ==> PathsOf(a.write) <= PathsOf(a.read);
    }
  }

  /** The worker was given the declared inputs that existed. */
  function Given(start: Tree, read: set<Text>, p: Text): Option<File> {
    if p in read && p in start then Some(start[p]) else None
  }

  function Bytes(after: Tree, list: seq<Text>): nat {
    if list == [] then 0
    else Bytes(after, list[..|list| - 1]) + if list[|list| - 1] in after then after[list[|list| - 1]].size else 0
  }

  lemma {:induction false} BytesArePatch(after: Tree, list: seq<Text>)
    requires forall i, j :: 0 <= i < j < |list| ==> list[i] < list[j]
    ensures PatchSize(after, Elements(list)) == Bytes(after, list)
  {
    if list == [] {
      assert Elements(list) == {};
    } else {
      var init, last := list[..|list| - 1], list[|list| - 1];
      BytesArePatch(after, init);
      assert Elements(list) == Elements(init) + {last};
      PatchGrows(after, Elements(init), last);
    }
  }

  /** In ascending order, every path the worker left otherwise than it was given. */
  ghost predicate Touched(list: seq<Text>, start: Tree, read: set<Text>, after: Tree) {
    && (forall i, j :: 0 <= i < j < |list| ==> list[i] < list[j])
    && forall p: Text :: p in list <==> At(after, p) != Given(start, read, p)
  }

  lemma TouchedIsChanged(list: seq<Text>, start: Tree, read: set<Text>, after: Tree)
    requires Touched(list, start, read, after)
    ensures Elements(list) == Changed(Copied(start, read), after) && list == Sorted(Changed(Copied(start, read), after))
    ensures forall p: Text :: Given(start, read, p) == At(Copied(start, read), p)
    ensures PatchSize(after, Changed(Copied(start, read), after)) == Bytes(after, list)
  {
    var changed := Changed(Copied(start, read), after);
    forall p: Text ensures p in list <==> p in changed {
      assert Given(start, read, p) == At(Copied(start, read), p);
    }
    assert Elements(list) == changed;
    SortedOnce(list, Sorted(changed), changed);
    BytesArePatch(after, list);
  }

  lemma VerdictIs(list: seq<Text>, start: Tree, order: WorkOrder, limits: Limits, episode: Episode)
    requires episode.Answer? && Touched(list, start, order.read, episode.after)
    ensures Verdict(Copied(start, order.read), episode.after, episode.edited, order.write, episode.output, limits) ==
      if episode.output > limits.output then Some(OutputTooLong)
      else if exists p :: p in list && p !in order.write then Some(OutOfScope)
      else if Bytes(episode.after, list) > limits.patch then Some(PatchTooLarge)
      else if exists p :: p in list && At(episode.edited, p) != Given(start, order.read, p) then Some(Stale)
      else None
  {
    TouchedIsChanged(list, start, order.read, episode.after);
    assert forall p :: p in list <==> p in Changed(Copied(start, order.read), episode.after);
  }

  lemma WrittenIs(list: seq<Text>, start: Tree, end: Tree, order: WorkOrder, limits: Limits, episode: Episode, r: Result)
    requires episode.Answer? && Touched(list, start, order.read, episode.after)
    requires Collects(Copied(start, order.read), end, order, limits, episode, r) && !r.Refused?
    ensures r == if list != [] && episode.cut.Some? && episode.cut.value <= |list| then Interrupted else Imported(list)
    ensures var written := if r.Interrupted? then list[..episode.cut.value] else list;
      forall p: Text :: At(end, p) == if p in written then At(episode.after, p) else At(episode.late, p)
  {
    TouchedIsChanged(list, start, order.read, episode.after);
    forall p: Text ensures At(end, p) == At(if p in Written(Copied(start, order.read), episode) then episode.after else episode.late, p) {
      OverlaidAt(episode.late, episode.after, Written(Copied(start, order.read), episode), p);
    }
  }

  /** The first of four faults refuses an output and leaves the parent its own tree: a long answer, a
      path outside the declared ones, too many bytes, or a path that the parent changed too. Without one
      the listed paths are written in order, all of them unless the import is cut short. */
  lemma {:induction false} OutputEnds(start: Tree, end: Tree, order: WorkOrder, limits: Limits, episode: Episode, r: Result,
                                      list: seq<Text>)
    requires episode.Answer? && Concludes(start, end, order, limits, episode, r) && Touched(list, start, order.read, episode.after)
    ensures
      if episode.output > limits.output then r == Refused(OutputTooLong)
      else if exists p :: p in list && p !in order.write then r == Refused(OutOfScope)
      else if Bytes(episode.after, list) > limits.patch then r == Refused(PatchTooLarge)
      else if exists p :: p in list && At(episode.edited, p) != Given(start, order.read, p) then r == Refused(Stale)
      else if list != [] && episode.cut.Some? && episode.cut.value <= |list| then r == Interrupted
      else r == Imported(list)
    ensures r.Refused? ==> end == episode.edited
    ensures !r.Refused? ==>
      var written := if r.Interrupted? then list[..episode.cut.value] else list;
      forall p: Text :: At(end, p) == if p in written then At(episode.after, p) else At(episode.late, p)
  {
    VerdictIs(list, start, order, limits, episode);
    if !r.Refused? {
      WrittenIs(list, start, end, order, limits, episode, r);
    }
  }

  // ---------- what the import means ----------

  /** A three-way merge, path by path: what only one side changed from the base is taken from
      that side, and no path was changed by both. */
  ghost predicate Merges(base: Tree, theirs: Tree, ours: Tree, merged: Tree) {
    forall p: Text ::
      if At(theirs, p) == At(base, p) then At(merged, p) == At(ours, p)
      else At(ours, p) == At(base, p) && At(merged, p) == At(theirs, p)
  }

  /** The workspace as the worker alone would have left it. */
  function Proposed(start: Tree, order: WorkOrder, after: Tree): Tree {
    Overlaid(start, after, Changed(Copied(start, order.read), after))
  }

  lemma OverlaidAt(tree: Tree, after: Tree, paths: set<Text>, p: Text)
    ensures At(Overlaid(tree, after, paths), p) == At(if p in paths then after else tree, p)
  {
  }

  /** Inside the declared inputs the scratch copy is the parent's tree. */
  lemma ChangedFrom(start: Tree, order: WorkOrder, after: Tree, p: Text)
    requires order.write <= order.read && Changed(Copied(start, order.read), after) <= order.write
    requires p in Changed(Copied(start, order.read), after)
    ensures At(start, p) == At(Copied(start, order.read), p) != At(after, p)
  {
  }

  /** A successful import leaves every changed path, all of them declared write paths, with the
      scratch content and every other path to the parent. It is a three-way merge if and only if
      the parent edited no changed path after that path was checked. */
  lemma {:induction false} ImportMerges(start: Tree, end: Tree, order: WorkOrder, limits: Limits, episode: Episode, r: Result)
    requires order.write <= order.read && Concludes(start, end, order, limits, episode, r) && r.Imported?
    ensures Lists(r.changed, Changed(start, Proposed(start, order, episode.after)))
    ensures forall p :: p in r.changed ==> p in order.write && At(episode.edited, p) == At(start, p)
    ensures forall p: Text :: At(end, p) == At(if p in r.changed then episode.after else episode.late, p)
    ensures Merges(start, Proposed(start, order, episode.after), episode.late, end)
      <==> forall p :: p in r.changed ==> At(episode.late, p) == At(episode.edited, p)
  {
    var before, after := Copied(start, order.read), episode.after;
    var changed := Changed(before, after);
    assert Elements(r.changed) == changed;
    forall p: Text
      ensures p in changed <==> p in r.changed
      ensures p in changed ==> At(episode.edited, p) == At(start, p) != At(after, p)
      ensures At(end, p) == At(if p in changed then after else episode.late, p)
      ensures At(Proposed(start, order, after), p) == At(if p in changed then after else start, p)
    {
      OverlaidAt(start, after, changed, p);
      OverlaidAt(episode.late, after, changed, p);
      if p in changed {
        ChangedFrom(start, order, after, p);
      }
    }
    assert Changed(start, Proposed(start, order, after)) == changed;
  }

  /** However the run ends, an edit the parent made before the path was checked is kept. */
  lemma {:induction false} EarlyEditIsKept(start: Tree, end: Tree, order: WorkOrder, limits: Limits, episode: Episode, r: Result, p: Text)
    requires order.write <= order.read && Concludes(start, end, order, limits, episode, r)
    requires At(Met(start, episode), p) != At(start, p)
    ensures At(end, p) == At(Own(start, episode, r), p)
  {
    if episode.Answer? && !r.Refused? {
      WrittenAreUnedited(start, end, order, limits, episode, r);
      OverlaidAt(episode.late, episode.after, Written(Copied(start, order.read), episode), p);
    }
  }

  lemma WrittenAreUnedited(start: Tree, end: Tree, order: WorkOrder, limits: Limits, episode: Episode, r: Result)
    requires order.write <= order.read && Concludes(start, end, order, limits, episode, r) && episode.Answer? && !r.Refused?
    ensures forall p :: p in Written(Copied(start, order.read), episode) ==> At(episode.edited, p) == At(start, p) != At(episode.after, p)
  {
    var before := Copied(start, order.read);
    forall p | p in Written(before, episode) ensures At(episode.edited, p) == At(start, p) != At(episode.after, p) {
      assert p in Elements(Sorted(Changed(before, episode.after)));
      ChangedFrom(start, order, episode.after, p);
    }
  }

  /** The import takes no lock: an edit is lost if and only if it changed a path that is imported,
      to something else than the import, after that path was checked. */
  lemma {:induction false} EditIsLostIff(start: Tree, end: Tree, order: WorkOrder, limits: Limits, episode: Episode, r: Result, p: Text)
    requires order.write <= order.read && Concludes(start, end, order, limits, episode, r)
    requires At(Own(start, episode, r), p) != At(start, p)
    ensures At(end, p) != At(Own(start, episode, r), p) <==>
      && episode.Answer? && !r.Refused? && p in Written(Copied(start, order.read), episode)
      && At(episode.late, p) != At(episode.edited, p) && At(episode.late, p) != At(episode.after, p)
  {
    if episode.Answer? && !r.Refused? {
      WrittenAreUnedited(start, end, order, limits, episode, r);
      OverlaidAt(episode.late, episode.after, Written(Copied(start, order.read), episode), p);
    }
  }

  /** Two-sided conflict check: with its scope and sizes in order the output is refused exactly
      when some path it changed was changed by the parent too, even to the same content. */
  lemma {:induction false} StaleIff(start: Tree, end: Tree, order: WorkOrder, limits: Limits, episode: Episode, r: Result)
    requires order.write <= order.read && Concludes(start, end, order, limits, episode, r) && episode.Answer?
    requires episode.output <= limits.output
    requires Changed(Copied(start, order.read), episode.after) <= order.write
    requires PatchSize(episode.after, Changed(Copied(start, order.read), episode.after)) <= limits.patch
    ensures r == Refused(Stale) <==>
      exists p: Text :: At(Proposed(start, order, episode.after), p) != At(start, p) && At(episode.edited, p) != At(start, p)
  {
  }

  /** The import itself is not atomic: cut short, and with no late edit of a changed path, it
      leaves the parent untouched exactly when it was cut before its first write. */
  lemma {:induction false} InterruptedIsPartial(start: Tree, end: Tree, order: WorkOrder, limits: Limits, episode: Episode)
    requires order.write <= order.read && Concludes(start, end, order, limits, episode, Interrupted)
    requires forall p :: p in Changed(Copied(start, order.read), episode.after) ==> At(episode.late, p) == At(episode.edited, p)
    ensures end == episode.late <==> episode.cut.value == 0
  {
    var before := Copied(start, order.read);
    var changed := Sorted(Changed(before, episode.after));
    WrittenAreUnedited(start, end, order, limits, episode, Interrupted);
    if episode.cut.value > 0 {
      var p := changed[0];
      assert p in Elements(changed) && p in changed[..episode.cut.value];
      OverlaidAt(episode.late, episode.after, Written(before, episode), p);
    }
  }
}
