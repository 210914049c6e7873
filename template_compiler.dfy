/**
 * The template include compiler. A template is read and parsed into a tree;
 * every comment child that the compiler takes for an include directive
 * (`markserv|<includer>|<path>|<params>`) is replaced, in its place among its
 * siblings, by the compiled tree of the template it names, resolved against
 * the directory of the including template; every other child is searched in
 * turn. Reading and parsing a file is a lookup in `Files`; the serialiser
 * that prints the final tree is not part of this model.
 */
module TemplateCompiler {
  import opened Wrappers
  import opened Text
  import Paths

  /**
   * A parsed document node: its `type` field (absent on some nodes), its text
   * `data`, whether it has a `children` field at all, and the children.
   */
  datatype Node = Node(kind: Option<string>, data: string, hasChildren: bool, children: seq<Node>)

  /** The templates that can be read: path to the top-level nodes its parse yields. */
  type Files = map<string, seq<Node>>

  /** The root node of a loaded document. */
  function Root(nodes: seq<Node>): Node {
    Node(Some("root"), "", true, nodes)
  }

  /** The fields `unpackCommentData` sets; an absent field is `None`. */
  datatype Include = Include(includer: Option<string>, filename: Option<string>, dirname: Option<string>, params: Option<string>)

  datatype CompileError =
    | ReadFailed(path: string)    // the template file could not be read
    | PathNotString               // `path.join` was handed a field the directive did not set
    | DepthExhausted              // more nested compiles than the fuel allows

  predicate IsComment(node: Node) {
    node.kind.Some? && node.kind.value == "comment"
  }

  /** A node without a `type` field is no comment; one with it is a comment exactly when the type is "comment". */
  lemma IsCommentCases(node: Node)
    ensures node.kind.None? ==> !IsComment(node)
    ensures node.kind.Some? ==> (IsComment(node) <==> node.kind.value == "comment")
  {
  }

  /** The text before the first `|` (all but the last character when there is none), whitespace removed, lower-cased. */
  function GetCommentIsMarkserv(data: string): (r: string)
    ensures |r| <= |data|
    ensures forall i :: 0 <= i < |r| ==> !IsWhitespace(r[i]) && !('A' <= r[i] <= 'Z')
  {
    var stripped := StripWhitespace(SliceTo(data, IndexOf(data, '|')));
    assert forall i :: 0 <= i < |stripped| ==> !IsWhitespace(LowerChar(stripped[i]));
    Lower(stripped)
  }

  /** How far the keyword of a directive reaches: to the first `|`, or to the last character. */
  function KeywordEnd(data: string): (e: nat)
    ensures e <= |data|
  {
    var k := IndexOf(data, '|');
    if k >= 0 then k else if |data| == 0 then 0 else |data| - 1
  }

  /** Some character of `s` is not whitespace. */
  predicate HasVisible(s: string) {
    s != [] && (!IsWhitespace(s[0]) || HasVisible(s[1..]))
  }

  /**
   * The test `filter` applies to a child: a comment whose keyword is not
   * empty once stripped, that is, whose text up to the keyword end is not
   * all whitespace (see `IncludeRecognition`).
   */
  predicate IsInclude(node: Node) {
    IsComment(node) && HasVisible(node.data[..KeywordEnd(node.data)])
  }

  /** Field 1 is the includer, field 2 gives filename and dirname, field 3 the parameters. */
  function UnpackCommentData(data: string): (r: Include) {
    var parts := Split(data, '|');
    Include(
      if |parts| > 1 then Some(parts[1]) else None,
      if |parts| > 2 then Some(Paths.Basename(parts[2])) else None,
      if |parts| > 2 then Some(Paths.Dirname(parts[2])) else None,
      if |parts| > 3 then Some(parts[3]) else None)
  }

  /** `path.join(dir, directive.dirname, directive.filename)`, which throws when either field is unset. */
  function Target(dir: string, directive: Include): (r: Result<string, CompileError>)
    ensures r.Err? <==> directive.dirname.None? || directive.filename.None?
    ensures r.Err? ==> r.error == PathNotString
  {
    if directive.dirname.None? || directive.filename.None? then Err(PathNotString)
    else Ok(Paths.Join([dir, directive.dirname.value, directive.filename.value]))
  }

  function NodeSize(n: Node): nat {
    1 + ChildrenSize(n.children)
  }

  function ChildrenSize(cs: seq<Node>): nat {
    if cs == [] then 0 else NodeSize(cs[0]) + ChildrenSize(cs[1..])
  }

  lemma {:induction false} ChildSmaller(cs: seq<Node>, i: nat)
    requires i < |cs|
    ensures NodeSize(cs[i]) <= ChildrenSize(cs)
  {
    if i > 0 {
      ChildSmaller(cs[1..], i - 1);
    }
  }

  /** The tree `compileTemplate(path)` leaves behind, with at most `fuel` nested compiles. */
  function Compiled(fs: Files, path: string, fuel: nat): (r: Result<Node, CompileError>)
    decreases fuel, 0, 0
  {
    if fuel == 0 then Err(DepthExhausted)
    else if path !in fs then Err(ReadFailed(path))
    else Filtered(fs, Root(fs[path]), Paths.Dirname(path), fuel - 1)
  }

  /** What `processNode` puts in place of an include comment: the compiled target. */
  function Processed(fs: Files, directive: Include, dir: string, fuel: nat): (r: Result<Node, CompileError>)
    decreases fuel, 0, 1
  {
    match Target(dir, directive)
    case Err(e) => Err(e)
    case Ok(path) => Compiled(fs, path, fuel)
  }

  /** One child after `filter` has dealt with it. */
  function ChildProcessed(fs: Files, child: Node, dir: string, fuel: nat): (r: Result<Node, CompileError>)
    decreases fuel, NodeSize(child), 2
  {
    if IsInclude(child) then Processed(fs, UnpackCommentData(child.data), dir, fuel)
    else Filtered(fs, child, dir, fuel)
  }

  /** The children after `filter`, in order; the first child that fails fails them all. */
  function FilteredChildren(fs: Files, cs: seq<Node>, dir: string, fuel: nat): (r: Result<seq<Node>, CompileError>)
    ensures r.Ok? ==> |r.value| == |cs|
    decreases fuel, ChildrenSize(cs), 3
  {
    if cs == [] then Ok([])
    else
      match ChildProcessed(fs, cs[0], dir, fuel)
      case Err(e) => Err(e)
      case Ok(c) =>
        match FilteredChildren(fs, cs[1..], dir, fuel)
        case Err(e) => Err(e)
        case Ok(rest) => Ok([c] + rest)
  }

  /** A node after `filter`: its own type and data stay, only its children are rewritten. */
  function Filtered(fs: Files, node: Node, dir: string, fuel: nat): (r: Result<Node, CompileError>)
    ensures r.Ok? ==> r.value.kind == node.kind && r.value.data == node.data
    ensures r.Ok? ==> r.value.hasChildren == node.hasChildren && |r.value.children| == |node.children|
    decreases fuel, NodeSize(node), 1
  {
    if !node.hasChildren then Ok(node)
    else if node.children == [] then Ok(node)
    else
      match FilteredChildren(fs, node.children, dir, fuel)
      case Err(e) => Err(e)
      case Ok(out) => Ok(node.(children := out))
  }

  /** No node below `n` is an include comment. */
  predicate IncludeFree(n: Node) {
    n.hasChildren ==> forall i :: 0 <= i < |n.children| ==> !IsInclude(n.children[i]) && IncludeFree(n.children[i])
  }

  // ---------------------------------------------------------------------------
  // The compiler as it runs: a loop over the children of each node.

  method CompileTemplate(fs: Files, templatePath: string, fuel: nat) returns (r: Result<Node, CompileError>)
    ensures r == Compiled(fs, templatePath, fuel)
    decreases fuel, 0, 0
  {
    if fuel == 0 {
      return Err(DepthExhausted);
    }
    if templatePath !in fs {
      return Err(ReadFailed(templatePath));
    }
    var rootElem := Root(fs[templatePath]);
    var templateRoot := Paths.Dirname(templatePath);
    r := Filter(fs, rootElem, templateRoot, fuel - 1);
  }

  method ProcessNode(fs: Files, directive: Include, dir: string, fuel: nat) returns (r: Result<Node, CompileError>)
    ensures r == Processed(fs, directive, dir, fuel)
    decreases fuel, 0, 1
  {
    var filepath := Target(dir, directive);
    if filepath.Err? {
      return Err(filepath.error);
    }
    r := CompileTemplate(fs, filepath.value, fuel);
  }

  method Filter(fs: Files, node: Node, dir: string, fuel: nat) returns (r: Result<Node, CompileError>)
    ensures r == Filtered(fs, node, dir, fuel)
    decreases fuel, NodeSize(node), 2
  {
    if !node.hasChildren {
      return Ok(node);
    }
    var cs := node.children;
    if |cs| == 0 {
      return Ok(node);
    }
    var out: seq<Node> := [];
    var i := 0;
    while i < |cs|
      invariant 0 <= i <= |cs|
      invariant |out| == i
      invariant forall j :: 0 <= j < i ==> ChildProcessed(fs, cs[j], dir, fuel) == Ok(out[j])
    {
      var child := cs[i];
      ChildSmaller(cs, i);
      var res;
      if IsInclude(child) {
        res := ProcessNode(fs, UnpackCommentData(child.data), dir, fuel);
      } else {
        res := Filter(fs, child, dir, fuel);
      }
      assert res == ChildProcessed(fs, child, dir, fuel);
      if res.Err? {
        FirstFailure(fs, cs, dir, fuel, i);
        FilteredSplices(fs, node, dir, fuel);
        return Err(res.error);
      }
      var done := out;
      out := done + [res.value];
      forall j | 0 <= j <= i
        ensures ChildProcessed(fs, cs[j], dir, fuel) == Ok(out[j])
      {
        if j < i {
          assert out[j] == done[j];
        }
      }
      i := i + 1;
    }
    AllChildrenProcessed(fs, cs, dir, fuel, out);
    FilteredSplices(fs, node, dir, fuel);
    return Ok(node.(children := out));
  }

  /** A node with children filters as its children do. */
  lemma FilteredSplices(fs: Files, node: Node, dir: string, fuel: nat)
    requires node.hasChildren && node.children != []
    ensures FilteredChildren(fs, node.children, dir, fuel).Err? ==>
      Filtered(fs, node, dir, fuel) == Err(FilteredChildren(fs, node.children, dir, fuel).error)
    ensures FilteredChildren(fs, node.children, dir, fuel).Ok? ==>
      Filtered(fs, node, dir, fuel) == Ok(node.(children := FilteredChildren(fs, node.children, dir, fuel).value))
  {
  }

  /** A node without a `children` field, or with no children, comes through `filter` as it is. */
  lemma ChildlessUnchanged(fs: Files, node: Node, dir: string, fuel: nat)
    requires !node.hasChildren || node.children == []
    ensures Filtered(fs, node, dir, fuel) == Ok(node)
  {
  }

  // ---------------------------------------------------------------------------
  // The children of a node: success and failure.

  /** The children succeed exactly when every child does, each keeping its position. */
  lemma AllChildrenProcessed(fs: Files, cs: seq<Node>, dir: string, fuel: nat, out: seq<Node>)
    ensures FilteredChildren(fs, cs, dir, fuel) == Ok(out) <==>
      |out| == |cs| && forall j :: 0 <= j < |cs| ==> ChildProcessed(fs, cs[j], dir, fuel) == Ok(out[j])
  {
    if FilteredChildren(fs, cs, dir, fuel) == Ok(out) {
      EachChildProcessed(fs, cs, dir, fuel, out);
    }
    if |out| == |cs| && forall j :: 0 <= j < |cs| ==> ChildProcessed(fs, cs[j], dir, fuel) == Ok(out[j]) {
      ChildrenFromEach(fs, cs, dir, fuel, out);
    }
  }

  lemma {:induction false} EachChildProcessed(fs: Files, cs: seq<Node>, dir: string, fuel: nat, out: seq<Node>)
    requires FilteredChildren(fs, cs, dir, fuel) == Ok(out)
    ensures |out| == |cs| && forall j :: 0 <= j < |cs| ==> ChildProcessed(fs, cs[j], dir, fuel) == Ok(out[j])
  {
    if cs != [] {
      var rest := out[1..];
      assert FilteredChildren(fs, cs[1..], dir, fuel) == Ok(rest);
      EachChildProcessed(fs, cs[1..], dir, fuel, rest);
      forall j | 0 <= j < |cs|
        ensures ChildProcessed(fs, cs[j], dir, fuel) == Ok(out[j])
      {
        if j > 0 {
          assert cs[1..][j - 1] == cs[j] && rest[j - 1] == out[j];
        }
      }
    }
  }

  lemma ChildrenCons(fs: Files, cs: seq<Node>, dir: string, fuel: nat, first: Node, rest: seq<Node>)
    requires cs != []
    requires ChildProcessed(fs, cs[0], dir, fuel) == Ok(first)
    requires FilteredChildren(fs, cs[1..], dir, fuel) == Ok(rest)
    ensures FilteredChildren(fs, cs, dir, fuel) == Ok([first] + rest)
  {
  }

  lemma {:induction false} ChildrenFromEach(fs: Files, cs: seq<Node>, dir: string, fuel: nat, out: seq<Node>)
    requires |out| == |cs|
    requires forall j :: 0 <= j < |cs| ==> ChildProcessed(fs, cs[j], dir, fuel) == Ok(out[j])
    ensures FilteredChildren(fs, cs, dir, fuel) == Ok(out)
  {
    if cs != [] {
      var rest := out[1..];
      forall j | 0 <= j < |cs| - 1
        ensures ChildProcessed(fs, cs[1..][j], dir, fuel) == Ok(rest[j])
      {
        assert cs[1..][j] == cs[j + 1] && rest[j] == out[j + 1];
      }
      ChildrenFromEach(fs, cs[1..], dir, fuel, rest);
      ChildrenCons(fs, cs, dir, fuel, out[0], rest);
      assert out == [out[0]] + rest;
    }
  }

  /** When every child before `k` succeeds and child `k` fails, the children fail with child `k`'s error. */
  lemma {:induction false} FirstFailure(fs: Files, cs: seq<Node>, dir: string, fuel: nat, k: nat)
    requires k < |cs|
    requires forall j :: 0 <= j < k ==> ChildProcessed(fs, cs[j], dir, fuel).Ok?
    requires ChildProcessed(fs, cs[k], dir, fuel).Err?
    ensures FilteredChildren(fs, cs, dir, fuel) == Err(ChildProcessed(fs, cs[k], dir, fuel).error)
  {
    if k > 0 {
      var rest := cs[1..];
      assert forall j :: 0 <= j < k - 1 ==> rest[j] == cs[j + 1];
      assert rest[k - 1] == cs[k];
      FirstFailure(fs, rest, dir, fuel, k - 1);
      assert ChildProcessed(fs, cs[0], dir, fuel).Ok?;
    }
  }

  /** A failing child fails the whole node, with the error of the first child that fails. */
  lemma {:induction false} FailingChildFailsNode(fs: Files, node: Node, dir: string, fuel: nat, k: nat) returns (j: nat)
    requires node.hasChildren && k < |node.children|
    requires ChildProcessed(fs, node.children[k], dir, fuel).Err?
    ensures j <= k && Filtered(fs, node, dir, fuel) == ChildProcessed(fs, node.children[j], dir, fuel)
    ensures Filtered(fs, node, dir, fuel).Err?
  {
    var cs := node.children;
    j := FirstFailing(fs, cs, dir, fuel, k);
    FirstFailure(fs, cs, dir, fuel, j);
  }

  /** The first failing child at or before a failing child `k`. */
  lemma {:induction false} FirstFailing(fs: Files, cs: seq<Node>, dir: string, fuel: nat, k: nat) returns (j: nat)
    requires k < |cs| && ChildProcessed(fs, cs[k], dir, fuel).Err?
    ensures j <= k && ChildProcessed(fs, cs[j], dir, fuel).Err?
    ensures forall i :: 0 <= i < j ==> ChildProcessed(fs, cs[i], dir, fuel).Ok?
  {
    if exists i :: 0 <= i < k && ChildProcessed(fs, cs[i], dir, fuel).Err? {
      var i :| 0 <= i < k && ChildProcessed(fs, cs[i], dir, fuel).Err?;
      j := FirstFailing(fs, cs, dir, fuel, i);
    } else {
      j := k;
    }
  }

  /**
   * Independently of which failing child the error is taken from: a node
   * with children fails exactly when one of its children fails, and then
   * with the error of a child that fails.
   */
  lemma FilteredFailsIff(fs: Files, node: Node, dir: string, fuel: nat)
    requires node.hasChildren
    ensures Filtered(fs, node, dir, fuel).Err? <==>
      exists k :: 0 <= k < |node.children| && ChildProcessed(fs, node.children[k], dir, fuel).Err?
    ensures Filtered(fs, node, dir, fuel).Err? ==>
      exists k :: 0 <= k < |node.children| && ChildProcessed(fs, node.children[k], dir, fuel) == Filtered(fs, node, dir, fuel)
  {
    var cs := node.children;
    if k :| 0 <= k < |cs| && ChildProcessed(fs, cs[k], dir, fuel).Err? {
      var j := FailingChildFailsNode(fs, node, dir, fuel, k);
    } else if cs != [] {
      var out := seq(|cs|, j requires 0 <= j < |cs| => ChildProcessed(fs, cs[j], dir, fuel).value);
      ChildrenFromEach(fs, cs, dir, fuel, out);
      FilteredSplices(fs, node, dir, fuel);
    }
  }

  /**
   * The splice: after a successful filter every child keeps its position;
   * an include comment holds the compiled tree of its target and any other
   * child holds its own filtered self, searched with the same directory.
   */
  lemma SpliceInPlace(fs: Files, node: Node, dir: string, fuel: nat)
    requires node.hasChildren
    requires Filtered(fs, node, dir, fuel).Ok?
    ensures var out := Filtered(fs, node, dir, fuel).value.children;
      var cs := node.children;
      && |out| == |cs|
      && (forall j :: 0 <= j < |cs| && IsInclude(cs[j]) ==>
            Processed(fs, UnpackCommentData(cs[j].data), dir, fuel) == Ok(out[j]))
      && (forall j :: 0 <= j < |cs| && !IsInclude(cs[j]) ==>
            Filtered(fs, cs[j], dir, fuel) == Ok(out[j]))
  {
    var cs := node.children;
    var out := Filtered(fs, node, dir, fuel).value.children;
    if cs != [] {
      AllChildrenProcessed(fs, cs, dir, fuel, out);
    } else {
      assert out == [];
    }
  }

  // ---------------------------------------------------------------------------
  // No directive survives.

  lemma {:induction false} CompiledIncludeFree(fs: Files, path: string, fuel: nat)
    ensures Compiled(fs, path, fuel).Ok? ==>
      Compiled(fs, path, fuel).value.kind == Some("root") && IncludeFree(Compiled(fs, path, fuel).value)
    decreases fuel, 0, 0
  {
    if fuel > 0 && path in fs {
      FilteredIncludeFree(fs, Root(fs[path]), Paths.Dirname(path), fuel - 1);
    }
  }

  lemma {:induction false} ProcessedIncludeFree(fs: Files, directive: Include, dir: string, fuel: nat)
    ensures Processed(fs, directive, dir, fuel).Ok? ==>
      !IsInclude(Processed(fs, directive, dir, fuel).value) && IncludeFree(Processed(fs, directive, dir, fuel).value)
    decreases fuel, 0, 1
  {
    var t := Target(dir, directive);
    if t.Ok? {
      CompiledIncludeFree(fs, t.value, fuel);
    }
  }

  lemma {:induction false} ChildIncludeFree(fs: Files, child: Node, dir: string, fuel: nat)
    ensures ChildProcessed(fs, child, dir, fuel).Ok? ==>
      !IsInclude(ChildProcessed(fs, child, dir, fuel).value) && IncludeFree(ChildProcessed(fs, child, dir, fuel).value)
    decreases fuel, NodeSize(child), 2
  {
    if IsInclude(child) {
      ProcessedIncludeFree(fs, UnpackCommentData(child.data), dir, fuel);
    } else {
      FilteredIncludeFree(fs, child, dir, fuel);
    }
  }

  lemma {:induction false} FilteredIncludeFree(fs: Files, node: Node, dir: string, fuel: nat)
    ensures Filtered(fs, node, dir, fuel).Ok? ==> IncludeFree(Filtered(fs, node, dir, fuel).value)
    decreases fuel, NodeSize(node), 1
  {
    var r := Filtered(fs, node, dir, fuel);
    if r.Ok? && node.hasChildren && node.children != [] {
      var cs := node.children;
      var out := r.value.children;
      AllChildrenProcessed(fs, cs, dir, fuel, out);
      forall j | 0 <= j < |cs|
        ensures !IsInclude(out[j]) && IncludeFree(out[j])
      {
        ChildSmaller(cs, j);
        ChildIncludeFree(fs, cs[j], dir, fuel);
      }
    }
  }

  /** After a successful compile no include comment is left anywhere in the tree. */
  lemma NoIncludeSurvives(fs: Files, path: string, fuel: nat)
    requires Compiled(fs, path, fuel).Ok?
    ensures IncludeFree(Compiled(fs, path, fuel).value)
  {
    CompiledIncludeFree(fs, path, fuel);
  }

  /** A tree without include comments comes through the filter unchanged. */
  lemma {:induction false} FilterKeepsIncludeFree(fs: Files, node: Node, dir: string, fuel: nat)
    requires IncludeFree(node)
    ensures Filtered(fs, node, dir, fuel) == Ok(node)
    decreases NodeSize(node)
  {
    if node.hasChildren && node.children != [] {
      var cs := node.children;
      forall j | 0 <= j < |cs|
        ensures ChildProcessed(fs, cs[j], dir, fuel) == Ok(cs[j])
      {
        ChildSmaller(cs, j);
        FilterKeepsIncludeFree(fs, cs[j], dir, fuel);
      }
      AllChildrenProcessed(fs, cs, dir, fuel, cs);
    }
  }

  /** A template without include comments compiles, with any fuel at all, to its own tree. */
  lemma PlainTemplateCompiles(fs: Files, path: string, fuel: nat)
    requires path in fs && fuel > 0
    requires IncludeFree(Root(fs[path]))
    ensures Compiled(fs, path, fuel) == Ok(Root(fs[path]))
  {
    FilterKeepsIncludeFree(fs, Root(fs[path]), Paths.Dirname(path), fuel - 1);
  }

  /** A template that compiles with some fuel compiles to the same tree with more. */
  lemma {:induction false} MoreFuelSameResult(fs: Files, path: string, fuel: nat, more: nat)
    requires fuel <= more
    requires Compiled(fs, path, fuel).Ok?
    ensures Compiled(fs, path, more) == Compiled(fs, path, fuel)
    decreases fuel, 0, 0
  {
    FilteredMoreFuel(fs, Root(fs[path]), Paths.Dirname(path), fuel - 1, more - 1);
  }

  lemma {:induction false} FilteredMoreFuel(fs: Files, node: Node, dir: string, fuel: nat, more: nat)
    requires fuel <= more
    requires Filtered(fs, node, dir, fuel).Ok?
    ensures Filtered(fs, node, dir, more) == Filtered(fs, node, dir, fuel)
    decreases fuel, NodeSize(node), 1
  {
    if node.hasChildren && node.children != [] {
      var cs := node.children;
      var out := Filtered(fs, node, dir, fuel).value.children;
      AllChildrenProcessed(fs, cs, dir, fuel, out);
      forall j | 0 <= j < |cs|
        ensures ChildProcessed(fs, cs[j], dir, more) == Ok(out[j])
      {
        ChildSmaller(cs, j);
        if IsInclude(cs[j]) {
          var t := Target(dir, UnpackCommentData(cs[j].data));
          MoreFuelSameResult(fs, t.value, fuel, more);
        } else {
          FilteredMoreFuel(fs, cs[j], dir, fuel, more);
        }
      }
      AllChildrenProcessed(fs, cs, dir, more, out);
    }
  }

  // ---------------------------------------------------------------------------
  // Failures.

  /** A template that includes itself never compiles: there is no cycle check, only the fuel runs out. */
  lemma {:induction false} SelfIncludeNeverCompiles(fs: Files, path: string, fuel: nat, k: nat)
    requires path in fs && k < |fs[path]|
    requires IsInclude(fs[path][k])
    requires Target(Paths.Dirname(path), UnpackCommentData(fs[path][k].data)) == Ok(path)
    ensures Compiled(fs, path, fuel).Err?
    decreases fuel
  {
    if fuel > 0 {
      SelfIncludeNeverCompiles(fs, path, fuel - 1, k);
      assert Processed(fs, UnpackCommentData(fs[path][k].data), Paths.Dirname(path), fuel - 1).Err?;
      FailingChildFailsCompile(fs, path, fuel, k);
    }
  }

  /** Including a template that cannot be read fails the compile. */
  lemma MissingTargetFails(fs: Files, path: string, fuel: nat, k: nat, target: string)
    requires path in fs && k < |fs[path]| && fuel > 0
    requires IsInclude(fs[path][k])
    requires Target(Paths.Dirname(path), UnpackCommentData(fs[path][k].data)) == Ok(target)
    requires target !in fs
    ensures Compiled(fs, path, fuel).Err?
  {
    var dir := Paths.Dirname(path);
    var c := fs[path][k];
    assert Compiled(fs, target, fuel - 1).Err?;
    assert Processed(fs, UnpackCommentData(c.data), dir, fuel - 1).Err?;
    FailingChildFailsCompile(fs, path, fuel, k);
  }

  /** A top-level child of a template that fails fails the compile of the template. */
  lemma FailingChildFailsCompile(fs: Files, path: string, fuel: nat, k: nat)
    requires path in fs && k < |fs[path]| && fuel > 0
    requires ChildProcessed(fs, fs[path][k], Paths.Dirname(path), fuel - 1).Err?
    ensures Compiled(fs, path, fuel).Err?
  {
    var root := Root(fs[path]);
    var dir := Paths.Dirname(path);
    assert root.children[k] == fs[path][k];
    var _ := FailingChildFailsNode(fs, root, dir, fuel - 1, k);
    CompiledUnfolds(fs, path, fuel);
  }

  lemma CompiledUnfolds(fs: Files, path: string, fuel: nat)
    requires path in fs && fuel > 0
    ensures Compiled(fs, path, fuel) == Filtered(fs, Root(fs[path]), Paths.Dirname(path), fuel - 1)
  {
  }

  /** A template that cannot be read fails with the read error. */
  lemma UnreadableTemplateFails(fs: Files, path: string, fuel: nat)
    requires path !in fs && fuel > 0
    ensures Compiled(fs, path, fuel) == Err(ReadFailed(path))
  {
  }

  // ---------------------------------------------------------------------------
  // Recognising and unpacking a directive.

  /** Stripping whitespace leaves nothing exactly when there was nothing visible. */
  lemma {:induction false} StripWhitespaceBlank(s: string)
    ensures StripWhitespace(s) == "" <==> !HasVisible(s)
  {
    if s != [] {
      StripWhitespaceBlank(s[1..]);
    }
  }

  /** `HasVisible` holds exactly when some position holds a character that is not whitespace. */
  lemma {:induction false} HasVisibleAt(s: string)
    ensures HasVisible(s) <==> exists i :: 0 <= i < |s| && !IsWhitespace(s[i])
  {
    if s != [] {
      HasVisibleAt(s[1..]);
      assert forall i :: 1 <= i < |s| ==> s[i] == s[1..][i - 1];
      if !IsWhitespace(s[0]) {
        assert 0 < |s| && !IsWhitespace(s[0]);
      } else if HasVisible(s[1..]) {
        var i :| 0 <= i < |s| - 1 && !IsWhitespace(s[1..][i]);
        assert !IsWhitespace(s[i + 1]);
      }
    }
  }

  /**
   * `filter` takes a child for an include exactly when it is a comment whose
   * `getCommentIsMarkserv` value is not empty, which happens exactly when
   * its text up to the keyword end holds a character that is not
   * whitespace; the keyword is never compared with "markserv".
   */
  lemma IncludeRecognition(node: Node)
    ensures IsInclude(node) <==> IsComment(node) && GetCommentIsMarkserv(node.data) != ""
    ensures IsInclude(node) <==>
      IsComment(node) && exists i :: 0 <= i < KeywordEnd(node.data) && !IsWhitespace(node.data[i])
  {
    var data := node.data;
    var prefix := data[..KeywordEnd(data)];
    assert SliceTo(data, IndexOf(data, '|')) == prefix;
    StripWhitespaceBlank(prefix);
    HasVisibleAt(prefix);
  }

  /** With a `|` the keyword is the text before the first one. */
  lemma KeywordBeforeFirstPipe(keyword: string, rest: string)
    requires '|' !in keyword
    ensures GetCommentIsMarkserv(keyword + "|" + rest) == Lower(StripWhitespace(keyword))
  {
    var data := keyword + "|" + rest;
    assert data[|keyword|] == '|';
    assert forall i :: 0 <= i < |keyword| ==> data[i] == keyword[i];
    assert IndexOf(data, '|') == |keyword|;
    assert data[..|keyword|] == keyword;
  }

  /** Without a `|`, `indexOf` is -1 and the keyword is everything but the last character. */
  lemma KeywordWithoutPipe(data: string)
    requires '|' !in data && |data| > 0
    ensures GetCommentIsMarkserv(data) == Lower(StripWhitespace(data[..|data| - 1]))
  {
  }

  /**
   * A comment without any `|` is taken for a directive as soon as some
   * character before its last one is not whitespace.
   */
  lemma PipelessCommentIsInclude(node: Node)
    requires IsComment(node) && '|' !in node.data
    requires exists i :: 0 <= i < |node.data| - 1 && !IsWhitespace(node.data[i])
    ensures IsInclude(node)
  {
    IncludeRecognition(node);
    assert KeywordEnd(node.data) == |node.data| - 1;
  }

  /**
   * The fields of a directive joined from parts free of `|`: part 1 is the
   * includer, part 2 gives filename and dirname, part 3 the parameters; a
   * field whose part is missing stays unset, and parts after 3 are ignored.
   */
  lemma UnpackFields(parts: seq<string>)
    requires |parts| >= 1
    requires forall i :: 0 <= i < |parts| ==> '|' !in parts[i]
    ensures var d := UnpackCommentData(JoinWith(parts, '|'));
      && d.includer == (if |parts| > 1 then Some(parts[1]) else None)
      && d.filename == (if |parts| > 2 then Some(Paths.Basename(parts[2])) else None)
      && d.dirname == (if |parts| > 2 then Some(Paths.Dirname(parts[2])) else None)
      && d.params == (if |parts| > 3 then Some(parts[3]) else None)
  {
    SplitJoin(parts, '|');
  }

  /** A directive of one or two parts, such as `markserv|html`, sets no path, so the include fails with the path error. */
  lemma PathlessDirectiveFails(parts: seq<string>, dir: string)
    requires 1 <= |parts| <= 2
    requires forall i :: 0 <= i < |parts| ==> '|' !in parts[i]
    ensures Target(dir, UnpackCommentData(JoinWith(parts, '|'))) == Err(PathNotString)
  {
    UnpackFields(parts);
  }

  /** A comment without any `|` has no field set. */
  lemma UnpackNoPipe(data: string)
    requires '|' !in data
    ensures UnpackCommentData(data) == Include(None, None, None, None)
  {
    assert IndexOf(data, '|') < 0;
  }

  /**
   * A comment without `|` whose keyword is not blank is taken for a directive,
   * gives `path.join` an unset field, and so fails the compile of any
   * template that holds it directly.
   */
  lemma PlainCommentFailsCompile(fs: Files, path: string, fuel: nat, k: nat)
    requires path in fs && k < |fs[path]| && fuel > 0
    requires IsComment(fs[path][k]) && '|' !in fs[path][k].data
    requires exists i :: 0 <= i < |fs[path][k].data| - 1 && !IsWhitespace(fs[path][k].data[i])
    ensures Compiled(fs, path, fuel).Err?
  {
    var c := fs[path][k];
    PipelessCommentIsInclude(c);
    UnpackNoPipe(c.data);
    assert Processed(fs, UnpackCommentData(c.data), Paths.Dirname(path), fuel - 1).Err?;
    FailingChildFailsCompile(fs, path, fuel, k);
  }
}
