/**
 * The implemented part of the directory-to-prompt tool: the stack of
 * exclusion filters, the file/directory tree node, and the step that turns
 * the parsed command-line flags into a `Properties` record.
 */
module Prepare {
  import opened Wrappers
  import opened Builtins

  /** A filesystem path as the filters see it. */
  type Path = string

  // ---------------------------------------------------------------- Filter

  /**
   * One exclusion filter. Its matching logic is not written yet in the tool,
   * so a filter is just the predicate it decides over paths.
   */
  datatype Filter = Filter(matches: Path -> bool)

  /**
   * Whether any filter of `filters` excludes `path`, looking at the filters
   * from the bottom of the stack to the top.
   */
  function AnyMatch(filters: seq<Filter>, path: Path): bool
    ensures AnyMatch(filters, path) ==> filters != []
    ensures filters != [] && filters[0].matches(path) ==> AnyMatch(filters, path)
  {
    filters != [] && (filters[0].matches(path) || AnyMatch(filters[1..], path))
  }

  /** The stack matches `path` exactly when some filter in it does. */
  lemma {:induction false} AnyMatchExists(filters: seq<Filter>, path: Path)
    ensures AnyMatch(filters, path) <==> exists i :: 0 <= i < |filters| && filters[i].matches(path)
  {
    if filters != [] {
      AnyMatchExists(filters[1..], path);
      assert forall i :: 1 <= i < |filters| ==> filters[1..][i - 1] == filters[i];
    }
  }

  /** An empty stack excludes nothing. */
  lemma EmptyMatchesNothing(path: Path)
    ensures !AnyMatch([], path)
  {
  }

  /** Stacking two groups of filters matches what either group matches. */
  lemma {:induction false} AnyMatchAppend(s: seq<Filter>, t: seq<Filter>, path: Path)
    ensures AnyMatch(s + t, path) == (AnyMatch(s, path) || AnyMatch(t, path))
  {
    if s != [] {
      assert (s + t)[1..] == s[1..] + t;
      AnyMatchAppend(s[1..], t, path);
    } else {
      assert s + t == t;
    }
  }

  /** The order of the filters does not affect matching: any reordering matches the same paths. */
  lemma AnyMatchPermutation(s: seq<Filter>, t: seq<Filter>, path: Path)
    requires multiset(s) == multiset(t)
    ensures AnyMatch(s, path) == AnyMatch(t, path)
  {
    AnyMatchExists(s, path);
    AnyMatchExists(t, path);
    if AnyMatch(s, path) {
      var i :| 0 <= i < |s| && s[i].matches(path);
      assert s[i] in multiset(t);
      var j :| 0 <= j < |t| && t[j] == s[i];
    }
    if AnyMatch(t, path) {
      var j :| 0 <= j < |t| && t[j].matches(path);
      assert t[j] in multiset(s);
      var i :| 0 <= i < |s| && s[i] == t[j];
    }
  }

  /**
   * The filters in force while the tree is walked, as a LIFO stack: the
   * last filter added is the first popped. `stack[|stack| - 1]` is the top.
   */
  class FilterStack {
    var stack: seq<Filter>

    constructor ()
      ensures stack == []
    {
      stack := [];
    }

    /** Pushes `filter` on top; the filters below keep their order. */
    method AddFilter(filter: Filter)
      modifies this
      ensures stack == old(stack) + [filter]
    {
      stack := stack + [filter];
    }

    /**
     * Removes the most recently added filter. On an empty stack this is the
     * IndexError of `list.pop`, and the stack is left as it was.
     */
    method PopFilter() returns (r: Result<(), Exception>)
      modifies this
      ensures r.Failure? <==> old(stack) == []
      ensures old(stack) != [] ==> stack == old(stack)[..|old(stack)| - 1]
      ensures old(stack) == [] ==> stack == []
    {
      if stack == [] {
        return Failure(IndexError);
      }
      stack := stack[..|stack| - 1];
      r := Success(());
    }

    /**
     * Whether some filter in the stack excludes `path`: a scan from the
     * bottom of the stack that stops at the first filter that matches.
     */
    method IsMatch(path: Path) returns (matched: bool)
      ensures matched == AnyMatch(stack, path)
      ensures matched <==> exists i :: 0 <= i < |stack| && stack[i].matches(path)
    {
      AnyMatchExists(stack, path);
      for i := 0 to |stack|
        invariant forall j :: 0 <= j < i ==> !stack[j].matches(path)
      {
        if stack[i].matches(path) {
          return true;
        }
      }
      return false;
    }
  }

  /** Pushing a filter and popping it again leaves the stack as it was. */
  method PushThenPop(filters: FilterStack, filter: Filter)
    modifies filters
    ensures filters.stack == old(filters.stack)
  {
    filters.AddFilter(filter);
    var r := filters.PopFilter();
  }

  /** After a push, the stack matches what it matched before plus what the new filter matches. */
  lemma MatchAfterPush(filters: seq<Filter>, filter: Filter, path: Path)
    ensures AnyMatch(filters + [filter], path) == (AnyMatch(filters, path) || filter.matches(path))
  {
    AnyMatchAppend(filters, [filter], path);
  }

  // --------------------------------------------------------------- Content

  /**
   * A node of the scanned tree: a file when `children` is `None`, a
   * directory (with its entries, in order) otherwise.
   */
  datatype Content = Content(name: string, children: Option<seq<Content>>, isReadable: bool)
  {
    /** A node is a file exactly when it carries no child list. */
    predicate IsFile()
      ensures IsFile() != children.Some?
    {
      children == None
    }

    /** A node is a directory exactly when it has a child list, so never both a file and a directory. */
    predicate IsDirectory()
      ensures IsDirectory() <==> children.Some?
      ensures IsDirectory() != IsFile()
    {
      !IsFile()
    }
  }

  // ------------------------------------------------------------ Properties

  /** Log modes. */
  const VERBOSE := 4
  const DEFAULT := 3
  const SILENCE := 2

  /** Ignore kinds. */
  const GIT := 9
  const GITIGNORE := 8
  const PREPAREIGNORE := 7
  const HIDDEN := 6

  /** The value `-d` takes when it is not given. */
  const DEFAULT_DEPTH := 6

  /** What the tool runs with. */
  datatype Properties = Properties(depth: int, ignores: seq<int>, logMode: int)

  /**
   * The command line after the flag parser: the source paths, the value
   * given to `-d` (`None` when it was not given), and whether each of
   * -G, -g, -p, -a, -v, -s was given.
   */
  datatype Arguments = Arguments(
    sources: seq<string>, depth: Option<int>,
    G: bool, g: bool, p: bool, a: bool, v: bool, s: bool)

  /** The depth: the value of `-d`, or `DEFAULT_DEPTH` when it was not given. */
  function DepthOf(given: Option<int>): (d: int)
    ensures given.Some? ==> d == given.value
    ensures given.None? ==> d == 6
  {
    match given
    case Some(d) => d
    case None => DEFAULT_DEPTH
  }

  /** The log mode: `-s` silences whatever `-v` says; `-v` alone is verbose. */
  function LogModeOf(v: bool, s: bool): (mode: int)
    ensures mode in {VERBOSE, DEFAULT, SILENCE}
    ensures s ==> mode == SILENCE
  {
    if s then SILENCE else if v then VERBOSE else DEFAULT
  }

  /** The ignore kinds whose flags are set, in the fixed order GIT, GITIGNORE, PREPAREIGNORE, HIDDEN. */
  function IgnoresOf(args: Arguments): (ignores: seq<int>)
    ensures |ignores| <= 4
    ensures forall k :: k in ignores ==> k in {GIT, GITIGNORE, PREPAREIGNORE, HIDDEN}
  {
    (if args.G then [GIT] else []) + (if args.g then [GITIGNORE] else [])
    + (if args.p then [PREPAREIGNORE] else []) + (if args.a then [HIDDEN] else [])
  }

  /** The properties a command line asks for. */
  function PropertiesOf(args: Arguments): (props: Properties)
    ensures args.depth.Some? ==> props.depth == args.depth.value
    ensures props.logMode in {VERBOSE, DEFAULT, SILENCE}
    ensures |props.ignores| <= 4
  {
    Properties(DepthOf(args.depth), IgnoresOf(args), LogModeOf(args.v, args.s))
  }

  /**
   * The end of argument parsing: sets the log mode step by step, collects
   * the ignore kinds one flag at a time, and returns the sources with the
   * resulting properties.
   */
  method ResolveArguments(args: Arguments) returns (sources: seq<string>, props: Properties)
    ensures sources == args.sources
    ensures props == PropertiesOf(args)
  {
    var depth := DEFAULT_DEPTH;
    if args.depth.Some? {
      depth := args.depth.value;
    }

    var logMode := DEFAULT;
    if args.v {
      logMode := VERBOSE;
    }
    if args.s {
      logMode := SILENCE;
    }

    ghost var git := if args.G then [GIT] else [];
    ghost var gitignore := if args.g then [GITIGNORE] else [];
    ghost var prepareignore := if args.p then [PREPAREIGNORE] else [];
    ghost var hidden := if args.a then [HIDDEN] else [];
    var ignores: seq<int> := [];
    if args.G {
      ignores := ignores + [GIT];
    }
    assert ignores == git;
    if args.g {
      ignores := ignores + [GITIGNORE];
    }
    assert ignores == git + gitignore;
    if args.p {
      ignores := ignores + [PREPAREIGNORE];
    }
    assert ignores == git + gitignore + prepareignore;
    if args.a {
      ignores := ignores + [HIDDEN];
    }
    assert ignores == IgnoresOf(args);

    return args.sources, Properties(depth, ignores, logMode);
  }

  /** `-s` silences logging whatever `-v` says; verbose exactly when `-v` without `-s`; otherwise default. */
  lemma LogModeResolution(v: bool, s: bool)
    ensures s ==> LogModeOf(v, s) == SILENCE
    ensures LogModeOf(v, s) == VERBOSE <==> v && !s
    ensures LogModeOf(v, s) == DEFAULT <==> !v && !s
    ensures LogModeOf(v, s) in {VERBOSE, DEFAULT, SILENCE}
  {
  }

  /** An ignore kind is listed exactly when its flag is set. */
  lemma IgnoresMembership(args: Arguments)
    ensures GIT in IgnoresOf(args) <==> args.G
    ensures GITIGNORE in IgnoresOf(args) <==> args.g
    ensures PREPAREIGNORE in IgnoresOf(args) <==> args.p
    ensures HIDDEN in IgnoresOf(args) <==> args.a
    ensures forall k :: k in IgnoresOf(args) ==> k in {GIT, GITIGNORE, PREPAREIGNORE, HIDDEN}
  {
  }

  /**
   * The ignore kinds come in the fixed order GIT, GITIGNORE, PREPAREIGNORE,
   * HIDDEN, i.e. strictly decreasing, so the list has no duplicates and
   * at most four entries.
   */
  lemma IgnoresOrdered(args: Arguments)
    ensures forall i, j :: 0 <= i < j < |IgnoresOf(args)| ==> IgnoresOf(args)[i] > IgnoresOf(args)[j]
    ensures |IgnoresOf(args)| <= 4
    ensures |IgnoresOf(args)| == (if args.G then 1 else 0) + (if args.g then 1 else 0)
                                 + (if args.p then 1 else 0) + (if args.a then 1 else 0)
  {
  }

  /** A depth given with `-d` passes through unchanged; without `-d` it is 6. */
  lemma DepthPassesThrough(args: Arguments)
    ensures args.depth.Some? ==> PropertiesOf(args).depth == args.depth.value
    ensures args.depth.None? ==> PropertiesOf(args).depth == 6
  {
  }

  /** `src -d 3 -g -v` gives depth 3, only GITIGNORE ignored, verbose logging. */
  lemma ExampleCommandLine()
    ensures PropertiesOf(Arguments(["src"], Some(3), false, true, false, false, true, false))
            == Properties(3, [GITIGNORE], VERBOSE)
  {
  }
}
