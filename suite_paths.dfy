// File naming of generated suites (test_theme_tree.py): the index taken
// from a node's numbering, zero-padded to the width of the parent's child
// count, and the memoised directory path of theme and test case set nodes.

module SuitePaths {
  import opened Wrappers
  import opened Text

  /** `numbering.rsplit(".", 1)[-1]`: the text after the last ".". */
  function GetTseIndex(numbering: string): (index: string)
    ensures EndsWith(numbering, index)
    ensures '.' !in index
    ensures '.' !in numbering ==> index == numbering
    ensures '.' in numbering ==> |index| < |numbering| && numbering[|numbering| - |index| - 1] == '.'
  {
    var d := LastIndexOf(numbering, '.');
    if d < 0 then numbering
    else
      var index := numbering[d + 1..];
      assert forall j :: 0 <= j < |index| ==> index[j] == numbering[d + 1 + j];
      index
  }

  function Zeros(n: nat): (z: string)
    ensures |z| == n && forall i :: 0 <= i < n ==> z[i] == '0'
  {
    if n == 0 then "" else "0" + Zeros(n - 1)
  }

  predicate HasSign(s: string)
  {
    |s| > 0 && (s[0] == '+' || s[0] == '-')
  }

  /** Python's `str.zfill(width)`: zeros go after a leading sign, never shortens. */
  function Zfill(s: string, width: int): (r: string)
    ensures |r| == if |s| >= width then |s| else width
    ensures |s| >= width ==> r == s
    ensures !HasSign(s) ==> EndsWith(r, s) && forall i :: 0 <= i < |r| - |s| ==> r[i] == '0'
    ensures HasSign(s) ==> r[0] == s[0] && EndsWith(r, s[1..])
  {
    if |s| >= width then s
    else if HasSign(s) then [s[0]] + Zeros(width - |s|) + s[1..]
    else Zeros(width - |s|) + s
  }

  lemma {:induction false} DigitsValueOfZeros(z: string, s: string)
    requires forall i :: 0 <= i < |z| ==> z[i] == '0'
    requires forall i :: 0 <= i < |s| ==> IsDigit(s[i])
    ensures forall i :: 0 <= i < |z + s| ==> IsDigit((z + s)[i])
    ensures DigitsValue(z + s) == DigitsValue(s)
    decreases |s|
  {
    if s == [] {
      assert z + s == z;
      ZerosAreWorthNothing(z);
    } else {
      var s' := s[..|s| - 1];
      assert (z + s)[..|z + s| - 1] == z + s';
      DigitsValueOfZeros(z, s');
    }
  }

  lemma {:induction false} ZerosAreWorthNothing(z: string)
    requires forall i :: 0 <= i < |z| ==> z[i] == '0'
    ensures forall i :: 0 <= i < |z| ==> IsDigit(z[i])
    ensures DigitsValue(z) == 0
    decreases |z|
  {
    if z != [] {
      ZerosAreWorthNothing(z[..|z| - 1]);
    }
  }

  /** Padding a digit string with zeros keeps the number it denotes. */
  lemma ZfillKeepsNumber(s: string, width: int)
    requires forall i :: 0 <= i < |s| ==> IsDigit(s[i])
    ensures forall i :: 0 <= i < |Zfill(s, width)| ==> IsDigit(Zfill(s, width)[i])
    ensures DigitsValue(Zfill(s, width)) == DigitsValue(s)
  {
    if |s| < width {
      assert !HasSign(s);
      DigitsValueOfZeros(Zeros(width - |s|), s);
    }
  }

  /** `get_padded_index`: the index padded to as many digits as the child count has. */
  function GetPaddedIndex(numbering: string, parentChildCount: nat): (r: string)
    ensures |r| == Max(|GetTseIndex(numbering)|, |NatToString(parentChildCount)|)
    ensures |GetTseIndex(numbering)| >= |NatToString(parentChildCount)| ==> r == GetTseIndex(numbering)
  {
    Zfill(GetTseIndex(numbering), |NatToString(parentChildCount)|)
  }

  function Max(a: int, b: int): int
  {
    if a >= b then a else b
  }

  /** A numeric index keeps its value and reaches the width of the child count. */
  lemma PaddedIndexReadsBack(i: nat, parentChildCount: nat, prefix: string)
    requires '.' !in prefix
    ensures GetTseIndex(prefix + "." + NatToString(i)) == NatToString(i)
    ensures var r := GetPaddedIndex(prefix + "." + NatToString(i), parentChildCount);
            (forall j :: 0 <= j < |r| ==> IsDigit(r[j])) && DigitsValue(r) == i &&
            |r| >= |NatToString(parentChildCount)|
  {
    var numbering := prefix + "." + NatToString(i);
    var digits := NatToString(i);
    assert numbering[|prefix|] == '.';
    assert '.' !in digits by {
      assert forall j :: 0 <= j < |digits| ==> IsDigit(digits[j]);
    }
    var d := LastIndexOf(numbering, '.');
    assert forall j :: |prefix| < j < |numbering| ==> numbering[j] == digits[j - |prefix| - 1];
    assert d == |prefix|;
    assert numbering[d + 1..] == digits;
    ZfillKeepsNumber(digits, |NatToString(parentChildCount)|);
    DigitsValueOfNatToString(i);
  }

  /** `file_prefix`: the padded index and "_", and a second "_" without suite numbering. */
  function FilePrefix(numbering: string, parentChildCount: nat, logSuiteNumbering: bool): (r: string)
    ensures StartsWith(r, GetPaddedIndex(numbering, parentChildCount))
    ensures r[|GetPaddedIndex(numbering, parentChildCount)|..] == if logSuiteNumbering then "_" else "__"
  {
    var padded := GetPaddedIndex(numbering, parentChildCount);
    var separator := if logSuiteNumbering then "_" else "__";
    var r := padded + separator;
    assert r[..|padded|] == padded && r[|padded|..] == separator;
    r
  }

  // ---------------------------------------------------------------------
  // Node paths
  // ---------------------------------------------------------------------

  /** A test theme (numbering and name from `baseInformation`) or a test case set. */
  datatype SuiteKind = ThemeNode | CaseSetNode

  /** The tree root; only the number of its children matters here. */
  class RootNode {
    var childCount: nat

    constructor ()
      ensures childCount == 0
    {
      childCount := 0;
    }
  }

  datatype ParentRef = AtRoot(root: RootNode) | Under(node: SuiteNode)

  /**
   * A theme or test case set node. `childCount` is `len(self.children)`,
   * `cachedPath` is `self._path`, a path as its list of segments.
   */
  class SuiteNode {
    const kind: SuiteKind
    const numbering: string
    const name: string
    const logSuiteNumbering: bool
    const parent: ParentRef
    ghost const depth: nat
    var childCount: nat
    var cachedPath: Option<seq<string>>

    ghost predicate Linked()
      decreases depth
    {
      match parent
      case AtRoot(_) => depth == 0
      case Under(p) => depth == p.depth + 1 && p.Linked()
    }

    /** This node and its ancestors. */
    ghost function Lineage(): set<SuiteNode>
      requires Linked()
      decreases depth
    {
      match parent
      case AtRoot(_) => {this}
      case Under(p) => {this} + p.Lineage()
    }

    /** Everything the path depends on: the lineage and the root above it. */
    ghost function Frame(): set<object>
      requires Linked()
      decreases depth
    {
      match parent
      case AtRoot(r) => {this, r}
      case Under(p) => {this} + p.Frame()
    }

    constructor (kind: SuiteKind, numbering: string, name: string, logSuiteNumbering: bool, parent: ParentRef)
      requires parent.Under? ==> parent.node.Linked()
      ensures this.kind == kind && this.numbering == numbering && this.name == name
      ensures this.logSuiteNumbering == logSuiteNumbering && this.parent == parent
      ensures childCount == 0 && cachedPath == None
      ensures Linked()
    {
      this.kind := kind;
      this.numbering := numbering;
      this.name := name;
      this.logSuiteNumbering := logSuiteNumbering;
      this.parent := parent;
      this.depth := if parent.Under? then parent.node.depth + 1 else 0;
      childCount := 0;
      cachedPath := None;
    }

    /** `len(self.parent.children)`. */
    function ParentChildCount(): nat
      reads (match parent case AtRoot(r) => r as object case Under(p) => p as object)
    {
      match parent
      case AtRoot(r) => r.childCount
      case Under(p) => p.childCount
    }

    /** The last segment: prefix and cleaned name. */
    function Segment(clean: string -> string): string
      reads (match parent case AtRoot(r) => r as object case Under(p) => p as object)
    {
      FilePrefix(numbering, ParentChildCount(), logSuiteNumbering) + clean(name)
    }

    /** The path computed from the current child counts, ignoring caches. */
    ghost function FreshPath(clean: string -> string): (p: seq<string>)
      requires Linked()
      reads Frame()
      ensures |p| == depth + 1
      decreases depth
    {
      match parent
      case AtRoot(r) => [Segment(clean)]
      case Under(q) => q.FreshPath(clean) + [Segment(clean)]
    }

    ghost predicate Uncached()
      requires Linked()
      reads Lineage()
      decreases depth
    {
      cachedPath.None? &&
      match parent
      case AtRoot(_) => true
      case Under(q) => q.Uncached()
    }

    /**
     * The `path` property. A cached path is returned as it is; otherwise the
     * parent's path (itself cached on the way) gets this node's segment, or
     * the segment alone below the root. `replace_invalid_characters` is the
     * parameter `clean`.
     */
    method Path(clean: string -> string) returns (p: seq<string>)
      requires Linked()
      modifies Lineage()`cachedPath
      ensures old(cachedPath).Some? ==> p == old(cachedPath).value
      ensures cachedPath == Some(p)
      ensures old(cachedPath).None? && parent.AtRoot? ==> p == [Segment(clean)]
      ensures old(cachedPath).None? && parent.Under? ==>
                parent.node.cachedPath.Some? && p == parent.node.cachedPath.value + [Segment(clean)]
      ensures old(Uncached()) ==> p == old(FreshPath(clean))
      decreases depth
    {
      if cachedPath.Some? {
        return cachedPath.value;
      }
      match parent {
        case AtRoot(r) =>
          p := [Segment(clean)];
        case Under(q) =>
          var up := q.Path(clean);
          p := up + [Segment(clean)];
      }
      cachedPath := Some(p);
    }
  }

  // ---------------------------------------------------------------------
  // The path as the source writes it
  // ---------------------------------------------------------------------

  /** A `PurePath` or a plain `str`. */
  datatype PathValue = Pure(segments: seq<string>) | Plain(text: string)

  /** The path a root-level node gets as written: a test case set gets a plain string. */
  function RootPathAsWritten(kind: SuiteKind, segment: string): (v: PathValue)
    ensures v.Plain? <==> kind == CaseSetNode
  {
    match kind
    case ThemeNode => Pure([segment])
    case CaseSetNode => Plain(segment)
  }

  /** `parent_path / segment`: defined on a `PurePath`, a `TypeError` on a `str`. */
  function JoinAsWritten(parentPath: PathValue, segment: string): (r: Result<PathValue, string>)
    ensures r.Success? <==> parentPath.Pure?
  {
    match parentPath
    case Pure(segs) => Success(Pure(segs + [segment]))
    case Plain(_) => Failure("TypeError: unsupported operand type(s) for /: 'str' and 'str'")
  }

  /** A test case set nested in a test case set at the root cannot compute its path as written. */
  lemma NestedUnderRootCaseSetFails(outer: string, inner: string)
    ensures JoinAsWritten(RootPathAsWritten(CaseSetNode, outer), inner).Failure?
    ensures JoinAsWritten(RootPathAsWritten(ThemeNode, outer), inner) == Success(Pure([outer, inner]))
  {
    assert [outer] + [inner] == [outer, inner];
  }
}
