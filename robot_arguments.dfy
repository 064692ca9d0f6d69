// Rendering the call-by-value parameters of an interaction as Robot
// Framework keyword arguments (test_suite_creation.py, get_cbv_parameters).

module RobotArguments {
  import opened Wrappers
  import opened Text
  import opened SuiteTree
  import opened RobotEscaping

  // ---------------------------------------------------------------------
  // The dict comprehension {param.name: param.value ...}
  // ---------------------------------------------------------------------

  /** Position of the entry with key `k`, if any. */
  function EntryIndex(items: seq<(string, string)>, k: string): (r: Option<nat>)
    ensures r.Some? ==> r.value < |items| && items[r.value].0 == k
    ensures r.Some? ==> forall j :: 0 <= j < r.value ==> items[j].0 != k
    ensures r.None? <==> forall j :: 0 <= j < |items| ==> items[j].0 != k
  {
    if items == [] then None
    else if items[0].0 == k then Some(0)
    else match EntryIndex(items[1..], k)
      case None => None
      case Some(i) => Some(i + 1)
  }

  /** `d[k] = v` on a dict: an existing key keeps its place, a new one goes last. */
  function DictSet(items: seq<(string, string)>, k: string, v: string): (r: seq<(string, string)>)
    ensures |items| <= |r| <= |items| + 1
  {
    match EntryIndex(items, k)
    case Some(i) => items[i := (k, v)]
    case None => items + [(k, v)]
  }

  /** The items of the dict of call-by-value parameters, in insertion order. */
  function CbvItems(ps: seq<Parameter>): (items: seq<(string, string)>)
    ensures |items| <= |ps|
    ensures (forall i :: 0 <= i < |ps| ==> ps[i].useType != CallByValue) ==> items == []
    decreases |ps|
  {
    if ps == [] then []
    else
      var prev := CbvItems(ps[..|ps| - 1]);
      var p := ps[|ps| - 1];
      if p.useType == CallByValue then DictSet(prev, p.name, p.value) else prev
  }

  ghost predicate DistinctKeys(items: seq<(string, string)>)
  {
    forall i, j :: 0 <= i < j < |items| ==> items[i].0 != items[j].0
  }

  /** The value of the last call-by-value parameter named `k`, if any. */
  function LastCbvValue(ps: seq<Parameter>, k: string): (r: Option<string>)
    ensures r.None? <==> forall i :: 0 <= i < |ps| ==> !(ps[i].useType == CallByValue && ps[i].name == k)
    decreases |ps|
  {
    if ps == [] then None
    else
      var p := ps[|ps| - 1];
      if p.useType == CallByValue && p.name == k then Some(p.value)
      else LastCbvValue(ps[..|ps| - 1], k)
  }

  lemma DictSetKeys(items: seq<(string, string)>, k: string, v: string)
    requires DistinctKeys(items)
    ensures DistinctKeys(DictSet(items, k, v))
    ensures forall j :: 0 <= j < |items| ==> DictSet(items, k, v)[j].0 == items[j].0
    ensures EntryIndex(DictSet(items, k, v), k).Some?
    ensures DictSet(items, k, v)[EntryIndex(DictSet(items, k, v), k).value] == (k, v)
  {
    var r := DictSet(items, k, v);
    match EntryIndex(items, k) {
      case Some(i) =>
        assert forall j :: 0 <= j < |r| ==> r[j].0 == items[j].0;
        assert EntryIndex(r, k) == Some(i) by {
          EntryIndexSameKeys(items, r, k);
        }
      case None =>
        assert r[|items|] == (k, v);
        assert forall j :: 0 <= j < |items| ==> r[j] == items[j];
        assert EntryIndex(r, k) == Some(|items|) by {
          EntryIndexOfLast(r, k);
        }
    }
  }

  lemma {:induction false} EntryIndexSameKeys(a: seq<(string, string)>, b: seq<(string, string)>, k: string)
    requires |a| == |b| && forall j :: 0 <= j < |a| ==> a[j].0 == b[j].0
    ensures EntryIndex(a, k) == EntryIndex(b, k)
    decreases |a|
  {
    if a != [] {
      EntryIndexSameKeys(a[1..], b[1..], k);
    }
  }

  lemma EntryIndexOfLast(r: seq<(string, string)>, k: string)
    requires |r| > 0 && r[|r| - 1].0 == k
    requires forall j :: 0 <= j < |r| - 1 ==> r[j].0 != k
    ensures EntryIndex(r, k) == Some(|r| - 1)
  {
  }

  lemma DictSetOtherKey(items: seq<(string, string)>, k: string, v: string, k': string)
    requires DistinctKeys(items) && k' != k
    ensures EntryIndex(DictSet(items, k, v), k').Some? <==> EntryIndex(items, k').Some?
    ensures EntryIndex(items, k').Some? ==>
              EntryIndex(DictSet(items, k, v), k') == EntryIndex(items, k') &&
              DictSet(items, k, v)[EntryIndex(items, k').value] == items[EntryIndex(items, k').value]
  {
    var r := DictSet(items, k, v);
    DictSetKeys(items, k, v);
    match EntryIndex(items, k) {
      case Some(i) =>
        EntryIndexSameKeys(items, r, k');
      case None =>
        assert forall j :: 0 <= j < |items| ==> r[j] == items[j];
        if EntryIndex(items, k').Some? {
          var i := EntryIndex(items, k').value;
          assert r[i].0 == k' && forall j :: 0 <= j < i ==> r[j].0 != k';
          EntryIndexFirst(r, k', i);
        } else {
          assert forall j :: 0 <= j < |r| ==> r[j].0 != k';
        }
    }
  }

  lemma EntryIndexFirst(r: seq<(string, string)>, k: string, i: nat)
    requires i < |r| && r[i].0 == k && forall j :: 0 <= j < i ==> r[j].0 != k
    ensures EntryIndex(r, k) == Some(i)
  {
  }

  /**
   * The dict has one entry per call-by-value name, keyed uniquely, holding
   * the value of the last parameter with that name.
   */
  lemma {:induction false} CbvItemsAreTheLastValues(ps: seq<Parameter>, k: string)
    ensures DistinctKeys(CbvItems(ps))
    ensures EntryIndex(CbvItems(ps), k).Some? <==> LastCbvValue(ps, k).Some?
    ensures EntryIndex(CbvItems(ps), k).Some? ==>
              CbvItems(ps)[EntryIndex(CbvItems(ps), k).value].1 == LastCbvValue(ps, k).value
    decreases |ps|
  {
    if ps != [] {
      var init := ps[..|ps| - 1];
      var p := ps[|ps| - 1];
      CbvItemsAreTheLastValues(init, k);
      if p.useType == CallByValue {
        DictSetKeys(CbvItems(init), p.name, p.value);
        if p.name != k {
          DictSetOtherKey(CbvItems(init), p.name, p.value, k);
        }
      }
    }
  }

  // ---------------------------------------------------------------------
  // Name patterns
  // ---------------------------------------------------------------------

  /** `re.search(r'(^-\ ?|=$)', name)`; `$` also matches before a final newline. */
  predicate ForcesNamed(name: string): (b: bool)
    ensures b ==> |name| > 0 && (name[0] == '-' || '=' in name)
  {
    if EndsWith(name, "=") then
      assert name[|name| - 1] == name[|name| - 1..][0];
      true
    else if EndsWith(name, "=\n") then
      assert name[|name| - 2] == name[|name| - 2..][0];
      true
    else StartsWith(name, "-")
  }

  /** `re.sub(r'(^-\ ?|=$)', "", name)`: drops a leading "-" or "- " and a final "=". */
  function PureName(name: string): (r: string)
    ensures |r| <= |name|
    ensures !ForcesNamed(name) ==> r == name
    ensures ForcesNamed(name) <==> |r| < |name|
  {
    var a := if StartsWith(name, "- ") then name[2..] else if StartsWith(name, "-") then name[1..] else name;
    if EndsWith(a, "=") then a[..|a| - 1]
    else if EndsWith(a, "=\n") then a[..|a| - 2] + "\n"
    else a
  }

  // ---------------------------------------------------------------------
  // The rendering loop
  // ---------------------------------------------------------------------

  datatype Rendered = Rendered(argument: Option<string>, forceNamed: bool)

  /** One iteration of the loop: the argument appended, if any, and the new flag. */
  function RenderOne(name: string, value: string, forced: bool, cbvNames: seq<string>): (r: Rendered)
    ensures value == "undef." ==> r == Rendered(None, true)
    ensures value != "undef." ==> r.argument.Some?
    ensures forced ==> r.forceNamed
    ensures value != "undef." && StartsWith(name, "**") ==>
              r == Rendered(Some(EscapeArgumentValue(value, false, false)), forced)
    ensures value != "undef." && !StartsWith(name, "**") && StartsWith(name, "*") ==>
              r == Rendered(Some(EscapeArgumentValue(value, false, true)), true)
    ensures value != "undef." && !StartsWith(name, "*") && (ForcesNamed(name) || forced) ==>
              r == Rendered(Some(PureName(name) + "=" + EscapeArgumentValue(value, true, false)), true)
    ensures value != "undef." && !StartsWith(name, "*") && !(ForcesNamed(name) || forced) ==>
              !r.forceNamed
  {
    if value == "undef." then Rendered(None, true)
    else if StartsWith(name, "**") then Rendered(Some(EscapeArgumentValue(value, false, false)), forced)
    else if StartsWith(name, "*") then Rendered(Some(EscapeArgumentValue(value, false, true)), true)
    else if ForcesNamed(name) || forced then
      Rendered(Some(PureName(name) + "=" + EscapeArgumentValue(value, true, false)), true)
    else
      var eq := IndexOf(value, '=');
      if eq != -1 && value[..eq] in cbvNames then
        Rendered(Some(EscapeArgumentValue(value, true, true)), false)
      else
        Rendered(Some(EscapeArgumentValue(value, true, false)), false)
  }

  function Emitted(r: Rendered): seq<string>
  {
    match r.argument
    case Some(a) => [a]
    case None => []
  }

  /** The arguments rendered from `items` with the flag starting at `forced`. */
  function RenderArguments(items: seq<(string, string)>, forced: bool, cbvNames: seq<string>): (args: seq<string>)
    ensures |args| <= |items|
    ensures (forall i :: 0 <= i < |items| ==> items[i].1 != "undef.") ==> |args| == |items|
    decreases |items|
  {
    if items == [] then []
    else
      var r := RenderOne(items[0].0, items[0].1, forced, cbvNames);
      Emitted(r) + RenderArguments(items[1..], r.forceNamed, cbvNames)
  }

  /** The flag after rendering `items`. */
  function FlagAfter(items: seq<(string, string)>, forced: bool, cbvNames: seq<string>): bool
    decreases |items|
  {
    if items == [] then forced
    else FlagAfter(items[1..], RenderOne(items[0].0, items[0].1, forced, cbvNames).forceNamed, cbvNames)
  }

  /** `get_cbv_parameters(interaction)`. */
  method GetCbvParameters(interaction: InteractionDetails) returns (parameter: seq<string>)
    ensures parameter == RenderArguments(CbvItems(interaction.parameters), false, interaction.cbvNames)
  {
    var items := CbvItems(interaction.parameters);
    parameter := [];
    var previousArgForcesNamed := false;
    for i := 0 to |items|
      invariant parameter + RenderArguments(items[i..], previousArgForcesNamed, interaction.cbvNames) ==
                RenderArguments(items, false, interaction.cbvNames)
    {
      var name := items[i].0;
      var value := items[i].1;
      ghost var before := previousArgForcesNamed;
      var piece: seq<string> := [];
      if value == "undef." {
        previousArgForcesNamed := true;
      } else if StartsWith(name, "**") {
        piece := [EscapeArgumentValue(value, false, false)];
      } else if StartsWith(name, "*") {
        piece := [EscapeArgumentValue(value, false, true)];
        previousArgForcesNamed := true;
      } else if ForcesNamed(name) || previousArgForcesNamed {
        var escapedValue := EscapeArgumentValue(value, true, false);
        var pureName := PureName(name);
        piece := [pureName + "=" + escapedValue];
        previousArgForcesNamed := true;
      } else {
        var eq := IndexOf(value, '=');
        if eq != -1 && value[..eq] in interaction.cbvNames {
          piece := [EscapeArgumentValue(value, true, true)];
        } else {
          piece := [EscapeArgumentValue(value, true, false)];
        }
      }
      RenderStep(items, i, before, interaction.cbvNames);
      assert piece == Emitted(RenderOne(name, value, before, interaction.cbvNames));
      assert previousArgForcesNamed == RenderOne(name, value, before, interaction.cbvNames).forceNamed;
      ConcatAssociates(parameter, piece, RenderArguments(items[i + 1..], previousArgForcesNamed, interaction.cbvNames));
      parameter := parameter + piece;
    }
    assert items[|items|..] == [];
  }

  lemma RenderStep(items: seq<(string, string)>, i: nat, forced: bool, cbvNames: seq<string>)
    requires i < |items|
    ensures var r := RenderOne(items[i].0, items[i].1, forced, cbvNames);
      RenderArguments(items[i..], forced, cbvNames) == Emitted(r) + RenderArguments(items[i + 1..], r.forceNamed, cbvNames)
  {
    assert items[i..][0] == items[i];
    assert items[i..][1..] == items[i + 1..];
  }

  // ---------------------------------------------------------------------
  // Properties of the loop
  // ---------------------------------------------------------------------

  lemma {:induction false} RenderArgumentsAppend(a: seq<(string, string)>, b: seq<(string, string)>,
                                                 forced: bool, cbvNames: seq<string>)
    ensures RenderArguments(a + b, forced, cbvNames) ==
            RenderArguments(a, forced, cbvNames) + RenderArguments(b, FlagAfter(a, forced, cbvNames), cbvNames)
    decreases |a|
  {
    if a == [] {
      assert a + b == b;
    } else {
      assert (a + b)[0] == a[0];
      assert (a + b)[1..] == a[1..] + b;
      var r := RenderOne(a[0].0, a[0].1, forced, cbvNames);
      RenderArgumentsAppend(a[1..], b, r.forceNamed, cbvNames);
    }
  }

  /** Once on, the flag stays on. */
  lemma {:induction false} ForceNamedIsNeverReset(items: seq<(string, string)>, cbvNames: seq<string>)
    ensures FlagAfter(items, true, cbvNames)
    decreases |items|
  {
    if items != [] {
      ForceNamedIsNeverReset(items[1..], cbvNames);
    }
  }

  /** With the flag on, each argument is rendered on its own, independently of the others. */
  function ForcedArgument(name: string, value: string): seq<string>
  {
    if value == "undef." then []
    else if StartsWith(name, "**") then [EscapeArgumentValue(value, false, false)]
    else if StartsWith(name, "*") then [EscapeArgumentValue(value, false, true)]
    else [PureName(name) + "=" + EscapeArgumentValue(value, true, false)]
  }

  function ForcedArguments(items: seq<(string, string)>): seq<string>
  {
    if items == [] then [] else ForcedArgument(items[0].0, items[0].1) + ForcedArguments(items[1..])
  }

  lemma {:induction false} ForcedRenderingIsPerArgument(items: seq<(string, string)>, cbvNames: seq<string>)
    ensures RenderArguments(items, true, cbvNames) == ForcedArguments(items)
    decreases |items|
  {
    if items != [] {
      ForcedRenderingIsPerArgument(items[1..], cbvNames);
    }
  }

  /**
   * An "undef." value is dropped and every later argument is rendered as
   * forced: named unless its name starts with "*".
   */
  lemma UndefForcesNamedAfterwards(before: seq<(string, string)>, name: string, after: seq<(string, string)>,
                                   forced: bool, cbvNames: seq<string>)
    ensures RenderArguments(before + [(name, "undef.")] + after, forced, cbvNames) ==
            RenderArguments(before, forced, cbvNames) + ForcedArguments(after)
  {
    var rest := [(name, "undef.")] + after;
    assert before + [(name, "undef.")] + after == before + rest;
    RenderArgumentsAppend(before, rest, forced, cbvNames);
    assert rest[0] == (name, "undef.") && rest[1..] == after;
    var flag := FlagAfter(before, forced, cbvNames);
    assert RenderArguments(rest, flag, cbvNames) == RenderArguments(after, true, cbvNames);
    ForcedRenderingIsPerArgument(after, cbvNames);
  }

  /** A name starting with "*" (but not "**") forces named rendering of every later argument. */
  lemma StarForcesNamedAfterwards(before: seq<(string, string)>, name: string, value: string,
                                  after: seq<(string, string)>, forced: bool, cbvNames: seq<string>)
    requires value != "undef." && StartsWith(name, "*") && !StartsWith(name, "**")
    ensures RenderArguments(before + [(name, value)] + after, forced, cbvNames) ==
            RenderArguments(before, forced, cbvNames) + [EscapeArgumentValue(value, false, true)] +
            ForcedArguments(after)
  {
    var rest := [(name, value)] + after;
    assert before + [(name, value)] + after == before + rest;
    RenderArgumentsAppend(before, rest, forced, cbvNames);
    assert rest[0] == (name, value) && rest[1..] == after;
    var flag := FlagAfter(before, forced, cbvNames);
    assert RenderArguments(rest, flag, cbvNames) ==
           [EscapeArgumentValue(value, false, true)] + RenderArguments(after, true, cbvNames);
    ForcedRenderingIsPerArgument(after, cbvNames);
    ConcatAssociates(RenderArguments(before, forced, cbvNames), [EscapeArgumentValue(value, false, true)],
                     ForcedArguments(after));
  }

  /** Without a forcing name or value, every argument is a positional escaped value. */
  lemma PlainArgumentsArePositional(items: seq<(string, string)>, cbvNames: seq<string>)
    requires forall i :: 0 <= i < |items| ==>
               items[i].1 != "undef." && !StartsWith(items[i].0, "*") && !ForcesNamed(items[i].0)
    ensures |RenderArguments(items, false, cbvNames)| == |items|
    ensures !FlagAfter(items, false, cbvNames)
    decreases |items|
  {
    if items != [] {
      PlainArgumentsArePositional(items[1..], cbvNames);
    }
  }
}
